/**
 What the store keeps over every sequence of calls, with arbitrary clocks, workers and leases:
 the idempotency index, terminal records, fencing, and the shape of a claimed batch.
 */
module OutboxRuns {
  import opened Basics
  import opened OutboxModel

  // --- one claim_due ---

  /** A due record that comes earlier has strictly fewer records ahead of it. */
  lemma AheadGrows(records: map<nat, Record>, now: Time, a: nat, b: nat)
    requires a in records && b in records && records[a].Due(now) && Before(records, a, b)
    ensures |Ahead(records, now, a)| < |Ahead(records, now, b)|
    ensures |LiveAhead(records, now, a)| + (if records[a].Spent() then 0 else 1) <= |LiveAhead(records, now, b)|
  {
    SubsetSize(Ahead(records, now, a) + {a}, Ahead(records, now, b));
    if records[a].Spent() {
      SubsetSize(LiveAhead(records, now, a), LiveAhead(records, now, b));
    } else {
      SubsetSize(LiveAhead(records, now, a) + {a}, LiveAhead(records, now, b));
    }
  }

  /** The tokens of one call are above every older token and below every later one. */
  lemma TokenIsFresh(s: Store, now: Time, limit: nat, id: nat)
    requires id in s.records && Reached(s.records, now, limit, id)
    ensures s.nextToken < ClaimToken(s, now, id) <= s.nextToken + |ReachedIds(s.records, now, limit)|
  {
    forall j | j in Ahead(s.records, now, id) ensures j in ReachedIds(s.records, now, limit) {
      AheadGrows(s.records, now, j, id);
    }
    SubsetSize(Ahead(s.records, now, id) + {id}, ReachedIds(s.records, now, limit));
  }

  lemma TokensDiffer(s: Store, now: Time, a: nat, b: nat)
    requires a in s.records && b in s.records && a != b
    requires s.records[a].Due(now) && s.records[b].Due(now)
    ensures ClaimToken(s, now, a) != ClaimToken(s, now, b)
    ensures
      var x, y := s.records[a].request.availableAt, s.records[b].request.availableAt;
      (x < y || (x == y && a < b)) <==> ClaimToken(s, now, a) < ClaimToken(s, now, b)
  {
    if Before(s.records, a, b) {
      AheadGrows(s.records, now, a, b);
    } else {
      AheadGrows(s.records, now, b, a);
    }
  }

  /**
   The batch in the words of the documentation: records whose time has come, pending or under an expired
   lease, with attempts left, in (`availableAt`, id) order, with strictly increasing fresh tokens; nothing
   eligible is passed over.
   */
  lemma BatchIsFirstInOrder(s: Store, worker: nat, now: Time, leaseFor: nat, limit: nat, claims: seq<Claim>)
    requires IsBatch(s, worker, now, leaseFor, limit, claims)
    ensures |claims| <= limit
    ensures forall k :: 0 <= k < |claims| ==> claims[k].id in s.records
    ensures forall k :: 0 <= k < |claims| ==>
      var r := s.records[claims[k].id];
      && r.request.availableAt <= now
      && (r.status.Pending? || (r.status.Claimed? && r.status.lease.until <= now))
      && r.attempt < r.request.maxAttempts
    ensures forall k, m :: 0 <= k < m < |claims| ==>
      var x, y := s.records[claims[k].id].request.availableAt, s.records[claims[m].id].request.availableAt;
      (x < y || (x == y && claims[k].id < claims[m].id)) && claims[k].lease.token < claims[m].lease.token
    ensures forall k :: 0 <= k < |claims| ==>
      s.nextToken < claims[k].lease.token <= ClaimDue(s, worker, now, leaseFor, limit).nextToken
    ensures forall id ::
      && id in s.records
      && s.records[id].request.availableAt <= now
      && (s.records[id].status.Pending? || (s.records[id].status.Claimed? && s.records[id].status.lease.until <= now))
      && s.records[id].attempt < s.records[id].request.maxAttempts ==>
        || (exists k :: 0 <= k < |claims| && claims[k].id == id)
        || (|claims| == limit && forall k :: 0 <= k < |claims| ==>
              var x, y := s.records[claims[k].id].request.availableAt, s.records[id].request.availableAt;
              x < y || (x == y && claims[k].id < id))
  {
    var ids := IdsOf(claims, |claims|);
    forall k, m | 0 <= k < m < |claims|
      ensures Before(s.records, claims[k].id, claims[m].id) && claims[k].lease.token < claims[m].lease.token
    {
      BatchPairInOrder(s, worker, now, leaseFor, limit, claims, k, m);
    }
    forall k | 0 <= k < |claims|
      ensures s.nextToken < claims[k].lease.token <= ClaimDue(s, worker, now, leaseFor, limit).nextToken
    {
      TokenIsFresh(s, now, limit, claims[k].id);
    }
    BatchCoversTaken(s, worker, now, leaseFor, limit, claims, |claims|);
    assert ids == TakenIds(s.records, now, limit) by {
      SubsetSize(ids, TakenIds(s.records, now, limit));
    }
    if |claims| > 0 {
      assert IsBatchEntry(s, worker, now, leaseFor, limit, |claims| - 1, claims[|claims| - 1]);
    }
    forall id | id in s.records && s.records[id].Due(now) && !s.records[id].Spent() && id !in ids
      ensures |claims| == limit && forall k :: 0 <= k < |claims| ==> Before(s.records, claims[k].id, id)
    {
      PassedOverIsLater(s, now, limit, id);
      forall k | 0 <= k < |claims| ensures Before(s.records, claims[k].id, id) {
        assert claims[k].id in ids;
      }
    }
  }

  function IdsOf(claims: seq<Claim>, n: nat): set<nat>
    requires n <= |claims|
  {
    set k | 0 <= k < n :: claims[k].id
  }

  lemma BatchPairInOrder(s: Store, worker: nat, now: Time, leaseFor: nat, limit: nat, claims: seq<Claim>, k: nat,
          m: nat)
    requires IsBatch(s, worker, now, leaseFor, limit, claims) && k < m < |claims|
    ensures claims[k].id in s.records && claims[m].id in s.records
    ensures Before(s.records, claims[k].id, claims[m].id) && claims[k].lease.token < claims[m].lease.token
  {
    var a, b := claims[k].id, claims[m].id;
    assert IsBatchEntry(s, worker, now, leaseFor, limit, k, claims[k]);
    assert IsBatchEntry(s, worker, now, leaseFor, limit, m, claims[m]);
    assert a != b;
    if Before(s.records, b, a) {
      AheadGrows(s.records, now, b, a);
    }
    AheadGrows(s.records, now, a, b);
  }

  lemma EntryIsNew(s: Store, worker: nat, now: Time, leaseFor: nat, limit: nat, claims: seq<Claim>, n: nat)
    requires IsBatch(s, worker, now, leaseFor, limit, claims) && n < |claims|
    ensures claims[n].id !in IdsOf(claims, n) && claims[n].id in TakenIds(s.records, now, limit)
  {
    assert IsBatchEntry(s, worker, now, leaseFor, limit, n, claims[n]);
    forall k | 0 <= k < n ensures claims[k].id != claims[n].id {
      BatchPairInOrder(s, worker, now, leaseFor, limit, claims, k, n);
    }
  }

  lemma IdsGrow(claims: seq<Claim>, n: nat)
    requires n < |claims|
    ensures IdsOf(claims, n + 1) == IdsOf(claims, n) + {claims[n].id}
  {
  }

  lemma {:induction false} BatchCoversTaken(s: Store, worker: nat, now: Time, leaseFor: nat, limit: nat,
          claims: seq<Claim>, n: nat)
    requires IsBatch(s, worker, now, leaseFor, limit, claims) && n <= |claims|
    ensures |IdsOf(claims, n)| == n && IdsOf(claims, n) <= TakenIds(s.records, now, limit)
  {
    if n > 0 {
      BatchCoversTaken(s, worker, now, leaseFor, limit, claims, n - 1);
      EntryIsNew(s, worker, now, leaseFor, limit, claims, n - 1);
      IdsGrow(claims, n - 1);
    } else {
      assert IdsOf(claims, 0) == {};
    }
  }

  lemma BatchIds(s: Store, worker: nat, now: Time, leaseFor: nat, limit: nat, claims: seq<Claim>)
    requires IsBatch(s, worker, now, leaseFor, limit, claims)
    ensures IdsOf(claims, |claims|) == TakenIds(s.records, now, limit)
  {
    BatchCoversTaken(s, worker, now, leaseFor, limit, claims, |claims|);
    SubsetSize(IdsOf(claims, |claims|), TakenIds(s.records, now, limit));
  }

  /** A live due record outside the batch has a full batch ahead of it. */
  lemma PassedOverIsLater(s: Store, now: Time, limit: nat, id: nat)
    requires id in s.records && s.records[id].Due(now) && !s.records[id].Spent()
    requires id !in TakenIds(s.records, now, limit)
    ensures |TakenIds(s.records, now, limit)| >= limit
    ensures forall j :: j in TakenIds(s.records, now, limit) ==> Before(s.records, j, id)
  {
    forall j | j in TakenIds(s.records, now, limit) ensures Before(s.records, j, id) {
      if Before(s.records, id, j) {
        AheadGrows(s.records, now, id, j);
      }
    }
    FullPrefix(s.records, now, limit, id, LiveAhead(s.records, now, id));
  }

  /** `claim_due` fails exactly the exhausted due records it meets before the batch is full. */
  lemma ExhaustedFailIffMet(s: Store, worker: nat, now: Time, leaseFor: nat, limit: nat, claims: seq<Claim>, id: nat)
    requires IsBatch(s, worker, now, leaseFor, limit, claims)
    requires id in s.records && s.records[id].request.availableAt <= now
    requires s.records[id].status.Pending?
      || (s.records[id].status.Claimed? && s.records[id].status.lease.until <= now)
    requires s.records[id].attempt >= s.records[id].request.maxAttempts
    ensures
      var met := |claims| < limit
        || exists k :: 0 <= k < |claims| && claims[k].id in s.records
             && var x, y := s.records[id].request.availableAt, s.records[claims[k].id].request.availableAt;
                x < y || (x == y && id < claims[k].id);
      ClaimDue(s, worker, now, leaseFor, limit).records[id] ==
        s.records[id].(status := if met then Failed(Exhausted) else Pending)
  {
    var taken := TakenIds(s.records, now, limit);
    BatchCoversTaken(s, worker, now, leaseFor, limit, claims, |claims|);
    SubsetSize(IdsOf(claims, |claims|), taken);
    if Reached(s.records, now, limit, id) {
      if |claims| >= limit && forall k :: 0 <= k < |claims| ==> !Before(s.records, id, claims[k].id) {
        SubsetSize(taken, LiveAhead(s.records, now, id));
      }
    } else {
      FullPrefix(s.records, now, limit, id, LiveAhead(s.records, now, id));
      BatchIsFirstInOrder(s, worker, now, leaseFor, limit, claims);
      forall k | 0 <= k < |claims| ensures !Before(s.records, id, claims[k].id) {
        assert claims[k].id in IdsOf(claims, |claims|);
        if Before(s.records, id, claims[k].id) {
          AheadGrows(s.records, now, id, claims[k].id);
        }
      }
    }
  }

  /** Of `limit` or more live due records, at least `limit` have fewer than `limit` ahead of them. */
  lemma {:induction false} FullPrefix(records: map<nat, Record>, now: Time, limit: nat, id: nat, live: set<nat>)
    requires id in records && live == LiveAhead(records, now, id) && |live| >= limit
    ensures |TakenIds(records, now, limit)| >= limit
    decreases |live|
  {
    if live == {} {
    } else {
      var last := LastOf(records, live);
      assert LiveAhead(records, now, last) == live - {last};
      if |live| - 1 >= limit {
        FullPrefix(records, now, limit, last, live - {last});
      } else {
        forall j | j in live ensures j in TakenIds(records, now, limit) {
          SubsetSize(LiveAhead(records, now, j), live - {j});
        }
        SubsetSize(live, TakenIds(records, now, limit));
      }
    }
  }

  lemma {:induction false} LastOf(records: map<nat, Record>, ids: set<nat>) returns (last: nat)
    requires ids != {} && ids <= records.Keys
    ensures last in ids && forall j :: j in ids && j != last ==> Before(records, j, last)
    decreases ids
  {
    last :| last in ids;
    if ids != {last} {
      var other := LastOf(records, ids - {last});
      if Before(records, last, other) {
        last := other;
      } else {
        assert forall j :: j in ids && j != last && j != other ==> Before(records, j, other);
      }
    }
  }

  // --- any sequence of calls ---

  datatype Call =
    | EnqueueCall(request: Request)
    | ClaimCall(worker: nat, now: Time, leaseFor: nat, limit: pos)
    | LeaseCall(id: nat, lease: Lease, op: Op, clock: Time)
    | ArmFailureCall

  /** `byKey` and `records` are a bijection between keys and ids. */
  ghost predicate IndexOk(s: Store) {
    && (forall key :: key in s.byKey ==> s.byKey[key] in s.records && s.records[s.byKey[key]].request.key == key)
    && (forall id :: id in s.records ==>
      && id < s.nextId
      && s.records[id].request.key in s.byKey
      && s.byKey[s.records[id].request.key] == id)
  }

  /** No lease on record carries a token that has not been issued. */
  ghost predicate TokensOk(s: Store) {
    forall id :: id in s.records && s.records[id].status.Claimed? ==> s.records[id].status.lease.token <= s.nextToken
  }

  ghost predicate Valid(s: Store) {
    IndexOk(s) && TokensOk(s)
  }

  ghost function Do(s: Store, c: Call): Store
    requires IndexOk(s)
  {
    match c
    case EnqueueCall(request) => Enqueue(s, request).0
    case ClaimCall(worker, now, leaseFor, limit) => ClaimDue(s, worker, now, leaseFor, limit)
    case LeaseCall(id, lease, op, clock) => Apply(s, id, lease, op, clock).0
    case ArmFailureCall => s.(failNextComplete := true)
  }

  lemma EnqueueKeepsIndex(s: Store, request: Request)
    requires IndexOk(s)
    ensures IndexOk(Enqueue(s, request).0)
  {
  }

  lemma ApplyKeepsIndex(s: Store, id: nat, lease: Lease, op: Op, clock: Time)
    requires IndexOk(s)
    ensures IndexOk(Apply(s, id, lease, op, clock).0)
  {
  }

  lemma DoKeepsIndex(s: Store, c: Call)
    requires IndexOk(s)
    ensures IndexOk(Do(s, c))
  {
    match c
    case EnqueueCall(request) => EnqueueKeepsIndex(s, request);
    case LeaseCall(id, lease, op, clock) => ApplyKeepsIndex(s, id, lease, op, clock);
    case _ =>
  }

  /** The index stays a bijection, whatever is called with whatever arguments. */
  ghost function Play(s: Store, calls: seq<Call>): (final: Store)
    requires IndexOk(s)
    ensures IndexOk(final)
    decreases |calls|
  {
    if calls == [] then s
    else
      DoKeepsIndex(s, calls[0]);
      Play(Do(s, calls[0]), calls[1..])
  }

  /** One key, one record: two ids never share a key in any store reached by calls. */
  lemma OneRecordPerKey(calls: seq<Call>, a: nat, b: nat)
    requires var s := Play(EMPTY, calls); a in s.records && b in s.records
    requires var s := Play(EMPTY, calls); s.records[a].request.key == s.records[b].request.key
    ensures a == b
  {
    var s := Play(EMPTY, calls);
    assert s.byKey[s.records[a].request.key] == a;
  }

  lemma ClaimIssuesTokens(s: Store, worker: nat, now: Time, leaseFor: nat, limit: pos)
    requires TokensOk(s)
    ensures TokensOk(ClaimDue(s, worker, now, leaseFor, limit))
  {
    var s' := ClaimDue(s, worker, now, leaseFor, limit);
    forall id | id in s'.records && s'.records[id].status.Claimed?
      ensures s'.records[id].status.lease.token <= s'.nextToken
    {
      if Reached(s.records, now, limit, id) {
        TokenIsFresh(s, now, limit, id);
      }
    }
  }

  lemma ApplyIssuesNoToken(s: Store, id: nat, lease: Lease, op: Op, clock: Time)
    requires TokensOk(s)
    ensures TokensOk(Apply(s, id, lease, op, clock).0)
  {
  }

  lemma DoKeepsTokens(s: Store, c: Call)
    requires Valid(s)
    ensures Valid(Do(s, c)) && s.nextToken <= Do(s, c).nextToken
  {
    DoKeepsIndex(s, c);
    match c
    case ClaimCall(worker, now, leaseFor, limit) => ClaimIssuesTokens(s, worker, now, leaseFor, limit);
    case LeaseCall(id, lease, op, clock) => ApplyIssuesNoToken(s, id, lease, op, clock);
    case _ =>
  }

  lemma {:induction false} PlayKeepsTokens(s: Store, calls: seq<Call>)
    requires Valid(s)
    ensures Valid(Play(s, calls)) && s.nextToken <= Play(s, calls).nextToken
    decreases |calls|
  {
    if calls != [] {
      DoKeepsTokens(s, calls[0]);
      PlayKeepsTokens(Do(s, calls[0]), calls[1..]);
    }
  }

  // --- idempotency ---

  lemma RequestStep(s: Store, c: Call, id: nat)
    requires IndexOk(s) && id in s.records
    ensures id in Do(s, c).records
    ensures Do(s, c).records[id].request.key == s.records[id].request.key
    ensures SameRequest(Do(s, c).records[id].request, s.records[id].request)
  {
  }

  /** What a record keeps for life: its id and everything the idempotency comparison looks at. */
  lemma {:induction false} RequestIsKept(s: Store, calls: seq<Call>, id: nat)
    requires IndexOk(s) && id in s.records
    ensures id in Play(s, calls).records
    ensures Play(s, calls).records[id].request.key == s.records[id].request.key
    ensures SameRequest(Play(s, calls).records[id].request, s.records[id].request)
    decreases |calls|
  {
    if calls != [] {
      DoKeepsIndex(s, calls[0]);
      RequestStep(s, calls[0], id);
      RequestIsKept(Do(s, calls[0]), calls[1..], id);
    }
  }

  /**
   Re-enqueueing after any run: a request with the same payload, version, metadata and attempt limit gives
   the original id back, one that differs in any of them conflicts with that id, and neither changes the
   store. `availableAt` plays no part.
   */
  lemma ReenqueueFindsOriginal(s: Store, first: Request, calls: seq<Call>, again: Request)
    requires IndexOk(s) && Enqueue(s, first).1.Ok? && again.key == first.key
    ensures IndexOk(Enqueue(s, first).0)
    ensures
      var (s1, outcome) := Enqueue(s, first);
      var later := Play(s1, calls);
      var same := first.payload == again.payload && first.payloadVersion == again.payloadVersion
        && first.metadata == again.metadata && first.maxAttempts == again.maxAttempts;
      Enqueue(later, again)
      == (later, if same then Ok(Existing(outcome.value.id)) else Err(Conflict(outcome.value.id)))
  {
    DoKeepsIndex(s, EnqueueCall(first));
    var (s1, outcome) := Enqueue(s, first);
    RequestIsKept(s1, calls, outcome.value.id);
  }

  // --- terminal records ---

  lemma TerminalStep(s: Store, c: Call, id: nat)
    requires IndexOk(s) && id in s.records && s.records[id].Terminal()
    ensures id in Do(s, c).records && Do(s, c).records[id] == s.records[id]
  {
  }

  /** `Completed` and `Failed` are never left: no later call changes anything about such a record. */
  lemma {:induction false} TerminalForever(s: Store, calls: seq<Call>, id: nat)
    requires IndexOk(s) && id in s.records && s.records[id].Terminal()
    ensures id in Play(s, calls).records && Play(s, calls).records[id] == s.records[id]
    decreases |calls|
  {
    if calls != [] {
      DoKeepsIndex(s, calls[0]);
      TerminalStep(s, calls[0], id);
      TerminalForever(Do(s, calls[0]), calls[1..], id);
    }
  }

  // --- fencing ---

  /** `token` was issued and the record is no longer held under it. */
  ghost predicate Fenced(s: Store, id: nat, token: nat) {
    id in s.records && token <= s.nextToken && !s.records[id].HeldBy(token)
  }

  /** A claim fences every token issued before it, on the record it takes. */
  lemma ClaimFencesOlderTokens(s: Store, worker: nat, now: Time, leaseFor: nat, limit: pos, id: nat, token: nat)
    requires id in TakenIds(s.records, now, limit) && token <= s.nextToken
    ensures Fenced(ClaimDue(s, worker, now, leaseFor, limit), id, token)
  {
    TokenIsFresh(s, now, limit, id);
  }

  /** An operation that ends a lease fences the token it used. */
  lemma EndingFencesOwnToken(s: Store, id: nat, lease: Lease, op: Op, clock: Time)
    requires Valid(s) && !op.Renew? && !op.BeginAttempt?
    requires Apply(s, id, lease, op, clock).1 == Done
    ensures Fenced(Apply(s, id, lease, op, clock).0, id, lease.token)
  {
  }

  lemma FencedStep(s: Store, c: Call, id: nat, token: nat)
    requires Valid(s) && Fenced(s, id, token)
    ensures Fenced(Do(s, c), id, token)
  {
    if c.ClaimCall? && Reached(s.records, c.now, c.limit, id) {
      TokenIsFresh(s, c.now, c.limit, id);
    }
  }

  lemma {:induction false} FencedThroughout(s: Store, calls: seq<Call>, id: nat, token: nat)
    requires Valid(s) && Fenced(s, id, token)
    ensures Fenced(Play(s, calls), id, token)
    decreases |calls|
  {
    if calls != [] {
      DoKeepsTokens(s, calls[0]);
      FencedStep(s, calls[0], id, token);
      FencedThroughout(Do(s, calls[0]), calls[1..], id, token);
    }
  }

  /**
   Fencing over whole runs: from then on every operation with that token, whatever else its lease says
   and whatever any clock reads, is refused and changes no record. Only an armed injected failure can
   take the place of the mismatch error.
   */
  lemma FencedForever(s: Store, calls: seq<Call>, id: nat, lease: Lease, op: Op, clock: Time)
    requires Valid(s) && Fenced(s, id, lease.token)
    ensures
      var later := Play(s, calls);
      var (after, reply) := Apply(later, id, lease, op, clock);
      && after.records == later.records
      && (reply == Refused(LeaseMismatch(id))
        || (op.Complete? && later.failNextComplete && reply == Refused(InjectedFailure)))
  {
    FencedThroughout(s, calls, id, lease.token);
  }

  /** A renewal keeps the fencing identity: an operation created with the old snapshot still counts as current. */
  lemma OldSnapshotSurvivesRenewal(s: Store, id: nat, lease: Lease, until: Time, clock: Time, op: Op, later: Time)
    requires Apply(s, id, lease, Renew(until), clock).1.Renewed?
    requires later < until && !(op.Complete? && s.failNextComplete)
    ensures
      var (renewed, reply) := Apply(s, id, lease, Renew(until), clock);
      && reply.lease == lease.(until := until)
      && LeaseIsCurrent(renewed.records[id].status, lease, later)
      && Apply(renewed, id, lease, op, later) == Apply(renewed, id, reply.lease, op, later)
      && !Apply(renewed, id, lease, op, later).1.Refused?
  {
  }
}
