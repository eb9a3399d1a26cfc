/**
 The in-memory store: an object whose methods update `records`, `byKey` and two counters. Every method
 is proved against the function of `OutboxModel` with the same name; `claim_due` visits its map in an
 arbitrary order, sorts and loops, and still has the order-free result of the model.
 */
module OutboxStore {
  import opened Basics
  import opened OutboxModel

  // --- claim order ---

  ghost predicate Sorted(records: map<nat, Record>, ids: seq<nat>) {
    && (forall k :: 0 <= k < |ids| ==> ids[k] in records)
    && (forall a, b :: 0 <= a < b < |ids| ==> Before(records, ids[a], ids[b]))
  }

  function Elements(ids: seq<nat>): set<nat> {
    set k | 0 <= k < |ids| :: ids[k]
  }

  lemma ElementsAppend(ids: seq<nat>, id: nat)
    ensures Elements(ids + [id]) == Elements(ids) + {id}
  {
    assert (ids + [id])[|ids|] == id;
    assert forall k :: 0 <= k < |ids| ==> (ids + [id])[k] == ids[k];
  }

  lemma NotYetFound(ids: seq<nat>, id: nat)
    requires id !in Elements(ids)
    ensures forall k :: 0 <= k < |ids| ==> ids[k] != id
  {
    forall k | 0 <= k < |ids| ensures ids[k] != id {
      assert ids[k] in Elements(ids);
    }
  }

  /** One more due id is found. */
  lemma FindOne(records: map<nat, Record>, now: Time, found: seq<nat>, left: set<nat>, id: nat)
    requires Elements(found) == DueIds(records, now) - (left + {id}) && id in DueIds(records, now) && id !in left
    requires forall a, b :: 0 <= a < b < |found| ==> found[a] != found[b]
    ensures Elements(found + [id]) == DueIds(records, now) - left
    ensures forall a, b :: 0 <= a < b < |found| + 1 ==> (found + [id])[a] != (found + [id])[b]
  {
    NotYetFound(found, id);
    ElementsAppend(found, id);
  }

  /** A sorted sequence has no duplicates, so a prefix of length `k` has `k` elements. */
  lemma {:induction false} PrefixSize(records: map<nat, Record>, ids: seq<nat>, k: nat)
    requires Sorted(records, ids) && k <= |ids|
    ensures |Elements(ids[..k])| == k
  {
    if k > 0 {
      PrefixSize(records, ids, k - 1);
      assert ids[..k] == ids[..k - 1] + [ids[k - 1]];
      ElementsAppend(ids[..k - 1], ids[k - 1]);
      assert ids[k - 1] !in Elements(ids[..k - 1]) by {
        assert forall m :: 0 <= m < k - 1 ==> ids[..k - 1][m] == ids[m] && Before(records, ids[m], ids[k - 1]);
      }
    } else {
      assert Elements(ids[..0]) == {};
    }
  }

  /** In claim order, what is ahead of a due record is exactly the prefix before it. */
  lemma AheadIsPrefix(records: map<nat, Record>, now: Time, ids: seq<nat>, k: nat)
    requires Sorted(records, ids) && Elements(ids) == DueIds(records, now) && k < |ids|
    ensures Ahead(records, now, ids[k]) == Elements(ids[..k])
    ensures |Ahead(records, now, ids[k])| == k
    ensures LiveAhead(records, now, ids[k]) == set j | j in Elements(ids[..k]) && !records[j].Spent()
  {
    forall j | j in DueIds(records, now) ensures Before(records, j, ids[k]) <==> j in Elements(ids[..k]) {
      var m :| 0 <= m < |ids| && ids[m] == j;
      if m < k {
        assert ids[..k][m] == j;
      } else {
        forall n | 0 <= n < k ensures ids[..k][n] != j {
          assert Before(records, ids[n], ids[m]);
        }
      }
    }
    PrefixSize(records, ids, k);
    assert forall j :: j in Elements(ids[..k]) ==> j in Elements(ids);
  }

  lemma InsertionSorts(records: map<nat, Record>, ids: seq<nat>, p: nat, id: nat)
    requires Sorted(records, ids) && id in records && id !in Elements(ids) && p <= |ids|
    requires forall k :: 0 <= k < p ==> Before(records, ids[k], id)
    requires p < |ids| ==> !Before(records, ids[p], id)
    ensures Sorted(records, ids[..p] + [id] + ids[p..])
    ensures Elements(ids[..p] + [id] + ids[p..]) == Elements(ids) + {id}
  {
    var longer := ids[..p] + [id] + ids[p..];
    assert longer[p] == id;
    assert forall k :: 0 <= k < p ==> longer[k] == ids[k];
    assert forall k :: p <= k < |ids| ==> longer[k + 1] == ids[k];
    assert forall k :: p <= k < |ids| ==> ids[k] in Elements(ids) && Before(records, id, ids[k]);
  }

  /** `sort_by_key` on (`available_at`, id), as an insertion sort. */
  method SortByDueTime(records: map<nat, Record>, ids: seq<nat>) returns (sorted: seq<nat>)
    requires forall k :: 0 <= k < |ids| ==> ids[k] in records
    requires forall a, b :: 0 <= a < b < |ids| ==> ids[a] != ids[b]
    ensures Sorted(records, sorted)
    ensures Elements(sorted) == Elements(ids)
  {
    sorted := [];
    assert Elements(ids[..0]) == {};
    for i := 0 to |ids|
      invariant Sorted(records, sorted)
      invariant Elements(sorted) == Elements(ids[..i])
    {
      var p := 0;
      while p < |sorted| && Before(records, sorted[p], ids[i])
        invariant 0 <= p <= |sorted|
        invariant forall k :: 0 <= k < p ==> Before(records, sorted[k], ids[i])
      {
        p := p + 1;
      }
      assert ids[i] !in Elements(sorted) by {
        assert forall k :: 0 <= k < i ==> ids[..i][k] != ids[i];
      }
      InsertionSorts(records, sorted, p, ids[i]);
      sorted := sorted[..p] + [ids[i]] + sorted[p..];
      assert ids[..i + 1] == ids[..i] + [ids[i]];
      ElementsAppend(ids[..i], ids[i]);
    }
    assert ids[..|ids|] == ids;
  }

  class InMemoryOutboxStore {
    var nextId: nat
    var nextLeaseToken: nat
    var records: map<nat, Record>
    var byKey: map<string, nat>
    var armedFailure: bool

    ghost function View(): Store
      reads this
    {
      Store(nextId, nextLeaseToken, records, byKey, armedFailure)
    }

    constructor ()
      ensures View() == EMPTY
    {
      nextId, nextLeaseToken, records, byKey, armedFailure := 0, 0, map[], map[], false;
    }

    method FailNextComplete()
      modifies this
      ensures View() == old(View()).(failNextComplete := true)
    {
      armedFailure := true;
    }

    method Enqueue(request: Request) returns (result: Result<EnqueueResult, StoreError>)
      requires request.key in byKey ==> byKey[request.key] in records
      modifies this
      ensures (View(), result) == OutboxModel.Enqueue(old(View()), request)
    {
      if request.key in byKey {
        var known := byKey[request.key];
        if SameRequest(records[known].request, request) {
          return Ok(Existing(known));
        }
        return Err(Conflict(known));
      }
      var id := nextId;
      nextId := nextId + 1;
      byKey := byKey[request.key := id];
      records := records[id := Record(request, 0, 0, Pending, None)];
      result := Ok(Inserted(id));
    }

    /** The first loop of `claim_due`: expired leases return to `Pending`. */
    method SweepExpired(now: Time)
      modifies `records
      ensures records == map id | id in old(records) :: old(records)[id].Swept(now)
    {
      var todo := records.Keys;
      while todo != {}
        invariant todo <= records.Keys == old(records).Keys
        invariant forall id :: id in records ==>
          records[id] == if id in todo then old(records)[id] else old(records)[id].Swept(now)
        decreases |todo|
      {
        var id :| id in todo;
        todo := todo - {id};
        var r := records[id];
        if r.status.Claimed? && r.status.lease.until <= now {
          records := records[id := r.(status := Pending)];
        }
      }
    }

    /** The second loop: collect the due ids, in whatever order the map yields them, then sort. */
    method CollectDue(now: Time) returns (ids: seq<nat>)
      requires forall id :: id in records ==> records[id].Swept(now) == records[id]
      ensures Sorted(records, ids)
      ensures Elements(ids) == DueIds(records, now)
    {
      var todo := records.Keys;
      var found: seq<nat> := [];
      while todo != {}
        invariant todo <= records.Keys
        invariant Elements(found) == DueIds(records, now) - todo
        invariant forall k :: 0 <= k < |found| ==> found[k] in records
        invariant forall a, b :: 0 <= a < b < |found| ==> found[a] != found[b]
        decreases |todo|
      {
        var id :| id in todo;
        todo := todo - {id};
        var r := records[id];
        assert r.Swept(now) == r;
        if r.status.Pending? && r.request.availableAt <= now {
          FindOne(records, now, found, todo, id);
          found := found + [id];
        }
      }
      ids := SortByDueTime(records, found);
    }

    /** One turn of the third loop: a spent record fails, any other is leased under a new token. */
    method VisitOne(worker: nat, until: Time, id: nat) returns (claim: seq<Claim>)
      requires id in records
      modifies `records, `nextLeaseToken
      ensures nextLeaseToken == old(nextLeaseToken) + 1
      ensures records == old(records)[id := Visited(old(records)[id], worker, nextLeaseToken, until)]
      ensures claim == Leased(id, old(records)[id], worker, nextLeaseToken, until)
    {
      nextLeaseToken := nextLeaseToken + 1;
      var r := records[id];
      if r.attempt >= r.request.maxAttempts {
        r := r.(status := Failed(Exhausted));
        claim := [];
      } else {
        r := r.(claimCount := r.claimCount + 1, status := Claimed(Lease(worker, nextLeaseToken, until)));
        claim := [ClaimOf(id, r)];
      }
      records := records[id := r];
    }

    /** The third loop: visit the due ids in order until the batch is full. */
    method VisitDue(worker: nat, until: Time, limit: pos, ids: seq<nat>, ghost plan: Plan)
      returns (claims: seq<Claim>, visited: nat)
      requires PlanFollowsLoop(plan, worker, nextLeaseToken, until, limit, ids)
      requires Progress(plan, ids, 0, limit, records, [])
      modifies `records, `nextLeaseToken
      ensures Progress(plan, ids, visited, limit, records, claims)
      ensures visited == |ids| || |claims| == limit
      ensures nextLeaseToken == old(nextLeaseToken) + visited
    {
      ghost var first := nextLeaseToken;
      claims, visited := [], 0;
      while visited < |ids| && |claims| != limit
        invariant visited <= |ids|
        invariant nextLeaseToken == first + visited
        invariant |claims| <= limit && Progress(plan, ids, visited, limit, records, claims)
        decreases |ids| - visited
      {
        ProgressStep(plan, worker, first, until, ids, visited, limit, records, claims);
        var claim := VisitOne(worker, until, ids[visited]);
        claims := claims + claim;
        visited := visited + 1;
      }
    }

    method ClaimDue(worker: nat, now: Time, leaseFor: nat, limit: pos) returns (claims: seq<Claim>)
      modifies this
      ensures View() == OutboxModel.ClaimDue(old(View()), worker, now, leaseFor, limit)
      ensures IsBatch(old(View()), worker, now, leaseFor, limit, claims)
    {
      ghost var b := Batch(View(), worker, now, leaseFor, limit);
      SweepExpired(now);
      var ids := CollectDue(now);
      ghost var plan := PlanOf(b, ids, records);
      var visited;
      claims, visited := VisitDue(worker, AddTime(now, leaseFor), limit, ids, plan);
      ProgressDone(b, plan, ids, visited, records, claims);
    }

    method RenewLease(id: nat, lease: Lease, until: Time, clock: Time) returns (reply: Reply)
      modifies this
      ensures (View(), reply) == Apply(old(View()), id, lease, Renew(until), clock)
    {
      if id !in records {
        return Refused(NotFound(id));
      }
      if !LeaseIsCurrent(records[id].status, lease, clock) {
        return Refused(LeaseMismatch(id));
      }
      var renewed := lease.(until := until);
      records := records[id := records[id].(status := Claimed(renewed))];
      reply := Renewed(renewed);
    }

    method BeginAttempt(id: nat, lease: Lease, clock: Time) returns (reply: Reply)
      modifies this
      ensures (View(), reply) == Apply(old(View()), id, lease, Op.BeginAttempt, clock)
    {
      if id !in records {
        return Refused(NotFound(id));
      }
      var r := records[id];
      if !LeaseIsCurrent(r.status, lease, clock) {
        return Refused(LeaseMismatch(id));
      }
      if r.attempt >= r.request.maxAttempts {
        assert records == records[id := r];
        return OutOfAttempts;
      }
      records := records[id := r.(attempt := r.attempt + 1)];
      reply := Started(r.attempt + 1);
    }

    method Complete(id: nat, lease: Lease, clock: Time) returns (reply: Reply)
      modifies this
      ensures (View(), reply) == Apply(old(View()), id, lease, Op.Complete, clock)
    {
      if armedFailure {
        armedFailure := false;
        return Refused(InjectedFailure);
      }
      if id !in records {
        return Refused(NotFound(id));
      }
      if !LeaseIsCurrent(records[id].status, lease, clock) {
        return Refused(LeaseMismatch(id));
      }
      records := records[id := records[id].(status := Completed)];
      reply := Done;
    }

    method Reschedule(id: nat, lease: Lease, availableAt: Time, reason: FailureKind, clock: Time) returns (reply: Reply)
      modifies this
      ensures (View(), reply) == Apply(old(View()), id, lease, Op.Reschedule(availableAt, reason), clock)
    {
      if id !in records {
        return Refused(NotFound(id));
      }
      var r := records[id];
      if !LeaseIsCurrent(r.status, lease, clock) {
        return Refused(LeaseMismatch(id));
      }
      r := r.(request := r.request.(availableAt := availableAt));
      r := r.(lastFailure := Some(reason));
      r := r.(status := Pending);
      records := records[id := r];
      reply := Done;
    }

    method Fail(id: nat, lease: Lease, failure: FailureKind, clock: Time) returns (reply: Reply)
      modifies this
      ensures (View(), reply) == Apply(old(View()), id, lease, Op.Fail(failure), clock)
    {
      if id !in records {
        return Refused(NotFound(id));
      }
      var r := records[id];
      if !LeaseIsCurrent(r.status, lease, clock) {
        return Refused(LeaseMismatch(id));
      }
      r := r.(lastFailure := Some(failure));
      r := r.(status := Failed(failure));
      records := records[id := r];
      reply := Done;
    }
  }

  // --- lemmas for the claim loop ---

  /** The sweep changes statuses only, so due ids and their order are those of the original map. */
  lemma SweepKeepsOrder(before: map<nat, Record>, after: map<nat, Record>, now: Time, ids: seq<nat>)
    requires after == map id | id in before :: before[id].Swept(now)
    requires Sorted(after, ids) && Elements(ids) == DueIds(after, now)
    ensures Sorted(before, ids) && Elements(ids) == DueIds(before, now)
  {
    assert forall id :: id in before ==> after[id].request == before[id].request;
    assert forall a, b :: a in before && b in before ==> Before(before, a, b) == Before(after, a, b);
    assert forall id :: id in before ==> after[id].Due(now) == before[id].Due(now);
  }

  function LivePrefix(records: map<nat, Record>, ids: seq<nat>, i: nat): set<nat>
    requires i <= |ids| && forall k :: 0 <= k < |ids| ==> ids[k] in records
  {
    set k | 0 <= k < i && !records[ids[k]].Spent() :: ids[k]
  }

  lemma LivePrefixIsLive(records: map<nat, Record>, ids: seq<nat>, i: nat)
    requires Sorted(records, ids) && i <= |ids|
    ensures forall j :: j in Elements(ids[..i]) ==> j in records
    ensures (set j | j in Elements(ids[..i]) && !records[j].Spent()) == LivePrefix(records, ids, i)
  {
    var prefix := ids[..i];
    assert forall k :: 0 <= k < i ==> prefix[k] == ids[k];
    forall j | j in LivePrefix(records, ids, i) ensures j in Elements(prefix) {
      var k :| 0 <= k < i && !records[ids[k]].Spent() && ids[k] == j;
      assert prefix[k] == j;
    }
  }

  lemma LivePrefixGrows(records: map<nat, Record>, ids: seq<nat>, i: nat)
    requires Sorted(records, ids) && i < |ids|
    ensures |LivePrefix(records, ids, i + 1)|
      == |LivePrefix(records, ids, i)| + if records[ids[i]].Spent() then 0 else 1
  {
    var now, next := LivePrefix(records, ids, i), LivePrefix(records, ids, i + 1);
    assert ids[i] !in now by {
      assert forall k :: 0 <= k < i ==> Before(records, ids[k], ids[i]);
    }
    if records[ids[i]].Spent() {
      assert next == now;
    } else {
      assert next == now + {ids[i]};
    }
  }

  lemma {:induction false} LivePrefixMonotone(records: map<nat, Record>, ids: seq<nat>, i: nat, k: nat)
    requires Sorted(records, ids) && i <= k <= |ids|
    ensures |LivePrefix(records, ids, i)| <= |LivePrefix(records, ids, k)|
    decreases k - i
  {
    if i < k {
      LivePrefixGrows(records, ids, i);
      LivePrefixMonotone(records, ids, i + 1, k);
    }
  }

  /** When the loop ends, the visited prefix is what the model calls reached, and the batch is complete. */
  lemma LoopStopsAtLimit(records: map<nat, Record>, now: Time, limit: nat, ids: seq<nat>, i: nat, taken: nat)
    requires Sorted(records, ids) && Elements(ids) == DueIds(records, now)
    requires i <= |ids| && (i == |ids| || taken == limit)
    requires |LivePrefix(records, ids, i)| == taken
    requires forall k :: 0 <= k < i ==> Reached(records, now, limit, ids[k])
    ensures |ReachedIds(records, now, limit)| == i
    ensures |TakenIds(records, now, limit)| == taken
    ensures forall k :: i <= k < |ids| ==> !Reached(records, now, limit, ids[k])
  {
    forall k | i <= k < |ids| ensures !Reached(records, now, limit, ids[k]) {
      AheadIsPrefix(records, now, ids, k);
      LivePrefixIsLive(records, ids, k);
      LivePrefixMonotone(records, ids, i, k);
    }
    assert ReachedIds(records, now, limit) == Elements(ids[..i]) by {
      forall j | j in ReachedIds(records, now, limit) ensures j in Elements(ids[..i]) {
        assert j in Elements(ids);
        var k :| 0 <= k < |ids| && ids[k] == j;
        assert ids[..i][k] == j;
      }
    }
    PrefixSize(records, ids, i);
    assert TakenIds(records, now, limit) == LivePrefix(records, ids, i) by {
      forall j | j in TakenIds(records, now, limit) ensures j in LivePrefix(records, ids, i) {
        assert j in Elements(ids);
        var k :| 0 <= k < |ids| && ids[k] == j;
      }
    }
  }

  /** The arguments of one `claim_due` and the store it started from. */
  datatype Batch = Batch(s: Store, worker: nat, now: Time, leaseFor: nat, limit: nat)

  function Outcomes(b: Batch): map<nat, Record> {
    ClaimDue(b.s, b.worker, b.now, b.leaseFor, b.limit).records
  }

  ghost predicate InOrder(b: Batch, ids: seq<nat>) {
    Sorted(b.s.records, ids) && Elements(ids) == DueIds(b.s.records, b.now)
  }

  /** The claims made while visiting `ids[..i]`. */
  function LiveClaims(outcome: map<nat, Record>, ids: seq<nat>, i: nat): seq<Claim>
    requires i <= |ids| && forall k :: 0 <= k < |ids| ==> ids[k] in outcome
  {
    if i == 0 then
      []
    else
      var r := outcome[ids[i - 1]];
      LiveClaims(outcome, ids, i - 1) + if r.status.Claimed? then [ClaimOf(ids[i - 1], r)] else []
  }

  /** The records when the first `i` due ids have their outcome and the others are only swept. */
  function Merged(plan: Plan, ids: seq<nat>, i: nat): map<nat, Record>
    requires i <= |ids| && plan.outcome.Keys == plan.swept.Keys
  {
    map id | id in plan.outcome :: if id in ids[..i] then plan.outcome[id] else plan.swept[id]
  }

  /** Loop invariant of `claim_due`. */
  ghost predicate Progress(plan: Plan, ids: seq<nat>, i: nat, limit: nat, records: map<nat, Record>, claims: seq<Claim>)
    requires WellFormed(plan, ids)
  {
    && i <= |ids|
    && records == Merged(plan, ids, i)
    && claims == LiveClaims(plan.outcome, ids, i)
    && forall k :: 0 <= k < i ==> |LiveClaims(plan.outcome, ids, k)| < limit
  }

  ghost predicate WellFormed(plan: Plan, ids: seq<nat>) {
    && plan.outcome.Keys == plan.swept.Keys
    && (forall k :: 0 <= k < |ids| ==> ids[k] in plan.outcome)
    && (forall a, b :: 0 <= a < b < |ids| ==> ids[a] != ids[b])
  }

  datatype Plan = Plan(swept: map<nat, Record>, outcome: map<nat, Record>)

  ghost predicate IsPlan(b: Batch, plan: Plan, ids: seq<nat>) {
    && plan.swept == (map id | id in b.s.records :: b.s.records[id].Swept(b.now))
    && plan.outcome == Outcomes(b)
    && InOrder(b, ids)
  }

  /** The record written at position `k` of the claim order, while the batch is not full. */
  function Visited(r: Record, worker: nat, token: nat, until: Time): Record {
    if r.Spent() then
      r.(status := Failed(Exhausted))
    else
      r.(claimCount := r.claimCount + 1, status := Claimed(Lease(worker, token, until)))
  }

  /** The claim made at that position, if any. */
  function Leased(id: nat, r: Record, worker: nat, token: nat, until: Time): seq<Claim> {
    if r.Spent() then [] else [ClaimOf(id, Visited(r, worker, token, until))]
  }

  ghost predicate NotFull(outcome: map<nat, Record>, ids: seq<nat>, k: nat, limit: nat)
    requires k <= |ids| && forall k :: 0 <= k < |ids| ==> ids[k] in outcome
  {
    forall m :: 0 <= m <= k ==> |LiveClaims(outcome, ids, m)| < limit
  }

  /** Wherever the loop gets to, the plan holds the record the loop body writes. */
  ghost predicate PlanFollowsLoop(plan: Plan, worker: nat, nextToken: nat, until: Time, limit: nat, ids: seq<nat>) {
    && WellFormed(plan, ids)
    && forall k :: 0 <= k < |ids| && NotFull(plan.outcome, ids, k, limit) ==>
      plan.outcome[ids[k]] == Visited(plan.swept[ids[k]], worker, nextToken + k + 1, until)
  }

  lemma PlanOf(b: Batch, ids: seq<nat>, records: map<nat, Record>) returns (plan: Plan)
    requires records == map id | id in b.s.records :: b.s.records[id].Swept(b.now)
    requires Sorted(records, ids) && Elements(ids) == DueIds(records, b.now)
    ensures IsPlan(b, plan, ids)
    ensures PlanFollowsLoop(plan, b.worker, b.s.nextToken, AddTime(b.now, b.leaseFor), b.limit, ids)
    ensures Progress(plan, ids, 0, b.limit, records, [])
  {
    SweepKeepsOrder(b.s.records, records, b.now, ids);
    plan := Plan(records, Outcomes(b));
    forall k, m | 0 <= k < m < |ids| ensures ids[k] != ids[m] {
      assert Before(records, ids[k], ids[m]);
    }
    forall k | 0 <= k < |ids| && NotFull(plan.outcome, ids, k, b.limit)
      ensures plan.outcome[ids[k]]
        == Visited(plan.swept[ids[k]], b.worker, b.s.nextToken + k + 1, AddTime(b.now, b.leaseFor))
    {
      LiveClaimsCount(b, ids, k);
      OutcomeAt(b, ids, k);
    }
  }

  lemma ProgressStep(plan: Plan, worker: nat, first: nat, until: Time,
                     ids: seq<nat>, i: nat, limit: nat, records: map<nat, Record>, claims: seq<Claim>)
    requires PlanFollowsLoop(plan, worker, first, until, limit, ids)
    requires Progress(plan, ids, i, limit, records, claims)
    requires i < |ids| && |claims| < limit
    ensures ids[i] in records
    ensures
      var id, r := ids[i], Visited(records[ids[i]], worker, first + i + 1, until);
      Progress(plan, ids, i + 1, limit, records[id := r],
               claims + Leased(id, records[id], worker, first + i + 1, until))
  {
    ExtendPrefix(ids, i);
    assert NotFull(plan.outcome, ids, i, limit);
    assert ids[i] !in ids[..i];
  }

  lemma ExtendPrefix(ids: seq<nat>, i: nat)
    requires i < |ids|
    ensures ids[..i + 1] == ids[..i] + [ids[i]]
  {
  }

  /** The record the model assigns to the `i`-th due id, in terms of the claims made before it. */
  lemma OutcomeAt(b: Batch, ids: seq<nat>, i: nat)
    requires InOrder(b, ids) && i < |ids|
    requires |LivePrefix(b.s.records, ids, i)| < b.limit
    ensures ids[i] in b.s.records && Reached(b.s.records, b.now, b.limit, ids[i])
    ensures Outcomes(b)[ids[i]] ==
            Visited(b.s.records[ids[i]].Swept(b.now), b.worker, b.s.nextToken + i + 1, AddTime(b.now, b.leaseFor))
  {
    AheadIsPrefix(b.s.records, b.now, ids, i);
    LivePrefixIsLive(b.s.records, ids, i);
    assert ids[i] in Elements(ids);
    assert ids[i] in DueIds(b.s.records, b.now);
  }

  lemma {:induction false} LiveClaimsCount(b: Batch, ids: seq<nat>, i: nat)
    requires InOrder(b, ids) && i <= |ids|
    requires forall k :: 0 <= k < i ==> |LiveClaims(Outcomes(b), ids, k)| < b.limit
    ensures |LiveClaims(Outcomes(b), ids, i)| == |LivePrefix(b.s.records, ids, i)|
  {
    if i > 0 {
      LiveClaimsCount(b, ids, i - 1);
      OutcomeAt(b, ids, i - 1);
      LivePrefixGrows(b.s.records, ids, i - 1);
    } else {
      assert LivePrefix(b.s.records, ids, 0) == {};
    }
  }

  /** The `i`-th due record, if it has attempts left, is the next entry of the batch. */
  lemma NextEntry(b: Batch, ids: seq<nat>, i: nat, n: nat)
    requires InOrder(b, ids) && i < |ids| && n == |LivePrefix(b.s.records, ids, i)| < b.limit
    ensures ids[i] in b.s.records && ids[i] in Outcomes(b)
    ensures Outcomes(b)[ids[i]].status.Claimed? <==> !b.s.records[ids[i]].Spent()
    ensures !b.s.records[ids[i]].Spent() ==>
      IsBatchEntry(b.s, b.worker, b.now, b.leaseFor, b.limit, n, ClaimOf(ids[i], Outcomes(b)[ids[i]]))
  {
    OutcomeAt(b, ids, i);
    AheadIsPrefix(b.s.records, b.now, ids, i);
    LivePrefixIsLive(b.s.records, ids, i);
  }

  /** The claims so far are batch entries numbered by how many live records are ahead of them. */
  lemma {:induction false} LiveClaimsAreEntries(b: Batch, ids: seq<nat>, i: nat)
    requires InOrder(b, ids) && i <= |ids|
    requires forall k :: 0 <= k < i ==> |LiveClaims(Outcomes(b), ids, k)| < b.limit
    ensures
      var claims := LiveClaims(Outcomes(b), ids, i);
      forall k :: 0 <= k < |claims| ==> IsBatchEntry(b.s, b.worker, b.now, b.leaseFor, b.limit, k, claims[k])
  {
    if i > 0 {
      LiveClaimsAreEntries(b, ids, i - 1);
      LiveClaimsCount(b, ids, i - 1);
      NextEntry(b, ids, i - 1, |LiveClaims(Outcomes(b), ids, i - 1)|);
    }
  }

  lemma VisitedWereReached(b: Batch, ids: seq<nat>, i: nat)
    requires InOrder(b, ids) && i <= |ids|
    requires forall k :: 0 <= k < i ==> |LiveClaims(Outcomes(b), ids, k)| < b.limit
    ensures forall k :: 0 <= k < i ==> ids[k] in b.s.records && Reached(b.s.records, b.now, b.limit, ids[k])
  {
    forall k | 0 <= k < i ensures ids[k] in b.s.records && Reached(b.s.records, b.now, b.limit, ids[k]) {
      LiveClaimsCount(b, ids, k);
      OutcomeAt(b, ids, k);
    }
  }

  /** A record the loop did not visit is only swept, which is its outcome. */
  lemma UnvisitedOutcome(b: Batch, ids: seq<nat>, i: nat, id: nat)
    requires InOrder(b, ids) && i <= |ids| && id in b.s.records && id !in ids[..i]
    requires forall k :: i <= k < |ids| ==> !Reached(b.s.records, b.now, b.limit, ids[k])
    ensures Outcomes(b)[id] == b.s.records[id].Swept(b.now)
  {
    if k :| i <= k < |ids| && ids[k] == id {
      assert !Reached(b.s.records, b.now, b.limit, id);
    } else {
      assert id !in Elements(ids) by {
        assert forall k :: 0 <= k < i ==> ids[..i][k] == ids[k];
      }
      assert id !in DueIds(b.s.records, b.now);
    }
  }

  lemma ProgressDone(b: Batch, plan: Plan, ids: seq<nat>, i: nat, records: map<nat, Record>, claims: seq<Claim>)
    requires IsPlan(b, plan, ids) && WellFormed(plan, ids) && Progress(plan, ids, i, b.limit, records, claims)
    requires i == |ids| || |claims| == b.limit
    ensures records == Outcomes(b)
    ensures |ReachedIds(b.s.records, b.now, b.limit)| == i
    ensures IsBatch(b.s, b.worker, b.now, b.leaseFor, b.limit, claims)
  {
    LiveClaimsCount(b, ids, i);
    VisitedWereReached(b, ids, i);
    LoopStopsAtLimit(b.s.records, b.now, b.limit, ids, i, |claims|);
    LiveClaimsAreEntries(b, ids, i);
    MergedIsOutcome(b, plan, ids, i);
  }

  /** Where the loop stopped, what it did not visit has its outcome already. */
  lemma MergedIsOutcome(b: Batch, plan: Plan, ids: seq<nat>, i: nat)
    requires IsPlan(b, plan, ids) && WellFormed(plan, ids) && i <= |ids|
    requires forall k :: i <= k < |ids| ==> !Reached(b.s.records, b.now, b.limit, ids[k])
    ensures Merged(plan, ids, i) == Outcomes(b)
  {
    forall id | id in b.s.records && id !in ids[..i] ensures plan.swept[id] == Outcomes(b)[id] {
      UnvisitedOutcome(b, ids, i, id);
    }
  }
}
