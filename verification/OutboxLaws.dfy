/**
 What the store promises its callers, told by the fields of its records alone: what an insertion leaves
 behind and when it is claimed, what a claim writes, and what each lease-aware call does to the record
 and, through whatever calls follow, to its future.
 */
module OutboxLaws {
  import opened Basics
  import opened OutboxModel
  import opened OutboxRuns

  // --- enqueue ---

  /** A request under a key no record has becomes a fresh pending record; nothing else moves. */
  lemma NewRequestIsPending(s: Store, request: Request)
    requires IndexOk(s) && forall j :: j in s.records ==> s.records[j].request.key != request.key
    ensures Enqueue(s, request).1.Ok? && Enqueue(s, request).1.value.Inserted?
    ensures
      var (s', outcome) := Enqueue(s, request);
      var id := outcome.value.id;
      && id !in s.records
      && s'.records.Keys == s.records.Keys + {id}
      && s'.records[id].request == request
      && s'.records[id].status.Pending?
      && s'.records[id].attempt == 0
      && s'.records[id].claimCount == 0
      && s'.records[id].lastFailure.None?
      && s'.byKey.Keys == s.byKey.Keys + {request.key} && s'.byKey[request.key] == id
    ensures
      var s' := Enqueue(s, request).0;
      && (forall j :: j in s.records ==> s'.records[j] == s.records[j])
      && (forall key :: key in s.byKey ==> s'.byKey[key] == s.byKey[key])
      && s'.nextToken == s.nextToken && s'.failNextComplete == s.failNextComplete
  {
  }

  lemma PlayFirst(s: Store, c: Call, calls: seq<Call>)
    requires IndexOk(s)
    ensures IndexOk(Do(s, c)) && Play(s, [c] + calls) == Play(Do(s, c), calls)
  {
    DoKeepsIndex(s, c);
    assert ([c] + calls)[1..] == calls;
  }

  /** From enqueue to claim: once its time has come, only a full batch of earlier records passes it over. */
  lemma NewRequestIsClaimed(s: Store, request: Request, calls: seq<Call>, worker: nat, now: Time, leaseFor: nat,
                            limit: nat, claims: seq<Claim>)
    requires IndexOk(s) && forall j :: j in s.records ==> s.records[j].request.key != request.key
    requires forall k :: 0 <= k < |calls| && calls[k].ClaimCall? ==> calls[k].now < request.availableAt
    requires request.availableAt <= now
    requires IsBatch(Play(s, [EnqueueCall(request)] + calls), worker, now, leaseFor, limit, claims)
    ensures Enqueue(s, request).1.Ok?
    ensures
      var id, later := Enqueue(s, request).1.value.id, Play(s, [EnqueueCall(request)] + calls);
      || (exists k :: 0 <= k < |claims| && claims[k].id == id)
      || (|claims| == limit && forall k :: 0 <= k < |claims| ==>
            && claims[k].id in later.records
            && var at := later.records[claims[k].id].request.availableAt;
               at < request.availableAt || (at == request.availableAt && claims[k].id < id))
  {
    NewRequestIsPending(s, request);
    PlayFirst(s, EnqueueCall(request), calls);
    var (s', outcome) := Enqueue(s, request);
    PendingWaits(s', calls, outcome.value.id);
    BatchIsFirstInOrder(Play(s', calls), worker, now, leaseFor, limit, claims);
  }

  // --- claim_due ---

  /** What a claim writes into a record it takes, and what it tells the worker about it. */
  lemma TakenRecord(s: Store, worker: nat, now: Time, leaseFor: nat, limit: nat, claims: seq<Claim>, k: nat)
    requires IsBatch(s, worker, now, leaseFor, limit, claims) && k < |claims|
    ensures claims[k].id in s.records && claims[k].id in ClaimDue(s, worker, now, leaseFor, limit).records
    ensures
      var c := claims[k];
      var r, r' := s.records[c.id], ClaimDue(s, worker, now, leaseFor, limit).records[c.id];
      && c.request == r.request && c.attempt == r.attempt && c.claimCount == r.claimCount + 1
      && c.lease.worker == worker
      && c.lease.until == (if now + leaseFor <= MAX_TIME then now + leaseFor else now)
      && r'.status == Claimed(c.lease) && r'.claimCount == c.claimCount
      && r'.attempt == r.attempt && r'.request == r.request && r'.lastFailure == r.lastFailure
  {
    assert IsBatchEntry(s, worker, now, leaseFor, limit, k, claims[k]);
  }

  /** What it does to the others: an expired lease is returned, and only a spent record whose time has come may fail. */
  lemma UntakenRecord(s: Store, worker: nat, now: Time, leaseFor: nat, limit: nat, claims: seq<Claim>, id: nat)
    requires IsBatch(s, worker, now, leaseFor, limit, claims) && id in s.records
    requires forall k :: 0 <= k < |claims| ==> claims[k].id != id
    ensures
      var s' := ClaimDue(s, worker, now, leaseFor, limit);
      s'.records.Keys == s.records.Keys && s'.byKey == s.byKey && s'.failNextComplete == s.failNextComplete
    ensures
      var r, r' := s.records[id], ClaimDue(s, worker, now, leaseFor, limit).records[id];
      && r'.request == r.request && r'.attempt == r.attempt
      && r'.claimCount == r.claimCount && r'.lastFailure == r.lastFailure
      && (r'.status == (if r.status.Claimed? && r.status.lease.until <= now then Pending else r.status)
          || (&& r.request.availableAt <= now && r.attempt >= r.request.maxAttempts
              && !r.status.Completed? && !r.status.Failed?
              && r'.status == Failed(Exhausted)))
  {
    BatchIds(s, worker, now, leaseFor, limit, claims);
    assert id !in TakenIds(s.records, now, limit);
  }

  // --- waiting ---

  lemma PendingStep(s: Store, c: Call, id: nat)
    requires IndexOk(s) && id in s.records && s.records[id].status.Pending?
    requires c.ClaimCall? ==> c.now < s.records[id].request.availableAt
    ensures id in Do(s, c).records && Do(s, c).records[id] == s.records[id]
  {
  }

  /** Before its time a pending record is left alone by every call, whatever lease it comes with. */
  lemma {:induction false} PendingWaits(s: Store, calls: seq<Call>, id: nat)
    requires IndexOk(s) && id in s.records && s.records[id].status.Pending?
    requires forall k :: 0 <= k < |calls| && calls[k].ClaimCall? ==> calls[k].now < s.records[id].request.availableAt
    ensures id in Play(s, calls).records && Play(s, calls).records[id] == s.records[id]
    decreases |calls|
  {
    if calls != [] {
      DoKeepsIndex(s, calls[0]);
      PendingStep(s, calls[0], id);
      PendingWaits(Do(s, calls[0]), calls[1..], id);
    }
  }

  // --- lease-aware calls ---

  /**
   The fence: the record is claimed by this worker under this token, and not expired by the store's clock.
   An armed failure takes the place of one completion.
   */
  lemma RefusedIffNotHeld(s: Store, id: nat, lease: Lease, op: Op, clock: Time)
    ensures
      var (s', reply) := Apply(s, id, lease, op, clock);
      && (reply.Refused? <==>
           || (op.Complete? && s.failNextComplete)
           || id !in s.records
           || !s.records[id].status.Claimed?
           || s.records[id].status.lease.worker != lease.worker
           || s.records[id].status.lease.token != lease.token
           || s.records[id].status.lease.until <= clock)
      && (reply.Refused? ==> s'.records == s.records)
      && (reply == Refused(InjectedFailure) <==> op.Complete? && s.failNextComplete)
      && (s'.failNextComplete <==> s.failNextComplete && !op.Complete?)
      && s'.records.Keys == s.records.Keys
      && (forall j :: j in s.records && j != id ==> s'.records[j] == s.records[j])
  {
  }

  /** A renewal moves the expiry, and only that. */
  lemma RenewalExtends(s: Store, id: nat, lease: Lease, until: Time, clock: Time)
    requires !Apply(s, id, lease, Renew(until), clock).1.Refused?
    ensures id in s.records && s.records[id].status.Claimed?
    ensures
      var (s', reply) := Apply(s, id, lease, Renew(until), clock);
      && id in s'.records && reply == Renewed(Lease(lease.worker, lease.token, until))
      && s'.records[id] == s.records[id].(status := Claimed(Lease(lease.worker, lease.token, until)))
  {
  }

  /** A begun attempt is counted, unless all of them are used up. */
  lemma BeginCounts(s: Store, id: nat, lease: Lease, clock: Time)
    requires !Apply(s, id, lease, BeginAttempt, clock).1.Refused?
    ensures id in s.records && id in Apply(s, id, lease, BeginAttempt, clock).0.records
    ensures
      var (s', reply) := Apply(s, id, lease, BeginAttempt, clock);
      var r, r' := s.records[id], s'.records[id];
      && r'.request == r.request && r'.status == r.status
      && r'.claimCount == r.claimCount && r'.lastFailure == r.lastFailure
      && (if r.attempt < r.request.maxAttempts then reply == Started(r.attempt + 1) && r'.attempt == r.attempt + 1
          else reply == OutOfAttempts && r'.attempt == r.attempt)
  {
  }

  /** Completed or failed means so for good: with the failure that was given, whatever is called afterwards. */
  lemma EndIsFinal(s: Store, id: nat, lease: Lease, op: Op, clock: Time, calls: seq<Call>)
    requires IndexOk(s) && (op.Complete? || op.Fail?) && Apply(s, id, lease, op, clock).1 == Done
    ensures id in s.records
    ensures
      var later := Play(s, [LeaseCall(id, lease, op, clock)] + calls);
      && id in later.records
      && var r, r' := s.records[id], later.records[id];
         && r'.request == r.request && r'.attempt == r.attempt && r'.claimCount == r.claimCount
         && (op.Complete? ==> r'.status.Completed? && r'.lastFailure == r.lastFailure)
         && (op.Fail? ==> r'.status == Failed(op.failure) && r'.lastFailure == Some(op.failure))
  {
    PlayFirst(s, LeaseCall(id, lease, op, clock), calls);
    TerminalForever(Apply(s, id, lease, op, clock).0, calls, id);
  }

  /** A rescheduled record is pending with its failure noted, and stays so until a claim at its new time. */
  lemma RescheduledWaits(s: Store, id: nat, lease: Lease, availableAt: Time, reason: FailureKind, clock: Time,
                         calls: seq<Call>)
    requires IndexOk(s) && Apply(s, id, lease, Reschedule(availableAt, reason), clock).1 == Done
    requires forall k :: 0 <= k < |calls| && calls[k].ClaimCall? ==> calls[k].now < availableAt
    ensures id in s.records
    ensures
      var later := Play(s, [LeaseCall(id, lease, Reschedule(availableAt, reason), clock)] + calls);
      && id in later.records
      && var r, r' := s.records[id], later.records[id];
         && r'.status.Pending? && r'.lastFailure == Some(reason)
         && r'.request == r.request.(availableAt := availableAt)
         && r'.attempt == r.attempt && r'.claimCount == r.claimCount
  {
    var op := Reschedule(availableAt, reason);
    PlayFirst(s, LeaseCall(id, lease, op, clock), calls);
    PendingWaits(Apply(s, id, lease, op, clock).0, calls, id);
  }

  /** At that time it comes back: a claim takes it, if it has attempts left, or is full of earlier records. */
  lemma RescheduledReturns(s: Store, id: nat, lease: Lease, availableAt: Time, reason: FailureKind, clock: Time,
                           calls: seq<Call>, worker: nat, now: Time, leaseFor: nat, limit: nat, claims: seq<Claim>)
    requires IndexOk(s) && Apply(s, id, lease, Reschedule(availableAt, reason), clock).1 == Done
    requires forall k :: 0 <= k < |calls| && calls[k].ClaimCall? ==> calls[k].now < availableAt
    requires availableAt <= now && id in s.records && s.records[id].attempt < s.records[id].request.maxAttempts
    requires
      var later := Play(s, [LeaseCall(id, lease, Reschedule(availableAt, reason), clock)] + calls);
      IsBatch(later, worker, now, leaseFor, limit, claims)
    ensures
      var later := Play(s, [LeaseCall(id, lease, Reschedule(availableAt, reason), clock)] + calls);
      || (exists k :: 0 <= k < |claims| && claims[k].id == id)
      || (|claims| == limit && forall k :: 0 <= k < |claims| ==>
            && claims[k].id in later.records
            && var at := later.records[claims[k].id].request.availableAt;
               at < availableAt || (at == availableAt && claims[k].id < id))
  {
    RescheduledWaits(s, id, lease, availableAt, reason, clock, calls);
    var later := Play(s, [LeaseCall(id, lease, Reschedule(availableAt, reason), clock)] + calls);
    BatchIsFirstInOrder(later, worker, now, leaseFor, limit, claims);
  }
}
