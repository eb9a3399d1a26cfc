/**
 The durable outbox as values: records, leases, and one function per store operation.

 Every lease-aware operation passes the same fence (worker, token, current expiry), so they are one
 function `Apply` over a datatype of operations. `ClaimDue` is written without any iteration order:
 what happens to a record depends only on how many due records come before it.
 */
module OutboxModel {
  import opened Basics

  /** Instants and durations in nanoseconds. */
  type Time = int

  /** The last instant the platform clock can represent (64-bit seconds and nanoseconds). */
  const MAX_TIME: Time := 0x7fff_ffff_ffff_ffff * 1_000_000_000 + 999_999_999

  /** `now.checked_add(d).unwrap_or(now)`. */
  function AddTime(now: Time, d: nat): Time {
    if now + d <= MAX_TIME then now + d else now
  }

  datatype FailureKind = RetryAfter | Transient | Permanent | SchedulerUnavailable | Exhausted

  datatype Lease = Lease(worker: nat, token: nat, until: Time)

  datatype Status = Pending | Claimed(lease: Lease) | Completed | Failed(kind: FailureKind)

  datatype Metadata = Metadata(chat: Option<int>, kind: nat, priority: nat, weight: pos)

  datatype Request = Request(
    key: string,
    payload: seq<bv8>,
    payloadVersion: nat,
    metadata: Metadata,
    availableAt: Time,
    maxAttempts: pos)

  datatype Record = Record(
    request: Request,
    attempt: nat,
    claimCount: nat,
    status: Status,
    lastFailure: Option<FailureKind>)
  {
    /** All attempts are used up. */
    predicate Spent() {
      attempt >= request.maxAttempts
    }

    predicate Terminal() {
      status.Completed? || status.Failed?
    }

    /** The record holds a lease with this fencing token. */
    predicate HeldBy(token: nat) {
      status.Claimed? && status.lease.token == token
    }

    /** The record after the sweep that returns expired leases to `Pending`. */
    function Swept(now: Time): Record {
      if status.Claimed? && status.lease.until <= now then this.(status := Pending) else this
    }

    predicate Due(now: Time) {
      Swept(now).status.Pending? && request.availableAt <= now
    }
  }

  datatype Store = Store(
    nextId: nat,
    nextToken: nat,
    records: map<nat, Record>,
    byKey: map<string, nat>,
    failNextComplete: bool)

  const EMPTY := Store(0, 0, map[], map[], false)

  datatype StoreError = Conflict(id: nat) | NotFound(id: nat) | LeaseMismatch(id: nat) | InjectedFailure

  // --- enqueue ---

  datatype EnqueueResult = Inserted(id: nat) | Existing(id: nat)

  /** The idempotency comparison: the key decides identity, `availableAt` is not compared. */
  predicate SameRequest(left: Request, right: Request) {
    && left.payload == right.payload
    && left.payloadVersion == right.payloadVersion
    && left.metadata == right.metadata
    && left.maxAttempts == right.maxAttempts
  }

  function Enqueue(s: Store, request: Request): (Store, Result<EnqueueResult, StoreError>)
    requires request.key in s.byKey ==> s.byKey[request.key] in s.records
  {
    if request.key in s.byKey then
      var id := s.byKey[request.key];
      if SameRequest(s.records[id].request, request) then (s, Ok(Existing(id))) else (s, Err(Conflict(id)))
    else
      var id := s.nextId;
      (s.(nextId := id + 1,
          byKey := s.byKey[request.key := id],
          records := s.records[id := Record(request, 0, 0, Pending, None)]),
       Ok(Inserted(id)))
  }

  // --- claim_due ---

  /** The claim order: by `availableAt`, ties by id. */
  predicate Before(records: map<nat, Record>, a: nat, b: nat)
    requires a in records && b in records
  {
    var x, y := records[a].request.availableAt, records[b].request.availableAt;
    x < y || (x == y && a < b)
  }

  function DueIds(records: map<nat, Record>, now: Time): set<nat> {
    set j | j in records && records[j].Due(now)
  }

  /** The due records that come before `id`. */
  function Ahead(records: map<nat, Record>, now: Time, id: nat): set<nat>
    requires id in records
  {
    set j | j in records && records[j].Due(now) && Before(records, j, id)
  }

  /** Those of them that still have an attempt left, so that each takes one place of the batch. */
  function LiveAhead(records: map<nat, Record>, now: Time, id: nat): set<nat>
    requires id in records
  {
    set j | j in records && records[j].Due(now) && Before(records, j, id) && !records[j].Spent()
  }

  /** The batch is not full yet when `id` has its turn. */
  predicate Reached(records: map<nat, Record>, now: Time, limit: nat, id: nat)
    requires id in records
  {
    records[id].Due(now) && |LiveAhead(records, now, id)| < limit
  }

  function ReachedIds(records: map<nat, Record>, now: Time, limit: nat): set<nat> {
    set j | j in records && Reached(records, now, limit, j)
  }

  /** The records handed to the worker. */
  function TakenIds(records: map<nat, Record>, now: Time, limit: nat): set<nat> {
    set j | j in records && Reached(records, now, limit, j) && !records[j].Spent()
  }

  function ClaimToken(s: Store, now: Time, id: nat): nat
    requires id in s.records
  {
    s.nextToken + 1 + |Ahead(s.records, now, id)|
  }

  /** What one `claim_due` does to one record. */
  function AfterClaim(s: Store, worker: nat, now: Time, leaseFor: nat, limit: nat, id: nat): Record
    requires id in s.records
  {
    var r := s.records[id];
    if !Reached(s.records, now, limit, id) then
      r.Swept(now)
    else if r.Spent() then
      r.(status := Failed(Exhausted))
    else
      r.(claimCount := r.claimCount + 1,
         status := Claimed(Lease(worker, ClaimToken(s, now, id), AddTime(now, leaseFor))))
  }

  function ClaimDue(s: Store, worker: nat, now: Time, leaseFor: nat, limit: nat): Store {
    s.(nextToken := s.nextToken + |ReachedIds(s.records, now, limit)|,
       records := map id | id in s.records :: AfterClaim(s, worker, now, leaseFor, limit, id))
  }

  datatype Claim = Claim(id: nat, request: Request, attempt: nat, claimCount: nat, lease: Lease)

  function ClaimOf(id: nat, r: Record): Claim
    requires r.status.Claimed?
  {
    Claim(id, r.request, r.attempt, r.claimCount, r.status.lease)
  }

  /** `claims` is the batch of a `claim_due`: the taken records, each once, in claim order. */
  ghost predicate IsBatch(s: Store, worker: nat, now: Time, leaseFor: nat, limit: nat, claims: seq<Claim>) {
    && |claims| == |TakenIds(s.records, now, limit)|
    && forall k :: 0 <= k < |claims| ==> IsBatchEntry(s, worker, now, leaseFor, limit, k, claims[k])
  }

  ghost predicate IsBatchEntry(s: Store, worker: nat, now: Time, leaseFor: nat, limit: nat, k: nat, c: Claim) {
    && c.id in s.records
    && Reached(s.records, now, limit, c.id)
    && !s.records[c.id].Spent()
    && |LiveAhead(s.records, now, c.id)| == k
    && c == ClaimOf(c.id, AfterClaim(s, worker, now, leaseFor, limit, c.id))
  }

  // --- the lease-aware operations ---

  datatype Op =
    | Renew(until: Time)
    | BeginAttempt
    | Complete
    | Reschedule(availableAt: Time, reason: FailureKind)
    | Fail(failure: FailureKind)

  datatype Reply =
    | Renewed(lease: Lease)
    | Started(attempt: nat)
    | OutOfAttempts
    | Done
    | Refused(error: StoreError)

  predicate LeaseIsCurrent(status: Status, lease: Lease, clock: Time) {
    && status.Claimed?
    && status.lease.worker == lease.worker
    && status.lease.token == lease.token
    && status.lease.until > clock
  }

  /** The effect of an operation on a record whose lease is current. */
  function Mutate(r: Record, lease: Lease, op: Op): (Record, Reply) {
    match op
    case Renew(until) =>
      var renewed := lease.(until := until);
      (r.(status := Claimed(renewed)), Renewed(renewed))
    case BeginAttempt =>
      if r.Spent() then (r, OutOfAttempts) else (r.(attempt := r.attempt + 1), Started(r.attempt + 1))
    case Complete =>
      (r.(status := Completed), Done)
    case Reschedule(availableAt, reason) =>
      (r.(request := r.request.(availableAt := availableAt), lastFailure := Some(reason), status := Pending), Done)
    case Fail(failure) =>
      (r.(lastFailure := Some(failure), status := Failed(failure)), Done)
  }

  /** One lease-aware store call, `clock` being the store's own reading of the time. */
  function Apply(s: Store, id: nat, lease: Lease, op: Op, clock: Time): (Store, Reply) {
    if op.Complete? && s.failNextComplete then
      (s.(failNextComplete := false), Refused(InjectedFailure))
    else if id !in s.records then
      (s, Refused(NotFound(id)))
    else if !LeaseIsCurrent(s.records[id].status, lease, clock) then
      (s, Refused(LeaseMismatch(id)))
    else
      var (r, reply) := Mutate(s.records[id], lease, op);
      (s.(records := s.records[id := r]), reply)
  }
}
