/**
 Any number of workers over one store. Each claimed record is driven by one execution, a state machine
 with one step per store call, queue answer or executor event; a heartbeat renews its lease between any
 two steps, and it may stop for good at any point. Every store call reads an arbitrary clock.
 */
module OutboxWorkers {
  import opened Basics
  import opened OutboxModel
  import opened OutboxRuns
  import Backoff

  datatype Settings = Settings(
    worker: nat,
    maxInFlight: pos,
    leaseFor: nat,
    retryDelay: nat,
    backoffBase: nat,
    backoffMax: nat)

  /** What the executor returned. */
  datatype Outcome = Succeeded | AskedToWait(duration: nat) | FailedTransiently | FailedPermanently

  datatype Phase =
    | Acquiring                                     // waiting for the queue permit
    | Beginning(snapshot: Lease)                    // `begin_attempt` created, not applied
    | Starting(attempt: nat)                        // attempt counted, executor not called yet
    | Executing(attempt: nat)
    | Reporting(attempt: nat, outcome: Outcome)     // permit completion in progress
    | ReportingExhausted
    | Finishing(snapshot: Lease, op: Op)            // last store operation created, not applied
    | Ended

  /** `lease` is the heartbeat's; `begun`, `invoked` and `succeeded` record what has happened. */
  datatype Exec = Exec(
    id: nat,
    attemptBefore: nat,
    maxAttempts: nat,
    lease: Lease,
    settings: Settings,
    renewing: Option<Time>,
    phase: Phase,
    begun: bool,
    invoked: bool,
    succeeded: bool)

  datatype System = System(store: Store, execs: seq<Exec>, calls: multiset<nat>)

  const START := System(EMPTY, [], multiset{})

  function NewExec(c: Claim, settings: Settings): Exec {
    Exec(c.id, c.attempt, c.request.maxAttempts, c.lease, settings, None, Acquiring, false, false, false)
  }

  function NewExecs(claims: seq<Claim>, settings: Settings, n: nat): seq<Exec>
    requires n <= |claims|
  {
    seq(n, k requires 0 <= k < n => NewExec(claims[k], settings))
  }

  // --- steps ---

  datatype Step =
    | Acquired
    | Unavailable(clock: Time)       // queue full, closed, or the request superseded
    | Rejected                       // the request can never be admitted
    | Begin(clock: Time)
    | Invoke
    | Return(outcome: Outcome)
    | Report(clock: Time)
    | Finish(clock: Time)
    | FireRenewal(until: Time)       // the heartbeat timer fires and computes the new expiry
    | ApplyRenewal(clock: Time)
    | Crash

  datatype Event =
    | Enqueued(request: Request)
    | Armed
    | BatchClaimed(settings: Settings, now: Time, claims: seq<Claim>)
    | Stepped(i: nat, step: Step)

  /** `retry_or_fail`: the operation that ends an unsuccessful execution. */
  function RetryOrFail(attempt: nat, maxAttempts: nat, reason: FailureKind, delay: nat, clock: Time): Op {
    if attempt >= maxAttempts then Fail(Exhausted) else Reschedule(AddTime(clock, delay), reason)
  }

  function OpFor(e: Exec, attempt: nat, outcome: Outcome, clock: Time): Op {
    match outcome
    case Succeeded => Complete
    case AskedToWait(duration) => RetryOrFail(attempt, e.maxAttempts, FailureKind.RetryAfter, duration, clock)
    case FailedTransiently =>
      RetryOrFail(attempt, e.maxAttempts, Transient,
        Backoff.Delay(e.settings.backoffBase, e.settings.backoffMax, attempt), clock)
    case FailedPermanently => Fail(Permanent)
  }

  /** While a renewal is awaited the driven future is not polled. */
  predicate CanStep(e: Exec, step: Step) {
    match step
    case Crash => !e.phase.Ended?
    case ApplyRenewal(_) => !e.phase.Ended? && e.renewing.Some?
    case _ =>
      && e.renewing.None?
      && match step
         case Acquired | Unavailable(_) | Rejected => e.phase.Acquiring?
         case Begin(_) => e.phase.Beginning?
         case Invoke => e.phase.Starting?
         case Return(_) => e.phase.Executing?
         case Report(_) => e.phase.Reporting? || e.phase.ReportingExhausted?
         case Finish(_) => e.phase.Finishing?
         case _ => !e.phase.Ended?
  }

  function StoreStep(s: Store, e: Exec, step: Step): (Store, Reply)
    requires CanStep(e, step)
  {
    match step
    case Begin(clock) => Apply(s, e.id, e.phase.snapshot, BeginAttempt, clock)
    case Finish(clock) => Apply(s, e.id, e.phase.snapshot, e.phase.op, clock)
    case ApplyRenewal(clock) => Apply(s, e.id, e.lease, Renew(e.renewing.value), clock)
    case _ => (s, Done)
  }

  function ExecStep(e: Exec, step: Step, reply: Reply): Exec
    requires CanStep(e, step)
  {
    match step
    case Acquired => e.(phase := Beginning(e.lease))
    case Unavailable(clock) =>
      e.(phase := Finishing(e.lease,
        RetryOrFail(e.attemptBefore, e.maxAttempts, SchedulerUnavailable, e.settings.retryDelay, clock)))
    case Rejected => e.(phase := Finishing(e.lease, Fail(Permanent)))
    case Begin(_) =>
      (match reply
       case Started(attempt) => e.(phase := Starting(attempt), begun := true)
       case OutOfAttempts => e.(phase := ReportingExhausted)
       case _ => e.(phase := Ended))
    case Invoke => e.(phase := Executing(e.phase.attempt), invoked := true)
    case Return(outcome) => e.(phase := Reporting(e.phase.attempt, outcome), succeeded := outcome.Succeeded?)
    case Report(clock) =>
      var op := if e.phase.ReportingExhausted? then Fail(Exhausted)
        else OpFor(e, e.phase.attempt, e.phase.outcome, clock);
      e.(phase := Finishing(e.lease, op))
    case Finish(_) => e.(phase := Ended)
    case FireRenewal(until) => e.(renewing := Some(until))
    case ApplyRenewal(_) => if reply.Renewed? then e.(lease := reply.lease, renewing := None) else e.(phase := Ended)
    case Crash => e.(phase := Ended)
  }

  ghost predicate Enabled(y: System, ev: Event) {
    match ev
    case BatchClaimed(settings, now, claims) =>
      settings.leaseFor > 0 && IsBatch(y.store, settings.worker, now, settings.leaseFor, settings.maxInFlight, claims)
    case Stepped(i, step) => i < |y.execs| && CanStep(y.execs[i], step)
    case _ => true
  }

  ghost function Next(y: System, ev: Event): System
    requires IndexOk(y.store) && Enabled(y, ev)
  {
    match ev
    case Enqueued(request) => y.(store := Enqueue(y.store, request).0)
    case Armed => y.(store := y.store.(failNextComplete := true))
    case BatchClaimed(settings, now, claims) =>
      y.(store := ClaimDue(y.store, settings.worker, now, settings.leaseFor, settings.maxInFlight),
         execs := y.execs + NewExecs(claims, settings, |claims|))
    case Stepped(i, step) =>
      var e := y.execs[i];
      var (s, reply) := StoreStep(y.store, e, step);
      System(s, y.execs[i := ExecStep(e, step, reply)], if step.Invoke? then y.calls + multiset{e.id} else y.calls)
  }

  lemma NextKeepsIndex(y: System, ev: Event)
    requires IndexOk(y.store) && Enabled(y, ev)
    ensures IndexOk(Next(y, ev).store)
  {
    match ev
    case Enqueued(request) => DoKeepsIndex(y.store, EnqueueCall(request));
    case Armed => DoKeepsIndex(y.store, ArmFailureCall);
    case BatchClaimed(settings, now, _) =>
      DoKeepsIndex(y.store, ClaimCall(settings.worker, now, settings.leaseFor, settings.maxInFlight));
    case Stepped(i, step) =>
      var e := y.execs[i];
      match step {
        case Begin(clock) => ApplyKeepsIndex(y.store, e.id, e.phase.snapshot, BeginAttempt, clock);
        case Finish(clock) => ApplyKeepsIndex(y.store, e.id, e.phase.snapshot, e.phase.op, clock);
        case ApplyRenewal(clock) => ApplyKeepsIndex(y.store, e.id, e.lease, Renew(e.renewing.value), clock);
        case _ =>
      }
  }

  // --- the invariant ---

  predicate SameFence(a: Lease, b: Lease) {
    a.worker == b.worker && a.token == b.token
  }

  /** One execution against the store: its flags, its snapshots, and the attempt it relies on. */
  ghost predicate ExecOk(s: Store, e: Exec) {
    && e.id in s.records
    && e.lease.token <= s.nextToken
    && e.maxAttempts == s.records[e.id].request.maxAttempts
    && e.attemptBefore < e.maxAttempts
    && (e.invoked ==> e.begun)
    && (e.succeeded ==> e.invoked)
    && PhaseOk(e)
    && (s.records[e.id].HeldBy(e.lease.token) ==>
         s.records[e.id].attempt == e.attemptBefore + if e.begun then 1 else 0)
  }

  ghost predicate PhaseOk(e: Exec) {
    match e.phase
    case Acquiring => !e.begun
    case Beginning(snapshot) => !e.begun && SameFence(snapshot, e.lease)
    case Starting(attempt) => e.begun && !e.invoked && attempt == e.attemptBefore + 1
    case Executing(attempt) => e.invoked && !e.succeeded && attempt == e.attemptBefore + 1
    case Reporting(attempt, outcome) => e.invoked && (outcome.Succeeded? ==> e.succeeded)
      && attempt == e.attemptBefore + 1
    case ReportingExhausted => false
    case Finishing(snapshot, op) =>
      && SameFence(snapshot, e.lease)
      && !op.Renew? && !op.BeginAttempt?
      && (op.Complete? ==> e.succeeded)
      && (!e.begun ==> op == Fail(Permanent) || (op.Reschedule? && op.reason == SchedulerUnavailable))
    case Ended => true
  }

  ghost predicate ExecsOk(y: System) {
    forall i :: 0 <= i < |y.execs| ==> ExecOk(y.store, y.execs[i])
  }

  /** Fencing tokens identify executions. */
  ghost predicate TokensDistinct(execs: seq<Exec>) {
    forall i, j :: 0 <= i < j < |execs| ==> execs[i].lease.token != execs[j].lease.token
  }

  function ClaimsOf(execs: seq<Exec>, id: nat): set<nat> {
    set i | 0 <= i < |execs| && execs[i].id == id
  }

  function BegunOf(execs: seq<Exec>, id: nat): set<nat> {
    set i | 0 <= i < |execs| && execs[i].id == id && execs[i].begun
  }

  function InvokedOf(execs: seq<Exec>, id: nat): set<nat> {
    set i | 0 <= i < |execs| && execs[i].id == id && execs[i].invoked
  }

  /** The three counters of a record count executions: claimed, begun, and really called. */
  ghost predicate CountersOk(y: System) {
    && (forall id :: id in y.store.records ==>
      && y.store.records[id].claimCount == |ClaimsOf(y.execs, id)|
      && y.store.records[id].attempt == |BegunOf(y.execs, id)| <= y.store.records[id].request.maxAttempts)
    && (forall id :: y.calls[id] == |InvokedOf(y.execs, id)|)
  }

  /** A claimed record has its holder among the executions. */
  ghost predicate HoldersOk(y: System) {
    forall id :: id in y.store.records && y.store.records[id].status.Claimed? ==> exists i :: IsHolder(y, id, i)
  }

  ghost predicate IsHolder(y: System, id: nat, i: nat) {
    && i < |y.execs|
    && id in y.store.records
    && y.execs[i].id == id
    && y.store.records[id].HeldBy(y.execs[i].lease.token)
    && y.store.records[id].status.lease.worker == y.execs[i].lease.worker
  }

  ghost predicate Inv(y: System) {
    Valid(y.store) && ExecsOk(y) && TokensDistinct(y.execs) && CountersOk(y) && HoldersOk(y)
  }

  // --- preservation: executions ---

  lemma ClaimsAfterUpdate(execs: seq<Exec>, i: nat, e: Exec, id: nat)
    requires i < |execs| && e.id == execs[i].id
    ensures ClaimsOf(execs[i := e], id) == ClaimsOf(execs, id)
  {
  }

  lemma BegunAfterUpdate(execs: seq<Exec>, i: nat, e: Exec, id: nat)
    requires i < |execs| && e.id == execs[i].id && (execs[i].begun ==> e.begun)
    ensures |BegunOf(execs[i := e], id)|
      == |BegunOf(execs, id)| + if e.id == id && e.begun && !execs[i].begun then 1 else 0
  {
    if e.id == id && e.begun && !execs[i].begun {
      assert BegunOf(execs[i := e], id) == BegunOf(execs, id) + {i};
    } else {
      assert BegunOf(execs[i := e], id) == BegunOf(execs, id);
    }
  }

  lemma InvokedAfterUpdate(execs: seq<Exec>, i: nat, e: Exec, id: nat)
    requires i < |execs| && e.id == execs[i].id && (execs[i].invoked ==> e.invoked)
    ensures |InvokedOf(execs[i := e], id)|
      == |InvokedOf(execs, id)| + if e.id == id && e.invoked && !execs[i].invoked then 1 else 0
  {
    if e.id == id && e.invoked && !execs[i].invoked {
      assert InvokedOf(execs[i := e], id) == InvokedOf(execs, id) + {i};
    } else {
      assert InvokedOf(execs[i := e], id) == InvokedOf(execs, id);
    }
  }

  /** Nothing but the record `id` moves, and that only while it is held under `token`. */
  ghost predicate OnlyRecordChanged(s: Store, s': Store, id: nat, token: nat)
    requires id in s.records
  {
    && s'.records.Keys == s.records.Keys
    && (forall j :: j in s.records && j != id ==> s'.records[j] == s.records[j])
    && (s'.records[id] == s.records[id] || s.records[id].HeldBy(token))
    && s'.records[id].claimCount == s.records[id].claimCount
    && s'.records[id].request.maxAttempts == s.records[id].request.maxAttempts
    && (s'.records[id].status.Claimed? ==>
         s.records[id].status.Claimed? && SameFence(s'.records[id].status.lease, s.records[id].status.lease))
  }

  ghost predicate StoreStepOk(s: Store, s': Store, e: Exec, e': Exec, step: Step)
    requires e.id in s.records
  {
    && Valid(s') && s'.nextToken == s.nextToken
    && OnlyRecordChanged(s, s', e.id, e.lease.token)
    && s'.records[e.id].attempt == s.records[e.id].attempt + (if e'.begun && !e.begun then 1 else 0)
    && (e'.begun && !e.begun ==> !s.records[e.id].Spent())
  }

  ghost predicate ExecStepOk(e: Exec, e': Exec, step: Step) {
    && e'.id == e.id && SameFence(e'.lease, e.lease)
    && (e.begun ==> e'.begun) && (e.invoked ==> e'.invoked)
    && (e'.invoked && !e.invoked <==> step.Invoke?)
  }

  /** What an operation under a current lease does to its record, attempt counting aside. */
  lemma MutateKeepsFence(r: Record, lease: Lease, op: Op)
    requires r.status.Claimed? && SameFence(r.status.lease, lease)
    ensures
      var (r', reply) := Mutate(r, lease, op);
      && r'.claimCount == r.claimCount && r'.request.maxAttempts == r.request.maxAttempts
      && r'.request.key == r.request.key
      && (r'.status.Claimed? ==> SameFence(r'.status.lease, r.status.lease))
      && r'.attempt == r.attempt + (if reply.Started? then 1 else 0)
      && (reply.Started? ==> !r.Spent())
  {
  }

  lemma ApplyTouches(s: Store, id: nat, lease: Lease, op: Op, clock: Time)
    requires id in s.records
    ensures
      var (s', reply) := Apply(s, id, lease, op, clock);
      && s'.nextToken == s.nextToken
      && OnlyRecordChanged(s, s', id, lease.token)
      && s'.records[id].attempt == s.records[id].attempt + (if reply.Started? then 1 else 0)
      && (reply.Started? ==> !s.records[id].Spent())
  {
    if LeaseIsCurrent(s.records[id].status, lease, clock) {
      MutateKeepsFence(s.records[id], lease, op);
    }
  }

  lemma BeginOnStore(s: Store, e: Exec, clock: Time)
    requires Valid(s) && ExecOk(s, e) && CanStep(e, Begin(clock))
    ensures
      var (s', reply) := StoreStep(s, e, Begin(clock));
      StoreStepOk(s, s', e, ExecStep(e, Begin(clock), reply), Begin(clock))
  {
    DoKeepsTokens(s, LeaseCall(e.id, e.phase.snapshot, BeginAttempt, clock));
    ApplyTouches(s, e.id, e.phase.snapshot, BeginAttempt, clock);
  }

  lemma FinishOnStore(s: Store, e: Exec, clock: Time)
    requires Valid(s) && ExecOk(s, e) && CanStep(e, Finish(clock))
    ensures
      var (s', reply) := StoreStep(s, e, Finish(clock));
      StoreStepOk(s, s', e, ExecStep(e, Finish(clock), reply), Finish(clock))
  {
    DoKeepsTokens(s, LeaseCall(e.id, e.phase.snapshot, e.phase.op, clock));
    ApplyTouches(s, e.id, e.phase.snapshot, e.phase.op, clock);
  }

  lemma RenewalOnStore(s: Store, e: Exec, clock: Time)
    requires Valid(s) && ExecOk(s, e) && CanStep(e, ApplyRenewal(clock))
    ensures
      var (s', reply) := StoreStep(s, e, ApplyRenewal(clock));
      StoreStepOk(s, s', e, ExecStep(e, ApplyRenewal(clock), reply), ApplyRenewal(clock))
  {
    DoKeepsTokens(s, LeaseCall(e.id, e.lease, Renew(e.renewing.value), clock));
    ApplyTouches(s, e.id, e.lease, Renew(e.renewing.value), clock);
  }

  lemma StepOnStore(s: Store, e: Exec, step: Step)
    requires Valid(s) && ExecOk(s, e) && CanStep(e, step)
    ensures
      var (s', reply) := StoreStep(s, e, step);
      StoreStepOk(s, s', e, ExecStep(e, step, reply), step)
  {
    match step
    case Begin(clock) => BeginOnStore(s, e, clock);
    case Finish(clock) => FinishOnStore(s, e, clock);
    case ApplyRenewal(clock) => RenewalOnStore(s, e, clock);
    case _ =>
  }

  /** A step keeps the execution consistent with the store it leaves behind. */
  lemma StepOnExec(s: Store, e: Exec, step: Step)
    requires Valid(s) && ExecOk(s, e) && CanStep(e, step)
    ensures
      var (s', reply) := StoreStep(s, e, step);
      var e' := ExecStep(e, step, reply);
      ExecStepOk(e, e', step) && ExecOk(s', e')
  {
  }

  lemma StepOnRecord(s: Store, e: Exec, step: Step)
    requires Valid(s) && ExecOk(s, e) && CanStep(e, step)
    ensures
      var (s', reply) := StoreStep(s, e, step);
      var e' := ExecStep(e, step, reply);
      StoreStepOk(s, s', e, e', step) && ExecStepOk(e, e', step) && ExecOk(s', e')
  {
    StepOnStore(s, e, step);
    StepOnExec(s, e, step);
  }

  /** Whoever else is around carries another token. */
  lemma OtherExecKept(s: Store, s': Store, e: Exec, other: Exec)
    requires ExecOk(s, other) && e.id in s.records && OnlyRecordChanged(s, s', e.id, e.lease.token)
    requires s'.nextToken == s.nextToken && other.lease.token != e.lease.token
    ensures ExecOk(s', other)
  {
  }

  lemma StepKeepsExecs(y: System, i: nat, step: Step)
    requires Valid(y.store) && ExecsOk(y) && TokensDistinct(y.execs) && Enabled(y, Stepped(i, step))
    ensures ExecsOk(Next(y, Stepped(i, step))) && TokensDistinct(Next(y, Stepped(i, step)).execs)
  {
    var y', e := Next(y, Stepped(i, step)), y.execs[i];
    assert ExecOk(y.store, e);
    StepOnRecord(y.store, e, step);
    forall j | 0 <= j < |y.execs| && j != i ensures ExecOk(y'.store, y.execs[j]) {
      assert ExecOk(y.store, y.execs[j]);
      OtherExecKept(y.store, y'.store, e, y.execs[j]);
    }
  }

  lemma StepKeepsCounters(y: System, i: nat, step: Step)
    requires Inv(y) && Enabled(y, Stepped(i, step))
    ensures CountersOk(Next(y, Stepped(i, step)))
  {
    var y', e := Next(y, Stepped(i, step)), y.execs[i];
    StepOnRecord(y.store, e, step);
    forall id ensures y'.calls[id] == |InvokedOf(y'.execs, id)| {
      InvokedAfterUpdate(y.execs, i, y'.execs[i], id);
    }
    forall id | id in y'.store.records
      ensures y'.store.records[id].claimCount == |ClaimsOf(y'.execs, id)|
      ensures y'.store.records[id].attempt == |BegunOf(y'.execs, id)| <= y'.store.records[id].request.maxAttempts
    {
      ClaimsAfterUpdate(y.execs, i, y'.execs[i], id);
      BegunAfterUpdate(y.execs, i, y'.execs[i], id);
    }
  }

  lemma StepKeepsHolders(y: System, i: nat, step: Step)
    requires Inv(y) && Enabled(y, Stepped(i, step))
    ensures HoldersOk(Next(y, Stepped(i, step)))
  {
    var y', e := Next(y, Stepped(i, step)), y.execs[i];
    StepOnRecord(y.store, e, step);
    forall id | id in y'.store.records && y'.store.records[id].status.Claimed? ensures exists j :: IsHolder(y', id, j) {
      var j :| IsHolder(y, id, j);
      assert IsHolder(y', id, j);
    }
  }

  // --- preservation: claims ---

  /** A new execution counts as a claim, and as nothing else yet. */
  lemma CountsAfterClaim(execs: seq<Exec>, c: Claim, settings: Settings, id: nat)
    ensures
      var after := execs + [NewExec(c, settings)];
      && |ClaimsOf(after, id)| == |ClaimsOf(execs, id)| + (if c.id == id then 1 else 0)
      && BegunOf(after, id) == BegunOf(execs, id)
      && InvokedOf(after, id) == InvokedOf(execs, id)
  {
    var after := execs + [NewExec(c, settings)];
    if c.id == id {
      assert ClaimsOf(after, id) == ClaimsOf(execs, id) + {|execs|};
    } else {
      assert ClaimsOf(after, id) == ClaimsOf(execs, id);
    }
  }

  lemma IdsStep(claims: seq<Claim>, n: nat, id: nat)
    requires n < |claims| && forall k, m :: 0 <= k < m < |claims| ==> claims[k].id != claims[m].id
    ensures (id in IdsOf(claims, n + 1)) == (id in IdsOf(claims, n) || claims[n].id == id)
    ensures claims[n].id !in IdsOf(claims, n)
  {
    IdsGrow(claims, n);
  }

  lemma {:induction false} CountsAfterBatch(execs: seq<Exec>, claims: seq<Claim>, settings: Settings, n: nat, id: nat)
    requires n <= |claims|
    requires forall k, m :: 0 <= k < m < |claims| ==> claims[k].id != claims[m].id
    ensures
      var after := execs + NewExecs(claims, settings, n);
      && |ClaimsOf(after, id)| == |ClaimsOf(execs, id)| + (if id in IdsOf(claims, n) then 1 else 0)
      && BegunOf(after, id) == BegunOf(execs, id)
      && InvokedOf(after, id) == InvokedOf(execs, id)
  {
    if n > 0 {
      var before := execs + NewExecs(claims, settings, n - 1);
      CountsAfterBatch(execs, claims, settings, n - 1, id);
      CountsAfterClaim(before, claims[n - 1], settings, id);
      IdsStep(claims, n - 1, id);
      assert execs + NewExecs(claims, settings, n) == before + [NewExec(claims[n - 1], settings)];
    } else {
      assert execs + NewExecs(claims, settings, 0) == execs;
    }
  }

  /** A claim leaves every older execution as consistent as it was: a record taken again has a new token. */
  lemma ClaimKeepsOldExec(s: Store, e: Exec, worker: nat, now: Time, leaseFor: nat, limit: pos)
    requires Valid(s) && ExecOk(s, e)
    ensures ExecOk(ClaimDue(s, worker, now, leaseFor, limit), e)
  {
    if Reached(s.records, now, limit, e.id) {
      TokenIsFresh(s, now, limit, e.id);
    }
  }

  lemma ClaimKeepsTokens(y: System, settings: Settings, now: Time, claims: seq<Claim>)
    requires IndexOk(y.store) && ExecsOk(y) && TokensDistinct(y.execs)
    requires Enabled(y, BatchClaimed(settings, now, claims))
    ensures TokensDistinct(Next(y, BatchClaimed(settings, now, claims)).execs)
  {
    var y', n := Next(y, BatchClaimed(settings, now, claims)), |y.execs|;
    BatchIsFirstInOrder(y.store, settings.worker, now, settings.leaseFor, settings.maxInFlight, claims);
    forall i, j | 0 <= i < j < |y'.execs| ensures y'.execs[i].lease.token != y'.execs[j].lease.token {
      if i >= n {
        assert claims[i - n].lease.token < claims[j - n].lease.token;
      } else if j >= n {
        assert ExecOk(y.store, y.execs[i]);
        assert y.execs[i].lease.token <= y.store.nextToken < claims[j - n].lease.token;
      }
    }
  }

  lemma ClaimKeepsExecs(y: System, settings: Settings, now: Time, claims: seq<Claim>)
    requires Valid(y.store) && ExecsOk(y) && Enabled(y, BatchClaimed(settings, now, claims))
    ensures ExecsOk(Next(y, BatchClaimed(settings, now, claims)))
  {
    var y', n := Next(y, BatchClaimed(settings, now, claims)), |y.execs|;
    forall i | 0 <= i < |y'.execs| ensures ExecOk(y'.store, y'.execs[i]) {
      if i < n {
        ClaimKeepsOldExec(y.store, y.execs[i], settings.worker, now, settings.leaseFor, settings.maxInFlight);
      } else {
        assert IsBatchEntry(y.store, settings.worker, now, settings.leaseFor, settings.maxInFlight, i - n,
          claims[i - n]);
        TokenIsFresh(y.store, now, settings.maxInFlight, claims[i - n].id);
      }
    }
  }

  lemma BatchIdsDiffer(s: Store, worker: nat, now: Time, leaseFor: nat, limit: nat, claims: seq<Claim>)
    requires IsBatch(s, worker, now, leaseFor, limit, claims)
    ensures forall k, m :: 0 <= k < m < |claims| ==> claims[k].id != claims[m].id
  {
    forall k, m | 0 <= k < m < |claims| ensures claims[k].id != claims[m].id {
      BatchPairInOrder(s, worker, now, leaseFor, limit, claims, k, m);
    }
  }

  /** One record's counters after a claim. */
  lemma ClaimCounts(y: System, settings: Settings, now: Time, claims: seq<Claim>, id: nat)
    requires IndexOk(y.store) && Enabled(y, BatchClaimed(settings, now, claims))
    ensures
      var y' := Next(y, BatchClaimed(settings, now, claims));
      var taken := id in TakenIds(y.store.records, now, settings.maxInFlight);
      && |ClaimsOf(y'.execs, id)| == |ClaimsOf(y.execs, id)| + (if taken then 1 else 0)
      && BegunOf(y'.execs, id) == BegunOf(y.execs, id)
      && InvokedOf(y'.execs, id) == InvokedOf(y.execs, id)
  {
    BatchIds(y.store, settings.worker, now, settings.leaseFor, settings.maxInFlight, claims);
    BatchIdsDiffer(y.store, settings.worker, now, settings.leaseFor, settings.maxInFlight, claims);
    CountsAfterBatch(y.execs, claims, settings, |claims|, id);
  }

  lemma ClaimKeepsRecordCounters(y: System, settings: Settings, now: Time, claims: seq<Claim>, id: nat)
    requires IndexOk(y.store) && CountersOk(y) && id in y.store.records
    requires Enabled(y, BatchClaimed(settings, now, claims))
    ensures
      var y' := Next(y, BatchClaimed(settings, now, claims));
      && id in y'.store.records
      && y'.store.records[id].claimCount == |ClaimsOf(y'.execs, id)|
      && y'.store.records[id].attempt == |BegunOf(y'.execs, id)| <= y'.store.records[id].request.maxAttempts
  {
    ClaimCounts(y, settings, now, claims, id);
  }

  lemma ClaimKeepsCounters(y: System, settings: Settings, now: Time, claims: seq<Claim>)
    requires IndexOk(y.store) && CountersOk(y) && Enabled(y, BatchClaimed(settings, now, claims))
    ensures CountersOk(Next(y, BatchClaimed(settings, now, claims)))
  {
    var y' := Next(y, BatchClaimed(settings, now, claims));
    forall id ensures y'.calls[id] == |InvokedOf(y'.execs, id)| {
      ClaimCounts(y, settings, now, claims, id);
    }
    forall id | id in y'.store.records
      ensures y'.store.records[id].claimCount == |ClaimsOf(y'.execs, id)|
      ensures y'.store.records[id].attempt == |BegunOf(y'.execs, id)| <= y'.store.records[id].request.maxAttempts
    {
      ClaimKeepsRecordCounters(y, settings, now, claims, id);
    }
  }

  /** A claimed record is held by the execution made from its claim. */
  lemma ClaimMakesHolder(y: System, settings: Settings, now: Time, claims: seq<Claim>, k: nat)
    requires IndexOk(y.store) && Enabled(y, BatchClaimed(settings, now, claims)) && k < |claims|
    ensures IsHolder(Next(y, BatchClaimed(settings, now, claims)), claims[k].id, |y.execs| + k)
  {
    assert IsBatchEntry(y.store, settings.worker, now, settings.leaseFor, settings.maxInFlight, k, claims[k]);
  }

  /** A record that is still claimed without being taken keeps its holder. */
  lemma ClaimKeepsHolder(y: System, settings: Settings, now: Time, claims: seq<Claim>, id: nat, i: nat)
    requires IndexOk(y.store) && Enabled(y, BatchClaimed(settings, now, claims)) && IsHolder(y, id, i)
    requires id !in TakenIds(y.store.records, now, settings.maxInFlight)
    requires Next(y, BatchClaimed(settings, now, claims)).store.records[id].status.Claimed?
    ensures IsHolder(Next(y, BatchClaimed(settings, now, claims)), id, i)
  {
  }

  lemma ClaimKeepsHolders(y: System, settings: Settings, now: Time, claims: seq<Claim>)
    requires IndexOk(y.store) && HoldersOk(y) && Enabled(y, BatchClaimed(settings, now, claims))
    ensures HoldersOk(Next(y, BatchClaimed(settings, now, claims)))
  {
    var y' := Next(y, BatchClaimed(settings, now, claims));
    BatchIds(y.store, settings.worker, now, settings.leaseFor, settings.maxInFlight, claims);
    forall id | id in y'.store.records && y'.store.records[id].status.Claimed? ensures exists i :: IsHolder(y', id, i) {
      if id in TakenIds(y.store.records, now, settings.maxInFlight) {
        assert id in IdsOf(claims, |claims|);
        var k :| 0 <= k < |claims| && claims[k].id == id;
        ClaimMakesHolder(y, settings, now, claims, k);
      } else {
        assert y.store.records[id].status.Claimed?;
        var i :| IsHolder(y, id, i);
        ClaimKeepsHolder(y, settings, now, claims, id, i);
      }
    }
  }

  /** A new record leaves the others, and whoever holds them, alone. */
  lemma EnqueueKeepsExecs(y: System, request: Request)
    requires IndexOk(y.store) && ExecsOk(y)
    ensures ExecsOk(Next(y, Enqueued(request)))
  {
    var y' := Next(y, Enqueued(request));
    forall i | 0 <= i < |y.execs| ensures ExecOk(y'.store, y.execs[i]) {
      assert ExecOk(y.store, y.execs[i]);
    }
  }

  lemma EnqueueKeepsHolders(y: System, request: Request)
    requires IndexOk(y.store) && HoldersOk(y)
    ensures HoldersOk(Next(y, Enqueued(request)))
  {
    var y' := Next(y, Enqueued(request));
    forall id | id in y'.store.records && y'.store.records[id].status.Claimed? ensures exists i :: IsHolder(y', id, i) {
      var i :| IsHolder(y, id, i);
      assert IsHolder(y', id, i);
    }
  }

  lemma NoExecYet(y: System, id: nat)
    requires ExecsOk(y) && id !in y.store.records
    ensures ClaimsOf(y.execs, id) == {} && BegunOf(y.execs, id) == {}
  {
    forall i | 0 <= i < |y.execs| ensures y.execs[i].id != id {
      assert ExecOk(y.store, y.execs[i]);
    }
  }

  lemma EnqueueKeepsCounters(y: System, request: Request)
    requires IndexOk(y.store) && ExecsOk(y) && CountersOk(y)
    ensures CountersOk(Next(y, Enqueued(request)))
  {
    if y.store.nextId !in y.store.records {
      NoExecYet(y, y.store.nextId);
    }
  }

  lemma EnqueueKeepsInv(y: System, request: Request)
    requires Inv(y)
    ensures Inv(Next(y, Enqueued(request)))
  {
    DoKeepsTokens(y.store, EnqueueCall(request));
    EnqueueKeepsExecs(y, request);
    EnqueueKeepsHolders(y, request);
    EnqueueKeepsCounters(y, request);
  }

  lemma ArmedKeepsInv(y: System)
    requires Inv(y)
    ensures Inv(Next(y, Armed))
  {
    var y' := Next(y, Armed);
    forall i | 0 <= i < |y.execs| ensures ExecOk(y'.store, y.execs[i]) {
      assert ExecOk(y.store, y.execs[i]);
    }
    forall id | id in y'.store.records && y'.store.records[id].status.Claimed? ensures exists i :: IsHolder(y', id, i) {
      var i :| IsHolder(y, id, i);
      assert IsHolder(y', id, i);
    }
  }

  lemma ClaimKeepsInv(y: System, settings: Settings, now: Time, claims: seq<Claim>)
    requires Inv(y) && Enabled(y, BatchClaimed(settings, now, claims))
    ensures Inv(Next(y, BatchClaimed(settings, now, claims)))
  {
    DoKeepsTokens(y.store, ClaimCall(settings.worker, now, settings.leaseFor, settings.maxInFlight));
    ClaimKeepsExecs(y, settings, now, claims);
    ClaimKeepsTokens(y, settings, now, claims);
    ClaimKeepsCounters(y, settings, now, claims);
    ClaimKeepsHolders(y, settings, now, claims);
  }

  lemma StepKeepsInv(y: System, i: nat, step: Step)
    requires Inv(y) && Enabled(y, Stepped(i, step))
    ensures Inv(Next(y, Stepped(i, step)))
  {
    assert ExecOk(y.store, y.execs[i]);
    StepOnRecord(y.store, y.execs[i], step);
    StepKeepsExecs(y, i, step);
    StepKeepsCounters(y, i, step);
    StepKeepsHolders(y, i, step);
  }

  /** Every event keeps the invariant. */
  lemma NextKeepsInv(y: System, ev: Event)
    requires Inv(y) && Enabled(y, ev)
    ensures Inv(Next(y, ev))
  {
    match ev
    case Enqueued(request) => EnqueueKeepsInv(y, request);
    case Armed => ArmedKeepsInv(y);
    case BatchClaimed(settings, now, claims) => ClaimKeepsInv(y, settings, now, claims);
    case Stepped(i, step) => StepKeepsInv(y, i, step);
  }
}
