/**
 What an execution does to its record, from what the queue or the executor told it to what the record
 looks like afterwards, with anything happening in between: told by records, clocks and settings alone.
 */
module OutboxOutcomes {
  import opened Basics
  import opened OutboxModel
  import opened OutboxRuns
  import opened OutboxWorkers
  import opened OutboxTheorems
  import Backoff

  /** The run leads from one state to the other. */
  ghost predicate Leads(y: System, evs: seq<Event>, z: System) {
    IndexOk(y.store) && IsRun(y, evs) && After(y, evs) == z
  }

  // --- the last stretch of an execution ---

  /** What an execution keeps: its record, its fence and its settings. */
  predicate SameExec(e: Exec, e': Exec) {
    && e'.id == e.id
    && e'.attemptBefore == e.attemptBefore
    && SameFence(e'.lease, e.lease)
    && e'.settings == e.settings
    && e'.maxAttempts == e.maxAttempts
    && (e.begun ==> e'.begun)
  }

  /** From reporting an execution goes on to its last store call and then ends; there is no way back. */
  predicate LastStretch(phase: Phase, phase': Phase) {
    phase' == phase || phase'.Ended? || (phase.Reporting? && phase'.Finishing?)
  }

  lemma LastStretchStep(y: System, ev: Event, i: nat)
    requires IndexOk(y.store) && Enabled(y, ev) && i < |y.execs|
    requires y.execs[i].phase.Reporting? || y.execs[i].phase.Finishing? || y.execs[i].phase.Ended?
    ensures
      var e, later := y.execs[i], Next(y, ev).execs;
      i < |later| && SameExec(e, later[i]) && LastStretch(e.phase, later[i].phase)
  {
    if ev.Stepped? && ev.i == i {
      var (s, reply) := StoreStep(y.store, y.execs[i], ev.step);
      assert Next(y, ev).execs[i] == ExecStep(y.execs[i], ev.step, reply);
    }
  }

  lemma {:induction false} LastStretchIsKept(y: System, evs: seq<Event>, i: nat)
    requires IndexOk(y.store) && IsRun(y, evs) && i < |y.execs|
    requires y.execs[i].phase.Reporting? || y.execs[i].phase.Finishing? || y.execs[i].phase.Ended?
    ensures
      var e, later := y.execs[i], After(y, evs).execs;
      i < |later| && SameExec(e, later[i]) && LastStretch(e.phase, later[i].phase)
    decreases |evs|
  {
    if evs != [] {
      NextKeepsIndex(y, evs[0]);
      LastStretchStep(y, evs[0], i);
      LastStretchIsKept(Next(y, evs[0]), evs[1..], i);
    }
  }

  lemma RunFirst(y: System, ev: Event, evs: seq<Event>)
    requires Inv(y) && IsRun(y, [ev] + evs)
    ensures Enabled(y, ev) && Inv(Next(y, ev))
    ensures IsRun(Next(y, ev), evs) && After(y, [ev] + evs) == After(Next(y, ev), evs)
  {
    NextKeepsInv(y, ev);
    assert ([ev] + evs)[1..] == evs;
  }

  /** The step after which only the last store call is left. */
  predicate LeadsToFinish(step: Step) {
    step.Unavailable? || step.Rejected? || step.Report?
  }

  lemma EntersFinishing(y: System, i: nat, step: Step)
    requires IndexOk(y.store) && Enabled(y, Stepped(i, step)) && LeadsToFinish(step)
    ensures
      var execs := Next(y, Stepped(i, step)).execs;
      i < |execs| && execs[i].phase.Finishing? && SameExec(y.execs[i], execs[i])
  {
  }

  /** If that call is then possible, it is the one which this step has prepared. */
  lemma FinishFollows(y: System, i: nat, step: Step, evs: seq<Event>, z: System, clock: Time)
    requires Inv(y) && Leads(y, [Stepped(i, step)] + evs, z) && LeadsToFinish(step)
    requires Enabled(z, Stepped(i, Finish(clock)))
    ensures Enabled(y, Stepped(i, step)) && Inv(z) && SameExec(y.execs[i], z.execs[i])
    ensures i < |Next(y, Stepped(i, step)).execs|
    ensures z.execs[i].phase == Next(y, Stepped(i, step)).execs[i].phase
  {
    RunFirst(y, Stepped(i, step), evs);
    EntersFinishing(y, i, step);
    LastStretchIsKept(Next(y, Stepped(i, step)), evs, i);
    RunKeepsInv(Next(y, Stepped(i, step)), evs);
  }

  // --- what the record looks like ---

  /** Nothing but this record changes, and of it not the counters. */
  predicate OthersKept(s: Store, s': Store, id: nat)
    requires id in s.records
  {
    && s'.records.Keys == s.records.Keys
    && (forall j :: j in s.records && j != id ==> s'.records[j] == s.records[j])
    && s'.records[id].attempt == s.records[id].attempt
    && s'.records[id].claimCount == s.records[id].claimCount
  }

  /** Pending again, from `wait` after `at` on. */
  predicate IsRescheduled(r: Record, reason: FailureKind, at: Time, wait: nat) {
    && r.status.Pending?
    && r.lastFailure == Some(reason)
    && r.request.availableAt == (if at + wait <= MAX_TIME then at + wait else at)
  }

  /** What becomes of a record after the executor's answer, reported at `at`. */
  predicate Decided(r: Record, r': Record, settings: Settings, outcome: Outcome, at: Time) {
    match outcome
    case Succeeded => r'.status.Completed?
    case FailedPermanently => r'.status == Failed(Permanent) && r'.lastFailure == Some(Permanent)
    case AskedToWait(duration) =>
      if r.attempt < r.request.maxAttempts then IsRescheduled(r', FailureKind.RetryAfter, at, duration)
      else r'.status == Failed(Exhausted) && r'.lastFailure == Some(Exhausted)
    case FailedTransiently =>
      if r.attempt < r.request.maxAttempts then
        r.attempt > 0 && IsRescheduled(r', Transient, at,
          Min(settings.backoffBase * Backoff.Pow2(r.attempt - 1), settings.backoffMax))
      else r'.status == Failed(Exhausted) && r'.lastFailure == Some(Exhausted)
  }

  lemma FinishDecides(s: Store, e: Exec, attempt: nat, outcome: Outcome, at: Time, clock: Time)
    requires ExecOk(s, e) && e.begun && attempt == e.attemptBefore + 1
    requires CanStep(e, Finish(clock)) && e.phase.op == OpFor(e, attempt, outcome, at)
    ensures
      var s' := StoreStep(s, e, Finish(clock)).0;
      && e.id in s.records && e.id in s'.records
      && (if outcome.Succeeded? && s.failNextComplete then s'.records == s.records
          else if Holds(s, e, clock) then
            OthersKept(s, s', e.id) && Decided(s.records[e.id], s'.records[e.id], e.settings, outcome, at)
          else s' == s)
  {
  }

  /** The call that ends an execution whose permit was reported at `at`. */
  lemma ReportedOutcome(y: System, i: nat, at: Time, z: System, clock: Time)
    requires Inv(y) && Enabled(y, Stepped(i, Report(at))) && y.execs[i].phase.Reporting?
    requires Inv(z) && Enabled(z, Stepped(i, Finish(clock)))
    requires SameExec(y.execs[i], z.execs[i])
    requires z.execs[i].begun && z.execs[i].phase == Next(y, Stepped(i, Report(at))).execs[i].phase
    ensures
      var e, s, s' := y.execs[i], z.store, Next(z, Stepped(i, Finish(clock))).store;
      && e.id in s.records && e.id in s'.records
      && (if e.phase.outcome.Succeeded? && s.failNextComplete then s'.records == s.records
          else if Holds(s, e, clock) then
            OthersKept(s, s', e.id)
            && Decided(s.records[e.id], s'.records[e.id], e.settings, e.phase.outcome, at)
          else s' == s)
  {
    var e := y.execs[i];
    assert ExecOk(y.store, e);
    assert ExecOk(z.store, z.execs[i]);
    FinishDecides(z.store, z.execs[i], e.phase.attempt, e.phase.outcome, at, clock);
  }

  lemma ReturnToReport(y: System, i: nat, outcome: Outcome, first: seq<Event>, x: System, at: Time,
                       second: seq<Event>)
    requires Inv(y) && Leads(y, [Stepped(i, Return(outcome))] + first, x) && IsRun(x, [Stepped(i, Report(at))] + second)
    ensures Inv(x) && i < |y.execs| && i < |x.execs| && SameExec(y.execs[i], x.execs[i])
    ensures x.execs[i].phase.Reporting? && x.execs[i].phase.outcome == outcome
  {
    RunFirst(y, Stepped(i, Return(outcome)), first);
    LastStretchIsKept(Next(y, Stepped(i, Return(outcome))), first, i);
    RunKeepsInv(Next(y, Stepped(i, Return(outcome))), first);
    assert Enabled(x, Stepped(i, Report(at)));
    assert ExecOk(x.store, x.execs[i]);
  }

  lemma ReportToFinish(x: System, i: nat, at: Time, second: seq<Event>, z: System, clock: Time)
    requires Inv(x) && Leads(x, [Stepped(i, Report(at))] + second, z) && Enabled(z, Stepped(i, Finish(clock)))
    requires i < |x.execs| && x.execs[i].phase.Reporting?
    ensures
      var e, s, s' := x.execs[i], z.store, Next(z, Stepped(i, Finish(clock))).store;
      && e.id in s.records && e.id in s'.records
      && (if e.phase.outcome.Succeeded? && s.failNextComplete then s'.records == s.records
          else if Holds(s, e, clock) then
            OthersKept(s, s', e.id)
            && Decided(s.records[e.id], s'.records[e.id], e.settings, e.phase.outcome, at)
          else s' == s)
  {
    FinishFollows(x, i, Report(at), second, z, clock);
    assert ExecOk(x.store, x.execs[i]);
    ReportedOutcome(x, i, at, z, clock);
  }

  /**
   From the executor's answer to the record, with any events of anyone in between: under a lease that is
   still held, a success completes the record, a permanent failure fails it, and a transient failure or a
   wait that was asked for puts it back for the stated time, or fails it once its attempts are used up.
   Without the lease nothing changes.
   */
  lemma ReturnDecidesRecord(y: System, i: nat, outcome: Outcome, first: seq<Event>, x: System, at: Time,
                            second: seq<Event>, z: System, clock: Time)
    requires Reachable(y) && Leads(y, [Stepped(i, Return(outcome))] + first, x)
    requires Leads(x, [Stepped(i, Report(at))] + second, z) && Enabled(z, Stepped(i, Finish(clock)))
    ensures i < |y.execs| && y.execs[i].id in z.store.records
    ensures y.execs[i].id in Next(z, Stepped(i, Finish(clock))).store.records
    ensures
      var e, s, s' := y.execs[i], z.store, Next(z, Stepped(i, Finish(clock))).store;
      if outcome.Succeeded? && s.failNextComplete then
        s'.records == s.records
      else if Holds(s, e, clock) then
        OthersKept(s, s', e.id) && Decided(s.records[e.id], s'.records[e.id], e.settings, outcome, at)
      else
        s' == s
  {
    ReachableOk(y);
    ReturnToReport(y, i, outcome, first, x, at, second);
    ReportToFinish(x, i, at, second, z, clock);
  }

  // --- what the queue's answer makes of the record ---

  lemma FinishAfterQueue(s: Store, e: Exec, at: Time, clock: Time)
    requires ExecOk(s, e) && CanStep(e, Finish(clock))
    ensures
      var s' := StoreStep(s, e, Finish(clock)).0;
      && e.id in s.records && e.id in s'.records
      && (!Holds(s, e, clock) && !e.phase.op.Complete? ==> s' == s)
      && (Holds(s, e, clock) && e.phase.op == Fail(Permanent) ==>
            && OthersKept(s, s', e.id)
            && s'.records[e.id].status == Failed(Permanent) && s'.records[e.id].lastFailure == Some(Permanent))
      && (Holds(s, e, clock) && e.phase.op ==
            RetryOrFail(e.attemptBefore, e.maxAttempts, SchedulerUnavailable, e.settings.retryDelay, at) ==>
            && OthersKept(s, s', e.id)
            && IsRescheduled(s'.records[e.id], SchedulerUnavailable, at, e.settings.retryDelay))
  {
  }

  lemma QueueOutcome(y: System, i: nat, step: Step, z: System, clock: Time)
    requires Inv(y) && Enabled(y, Stepped(i, step)) && (step.Unavailable? || step.Rejected?)
    requires Inv(z) && Enabled(z, Stepped(i, Finish(clock)))
    requires SameExec(y.execs[i], z.execs[i])
    requires z.execs[i].phase == Next(y, Stepped(i, step)).execs[i].phase
    ensures
      var e, s, s' := y.execs[i], z.store, Next(z, Stepped(i, Finish(clock))).store;
      && e.id in s.records && e.id in s'.records
      && (if !Holds(s, e, clock) then s' == s
          else
            && OthersKept(s, s', e.id)
            && (if step.Unavailable? then
                  IsRescheduled(s'.records[e.id], SchedulerUnavailable, step.clock, e.settings.retryDelay)
                else
                  s'.records[e.id].status == Failed(Permanent) && s'.records[e.id].lastFailure == Some(Permanent)))
  {
    assert ExecOk(y.store, y.execs[i]);
    assert ExecOk(z.store, z.execs[i]);
    FinishAfterQueue(z.store, z.execs[i], if step.Unavailable? then step.clock else 0, clock);
  }

  /**
   A queue that is full, closed or superseded the request never costs an attempt and never fails the
   record: whatever happens meanwhile, the store call that follows puts it back for the configured delay,
   or changes nothing because the lease is lost.
   */
  lemma UnavailableQueueReschedules(y: System, i: nat, at: Time, evs: seq<Event>, z: System, clock: Time)
    requires Reachable(y) && Leads(y, [Stepped(i, Unavailable(at))] + evs, z) && Enabled(z, Stepped(i, Finish(clock)))
    ensures i < |y.execs| && y.execs[i].id in z.store.records
    ensures y.execs[i].id in Next(z, Stepped(i, Finish(clock))).store.records
    ensures
      var e, s, s' := y.execs[i], z.store, Next(z, Stepped(i, Finish(clock))).store;
      if Holds(s, e, clock) then
        && OthersKept(s, s', e.id)
        && IsRescheduled(s'.records[e.id], SchedulerUnavailable, at, e.settings.retryDelay)
      else
        s' == s
  {
    ReachableOk(y);
    FinishFollows(y, i, Unavailable(at), evs, z, clock);
    QueueOutcome(y, i, Unavailable(at), z, clock);
  }

  /** A request the queue can never admit fails for good, under a held lease. */
  lemma RejectedRequestFails(y: System, i: nat, evs: seq<Event>, z: System, clock: Time)
    requires Reachable(y) && Leads(y, [Stepped(i, Rejected)] + evs, z) && Enabled(z, Stepped(i, Finish(clock)))
    ensures i < |y.execs| && y.execs[i].id in z.store.records
    ensures y.execs[i].id in Next(z, Stepped(i, Finish(clock))).store.records
    ensures
      var e, s, s' := y.execs[i], z.store, Next(z, Stepped(i, Finish(clock))).store;
      if Holds(s, e, clock) then
        && OthersKept(s, s', e.id)
        && s'.records[e.id].status == Failed(Permanent) && s'.records[e.id].lastFailure == Some(Permanent)
      else
        s' == s
  {
    ReachableOk(y);
    FinishFollows(y, i, Rejected, evs, z, clock);
    QueueOutcome(y, i, Rejected, z, clock);
  }

  // --- losing the lease ---

  lemma RefusedCall(s: Store, e: Exec, step: Step)
    requires ExecOk(s, e) && CanStep(e, step) && (step.Begin? || step.ApplyRenewal?) && !Holds(s, e, step.clock)
    ensures var (s', reply) := StoreStep(s, e, step); s' == s && ExecStep(e, step, reply).phase.Ended?
  {
  }

  lemma RefusedStep(y: System, i: nat, step: Step)
    requires Inv(y) && Enabled(y, Stepped(i, step)) && (step.Begin? || step.ApplyRenewal?)
    requires !Holds(y.store, y.execs[i], step.clock)
    ensures var y' := Next(y, Stepped(i, step)); y'.store == y.store && y'.execs[i].phase.Ended?
  {
    assert ExecOk(y.store, y.execs[i]);
    RefusedCall(y.store, y.execs[i], step);
  }

  /**
   A renewal or `begin_attempt` without the lease changes nothing and stops the execution: in no run does
   it take another step, so its executor is not called any more.
   */
  lemma LostLeaseStopsExecution(y: System, i: nat, step: Step, evs: seq<Event>, z: System, later: Step)
    requires Reachable(y) && Leads(y, [Stepped(i, step)] + evs, z) && (step.Begin? || step.ApplyRenewal?)
    requires i < |y.execs| && !Holds(y.store, y.execs[i], step.clock)
    ensures Enabled(y, Stepped(i, step)) && Next(y, Stepped(i, step)).store == y.store
    ensures !Enabled(z, Stepped(i, later))
  {
    ReachableOk(y);
    RunFirst(y, Stepped(i, step), evs);
    RefusedStep(y, i, step);
    LastStretchIsKept(Next(y, Stepped(i, step)), evs, i);
  }

  /** A renewal under the held lease moves the expiry, on the record and for the execution, and nothing else. */
  lemma HeldRenewalExtends(y: System, i: nat, clock: Time)
    requires IndexOk(y.store) && Enabled(y, Stepped(i, ApplyRenewal(clock))) && Holds(y.store, y.execs[i], clock)
    ensures
      var e, y' := y.execs[i], Next(y, Stepped(i, ApplyRenewal(clock)));
      var lease := Lease(e.lease.worker, e.lease.token, e.renewing.value);
      && y'.store.records == y.store.records[e.id := y.store.records[e.id].(status := Claimed(lease))]
      && y'.execs[i] == e.(lease := lease, renewing := None)
  {
  }

  // --- waiting ---

  lemma PendingUnclaimed(y: System, settings: Settings, now: Time, claims: seq<Claim>, id: nat)
    requires IndexOk(y.store) && Enabled(y, BatchClaimed(settings, now, claims)) && id in y.store.records
    requires y.store.records[id].status.Pending? && now < y.store.records[id].request.availableAt
    ensures
      var y' := Next(y, BatchClaimed(settings, now, claims));
      && id in y'.store.records && y'.store.records[id] == y.store.records[id]
      && |y.execs| <= |y'.execs| && forall j :: |y.execs| <= j < |y'.execs| ==> y'.execs[j].id != id
  {
    BatchIsFirstInOrder(y.store, settings.worker, now, settings.leaseFor, settings.maxInFlight, claims);
  }

  lemma PendingUntouched(y: System, ev: Event, id: nat)
    requires Inv(y) && Enabled(y, ev) && id in y.store.records && y.store.records[id].status.Pending?
    requires ev.BatchClaimed? ==> ev.now < y.store.records[id].request.availableAt
    ensures id in Next(y, ev).store.records && Next(y, ev).store.records[id] == y.store.records[id]
    ensures |y.execs| <= |Next(y, ev).execs|
    ensures forall j :: |y.execs| <= j < |Next(y, ev).execs| ==> Next(y, ev).execs[j].id != id
  {
    match ev
    case BatchClaimed(settings, now, claims) =>
      PendingUnclaimed(y, settings, now, claims, id);
    case Stepped(i, step) =>
      assert ExecOk(y.store, y.execs[i]);
      UnheldStaysPut(y.store, y.execs[i], step, id);
    case _ =>
  }

  /** Before its time a pending record stays as it is and no worker gets a new execution of it. */
  lemma {:induction false} PendingIsNotExecuted(y: System, evs: seq<Event>, id: nat)
    requires Inv(y) && IsRun(y, evs) && id in y.store.records && y.store.records[id].status.Pending?
    requires forall k :: 0 <= k < |evs| && evs[k].BatchClaimed? ==>
      evs[k].now < y.store.records[id].request.availableAt
    ensures id in After(y, evs).store.records && After(y, evs).store.records[id] == y.store.records[id]
    ensures |y.execs| <= |After(y, evs).execs|
    ensures forall j :: |y.execs| <= j < |After(y, evs).execs| ==> After(y, evs).execs[j].id != id
    decreases |evs|
  {
    if evs != [] {
      NextKeepsInv(y, evs[0]);
      PendingUntouched(y, evs[0], id);
      PendingIsNotExecuted(Next(y, evs[0]), evs[1..], id);
      LaterExecsKeepIds(Next(y, evs[0]), evs[1..]);
    }
  }

  lemma ExecKeepsId(y: System, ev: Event)
    requires IndexOk(y.store) && Enabled(y, ev)
    ensures |y.execs| <= |Next(y, ev).execs|
    ensures forall j :: 0 <= j < |y.execs| ==> Next(y, ev).execs[j].id == y.execs[j].id
  {
    if ev.Stepped? {
      var (s, reply) := StoreStep(y.store, y.execs[ev.i], ev.step);
      assert Next(y, ev).execs == y.execs[ev.i := ExecStep(y.execs[ev.i], ev.step, reply)];
    }
  }

  lemma {:induction false} LaterExecsKeepIds(y: System, evs: seq<Event>)
    requires IndexOk(y.store) && IsRun(y, evs)
    ensures |y.execs| <= |After(y, evs).execs|
    ensures forall j :: 0 <= j < |y.execs| ==> After(y, evs).execs[j].id == y.execs[j].id
    decreases |evs|
  {
    if evs != [] {
      NextKeepsIndex(y, evs[0]);
      ExecKeepsId(y, evs[0]);
      LaterExecsKeepIds(Next(y, evs[0]), evs[1..]);
    }
  }

  lemma WaitsAfterFinish(z: System, i: nat, clock: Time, evs: seq<Event>, final: System, id: nat)
    requires Inv(z) && Leads(z, [Stepped(i, Finish(clock))] + evs, final)
    requires var s := Next(z, Stepped(i, Finish(clock))).store;
      && id in s.records && s.records[id].status.Pending?
      && forall k :: 0 <= k < |evs| && evs[k].BatchClaimed? ==> evs[k].now < s.records[id].request.availableAt
    ensures id in final.store.records && final.store.records[id].status.Pending?
    ensures forall j :: |z.execs| <= j < |final.execs| ==> final.execs[j].id != id
  {
    RunFirst(z, Stepped(i, Finish(clock)), evs);
    PendingIsNotExecuted(Next(z, Stepped(i, Finish(clock))), evs, id);
  }

  /** A wait the server asked for is respected: no claim before it is over starts an execution of the record. */
  lemma RetryAfterIsRespected(y: System, i: nat, wait: nat, first: seq<Event>, x: System, at: Time,
                              second: seq<Event>, z: System, clock: Time, evs: seq<Event>, final: System)
    requires Reachable(y) && Leads(y, [Stepped(i, Return(AskedToWait(wait)))] + first, x)
    requires Leads(x, [Stepped(i, Report(at))] + second, z)
    requires Leads(z, [Stepped(i, Finish(clock))] + evs, final)
    requires i < |y.execs| && Holds(z.store, y.execs[i], clock) && at + wait <= MAX_TIME
    requires var r := z.store.records[y.execs[i].id]; r.attempt < r.request.maxAttempts
    requires forall k :: 0 <= k < |evs| && evs[k].BatchClaimed? ==> evs[k].now < at + wait
    ensures y.execs[i].id in final.store.records && final.store.records[y.execs[i].id].status.Pending?
    ensures forall j :: |z.execs| <= j < |final.execs| ==> final.execs[j].id != y.execs[i].id
  {
    ReachableOk(y);
    ReturnToReport(y, i, AskedToWait(wait), first, x, at, second);
    RunFirst(x, Stepped(i, Report(at)), second);
    RunKeepsInv(Next(x, Stepped(i, Report(at))), second);
    assert Enabled(z, ([Stepped(i, Finish(clock))] + evs)[0]);
    ReturnDecidesRecord(y, i, AskedToWait(wait), first, x, at, second, z, clock);
    WaitsAfterFinish(z, i, clock, evs, final, y.execs[i].id);
  }

  // --- the way through ---

  /** What `execute_claimed` does up to the executor's answer when nothing goes wrong. */
  function CallScript(i: nat, begin: Time, outcome: Outcome): seq<Event> {
    [Stepped(i, Acquired)] + ([Stepped(i, Begin(begin))] + ([Stepped(i, Invoke)] + [Stepped(i, Return(outcome))]))
  }

  /** And afterwards. */
  function EndScript(i: nat, at: Time, finish: Time): seq<Event> {
    [Stepped(i, Report(at))] + [Stepped(i, Finish(finish))]
  }

  lemma OneStep(y: System, i: nat, step: Step, evs: seq<Event>, z: System)
    requires IndexOk(y.store) && Enabled(y, Stepped(i, step)) && Leads(Next(y, Stepped(i, step)), evs, z)
    ensures Leads(y, [Stepped(i, step)] + evs, z)
  {
    assert ([Stepped(i, step)] + evs)[1..] == evs;
  }

  lemma LastStep(y: System, i: nat, step: Step)
    requires IndexOk(y.store) && Enabled(y, Stepped(i, step))
    ensures IndexOk(Next(y, Stepped(i, step)).store) && Leads(y, [Stepped(i, step)], Next(y, Stepped(i, step)))
  {
    NextKeepsIndex(y, Stepped(i, step));
    assert [Stepped(i, step)][1..] == [];
  }

  lemma AcquireAndBegin(y: System, i: nat, begin: Time) returns (x: System)
    requires Inv(y) && i < |y.execs| && y.execs[i].phase.Acquiring? && y.execs[i].renewing.None?
    requires Holds(y.store, y.execs[i], begin)
    ensures Inv(x) && x.calls == y.calls && i < |x.execs|
    ensures Enabled(y, Stepped(i, Acquired)) && Enabled(Next(y, Stepped(i, Acquired)), Stepped(i, Begin(begin)))
    ensures Inv(Next(y, Stepped(i, Acquired))) && x == Next(Next(y, Stepped(i, Acquired)), Stepped(i, Begin(begin)))
    ensures
      var e := y.execs[i];
      var r := y.store.records[e.id];
      && x.store == y.store.(records := y.store.records[e.id := r.(attempt := r.attempt + 1)])
      && SameExec(e, x.execs[i]) && x.execs[i].renewing.None? && x.execs[i].phase.Starting?
  {
    var acquired := Next(y, Stepped(i, Acquired));
    NextKeepsInv(y, Stepped(i, Acquired));
    assert ExecOk(acquired.store, acquired.execs[i]);
    BeginOutcome(acquired.store, acquired.execs[i], begin);
    x := Next(acquired, Stepped(i, Begin(begin)));
    NextKeepsInv(acquired, Stepped(i, Begin(begin)));
  }

  lemma InvokeAndReturn(y: System, i: nat, outcome: Outcome) returns (x: System)
    requires Inv(y) && i < |y.execs| && y.execs[i].phase.Starting? && y.execs[i].renewing.None?
    ensures Inv(x) && x.store == y.store && x.calls == y.calls + multiset{y.execs[i].id} && i < |x.execs|
    ensures Leads(y, [Stepped(i, Invoke)] + [Stepped(i, Return(outcome))], x)
    ensures SameExec(y.execs[i], x.execs[i]) && x.execs[i].renewing.None?
    ensures x.execs[i].phase.Reporting? && x.execs[i].phase.outcome == outcome
  {
    var invoked := Next(y, Stepped(i, Invoke));
    NextKeepsInv(y, Stepped(i, Invoke));
    x := Next(invoked, Stepped(i, Return(outcome)));
    NextKeepsInv(invoked, Stepped(i, Return(outcome)));
    LastStep(invoked, i, Return(outcome));
    OneStep(y, i, Invoke, [Stepped(i, Return(outcome))], x);
  }

  lemma ExecutorIsCalled(y: System, i: nat, begin: Time, outcome: Outcome) returns (x: System)
    requires Inv(y) && i < |y.execs| && y.execs[i].phase.Acquiring? && y.execs[i].renewing.None?
    requires Holds(y.store, y.execs[i], begin)
    ensures Inv(x) && Leads(y, CallScript(i, begin, outcome), x)
    ensures x.calls == y.calls + multiset{y.execs[i].id} && i < |x.execs|
    ensures
      var r := y.store.records[y.execs[i].id];
      x.store == y.store.(records := y.store.records[y.execs[i].id := r.(attempt := r.attempt + 1)])
    ensures SameExec(y.execs[i], x.execs[i]) && x.execs[i].renewing.None?
    ensures x.execs[i].phase.Reporting? && x.execs[i].phase.outcome == outcome
  {
    var begun := AcquireAndBegin(y, i, begin);
    x := InvokeAndReturn(begun, i, outcome);
    var rest := [Stepped(i, Invoke)] + [Stepped(i, Return(outcome))];
    OneStep(Next(y, Stepped(i, Acquired)), i, Begin(begin), rest, x);
    OneStep(y, i, Acquired, [Stepped(i, Begin(begin))] + rest, x);
  }

  /**
   A claimed record whose lease lasts is executed exactly once, as its next attempt, and decided by the
   executor's answer: first the way to the answer, then the way from it to the record.
   */
  lemma UndisturbedExecution(y: System, i: nat, begin: Time, outcome: Outcome, at: Time, finish: Time)
      returns (x: System, z: System)
    requires Reachable(y) && i < |y.execs| && y.execs[i].phase.Acquiring? && y.execs[i].renewing.None?
    requires Holds(y.store, y.execs[i], begin) && Holds(y.store, y.execs[i], finish)
    requires !(outcome.Succeeded? && y.store.failNextComplete)
    ensures Leads(y, CallScript(i, begin, outcome), x) && Leads(x, EndScript(i, at, finish), z)
    ensures x.calls == y.calls + multiset{y.execs[i].id}
    ensures
      var id := y.execs[i].id;
      var begun := y.store.records[id].(attempt := y.store.records[id].attempt + 1);
      && x.store.records == y.store.records[id := begun]
      && OthersKept(x.store, z.store, id)
      && Decided(begun, z.store.records[id], y.execs[i].settings, outcome, at)
  {
    ReachableOk(y);
    x := ExecutorIsCalled(y, i, begin, outcome);
    var reported := Next(x, Stepped(i, Report(at)));
    LastStep(x, i, Report(at));
    assert [Stepped(i, Report(at))] + [] == [Stepped(i, Report(at))];
    ReportToFinish(x, i, at, [], reported, finish);
    z := Next(reported, Stepped(i, Finish(finish)));
    LastStep(reported, i, Finish(finish));
    OneStep(x, i, Report(at), [Stepped(i, Finish(finish))], z);
  }
}
