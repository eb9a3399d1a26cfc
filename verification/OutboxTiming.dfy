/**
 The workers on one monotone clock. Each driven record has a heartbeat: the lease runs from the `anchor`
 at which its expiry was computed, the timer is armed later, fires a period after that, and the renewal
 reaches the store later still. An execution is punctual while these delays stay below
 `lease_for - renew_period`. A punctual execution keeps its lease whatever all the others do.
 */
module OutboxTiming {
  import opened Basics
  import opened OutboxModel
  import opened OutboxRuns
  import opened OutboxWorkers

  const MILLISECOND: nat := 1_000_000

  /** `renew_period`: a third of the lease, at least a millisecond. */
  function Period(leaseFor: nat): nat {
    Max(leaseFor / 3, MILLISECOND)
  }

  /** `armed` is None until the claimed record is first driven; `fired` is the reading of the pending renewal. */
  datatype Beat = Beat(anchor: Time, armed: Option<Time>, fired: Option<Time>)

  datatype Timed = Timed(y: System, now: Time, beats: seq<Beat>)

  datatype TimedEvent =
    | Advance(to: Time)
    | StartDriving(i: nat)
    | Act(ev: Event)

  predicate Live(e: Exec) {
    !e.phase.Ended?
  }

  /** Store calls and clock readings happen now. */
  predicate ReadsClock(step: Step, now: Time) {
    match step
    case Unavailable(clock) => clock == now
    case Begin(clock) => clock == now
    case Report(clock) => clock == now
    case Finish(clock) => clock == now
    case ApplyRenewal(clock) => clock == now
    case _ => true
  }

  ghost predicate TimedEnabled(t: Timed, ev: TimedEvent)
    requires |t.beats| == |t.y.execs|
  {
    match ev
    case Advance(to) => t.now <= to
    case StartDriving(i) => i < |t.beats| && t.beats[i].armed.None?
    case Act(act) =>
      && Enabled(t.y, act)
      && match act
         case BatchClaimed(_, now, _) => now <= t.now
         case Stepped(i, step) =>
           && ReadsClock(step, t.now)
           && (step.Crash? || t.beats[i].armed.Some?)
           && (step.FireRenewal? ==>
                && step.until == AddTime(t.now, t.y.execs[i].settings.leaseFor)
                && t.beats[i].armed.value + Period(t.y.execs[i].settings.leaseFor) <= t.now)
         case _ => true
  }

  ghost function TimedNext(t: Timed, ev: TimedEvent): Timed
    requires |t.beats| == |t.y.execs| && IndexOk(t.y.store) && TimedEnabled(t, ev)
  {
    match ev
    case Advance(to) => t.(now := to)
    case StartDriving(i) => t.(beats := t.beats[i := t.beats[i].(armed := Some(t.now))])
    case Act(act) =>
      var y' := Next(t.y, act);
      match act
      case BatchClaimed(_, now, claims) =>
        Timed(y', t.now, t.beats + seq(|claims|, k => Beat(now, None, None)))
      case Stepped(i, step) =>
        (match step
         case FireRenewal(_) => Timed(y', t.now, t.beats[i := t.beats[i].(fired := Some(t.now))])
         case ApplyRenewal(_) =>
           if t.beats[i].fired.Some? then
             Timed(y', t.now, t.beats[i := Beat(t.beats[i].fired.value, Some(t.now), None)])
           else Timed(y', t.now, t.beats)
         case _ => Timed(y', t.now, t.beats))
      case _ => Timed(y', t.now, t.beats)
  }

  /** The delays of the current round so far: before arming, and beyond the period since then. */
  function Lag(b: Beat, now: Time, leaseFor: nat): int {
    match b.armed
    case None => now - b.anchor
    case Some(armed) => (armed - b.anchor) + Max(0, now - armed - Period(leaseFor))
  }

  /** One execution keeps its delays below the bound; the clock is also away from its last instant. */
  ghost predicate Punctual(t: Timed, i: nat)
    requires |t.beats| == |t.y.execs|
  {
    i < |t.y.execs| && Live(t.y.execs[i]) ==>
      var leaseFor := t.y.execs[i].settings.leaseFor;
      Lag(t.beats[i], t.now, leaseFor) < leaseFor - Period(leaseFor) && t.now + leaseFor <= MAX_TIME
  }

  /** A driven execution holds its record, and the stored expiry runs from the anchor. */
  ghost predicate BeatOk(s: Store, e: Exec, b: Beat, now: Time) {
    && e.id in s.records
    && s.records[e.id].HeldBy(e.lease.token)
    && s.records[e.id].status.lease.worker == e.lease.worker
    && s.records[e.id].status.lease.until == AddTime(b.anchor, e.settings.leaseFor)
    && b.anchor <= now
    && (b.armed.Some? ==> b.anchor <= b.armed.value <= now)
    && (e.renewing.Some? <==> b.fired.Some?)
    && (b.fired.Some? ==>
         b.anchor <= b.fired.value <= now && e.renewing == Some(AddTime(b.fired.value, e.settings.leaseFor)))
  }

  ghost predicate NoSuccessor(execs: seq<Exec>, i: nat)
    requires i < |execs|
  {
    forall j :: i < j < |execs| ==> execs[j].id != execs[i].id
  }

  /** What a punctual execution keeps: its hold on the record, and that nobody was given the record since. */
  ghost predicate BeatHolds(t: Timed, i: nat)
    requires |t.beats| == |t.y.execs|
  {
    i < |t.y.execs| && Live(t.y.execs[i]) ==>
      BeatOk(t.y.store, t.y.execs[i], t.beats[i], t.now) && NoSuccessor(t.y.execs, i)
  }

  /** Within the lag bound the lease has not run out. */
  lemma LeaseOutlivesLag(s: Store, e: Exec, b: Beat, now: Time)
    requires BeatOk(s, e, b, now) && now + e.settings.leaseFor <= MAX_TIME
    requires Lag(b, now, e.settings.leaseFor) < e.settings.leaseFor - Period(e.settings.leaseFor)
    ensures s.records[e.id].status.Claimed? && now < s.records[e.id].status.lease.until
    ensures LeaseIsCurrent(s.records[e.id].status, e.lease, now)
  {
  }

  // --- one event, one execution ---

  /** A claim on the same clock cannot take a record whose lease has not run out. */
  lemma ClaimPassesHeldRecord(s: Store, worker: nat, now: Time, leaseFor: nat, limit: nat, id: nat)
    requires id in s.records && s.records[id].status.Claimed? && now < s.records[id].status.lease.until
    ensures id !in ReachedIds(s.records, now, limit)
    ensures ClaimDue(s, worker, now, leaseFor, limit).records[id] == s.records[id]
  {
  }

  lemma ClaimKeepsBeat(t: Timed, settings: Settings, now: Time, claims: seq<Claim>, i: nat)
    requires |t.beats| == |t.y.execs| && IndexOk(t.y.store) && i < |t.y.execs|
    requires TimedEnabled(t, Act(BatchClaimed(settings, now, claims)))
    requires Punctual(t, i) && BeatHolds(t, i)
    ensures BeatHolds(TimedNext(t, Act(BatchClaimed(settings, now, claims))), i)
  {
    var e, limit, n := t.y.execs[i], settings.maxInFlight, |t.y.execs|;
    if Live(e) {
      LeaseOutlivesLag(t.y.store, e, t.beats[i], t.now);
      ClaimPassesHeldRecord(t.y.store, settings.worker, now, settings.leaseFor, limit, e.id);
      forall k | 0 <= k < |claims| ensures claims[k].id != e.id {
        assert IsBatchEntry(t.y.store, settings.worker, now, settings.leaseFor, limit, k, claims[k]);
      }
    }
  }

  lemma ClaimMakesBeat(t: Timed, settings: Settings, now: Time, claims: seq<Claim>, i: nat)
    requires |t.beats| == |t.y.execs| && IndexOk(t.y.store) && i >= |t.y.execs|
    requires TimedEnabled(t, Act(BatchClaimed(settings, now, claims)))
    ensures BeatHolds(TimedNext(t, Act(BatchClaimed(settings, now, claims))), i)
  {
    var n, limit := |t.y.execs|, settings.maxInFlight;
    if i - n < |claims| {
      assert IsBatchEntry(t.y.store, settings.worker, now, settings.leaseFor, limit, i - n, claims[i - n]);
      forall m | i - n < m < |claims| ensures claims[m].id != claims[i - n].id {
        BatchPairInOrder(t.y.store, settings.worker, now, settings.leaseFor, limit, claims, i - n, m);
      }
    }
  }

  /** A live execution that does not end keeps its hold on the record; a renewal moves the anchor to its firing. */
  lemma StepKeepsOwnBeat(s: Store, e: Exec, b: Beat, step: Step, now: Time)
    requires Valid(s) && ExecOk(s, e) && CanStep(e, step) && BeatOk(s, e, b, now)
    requires LeaseIsCurrent(s.records[e.id].status, e.lease, now) && ReadsClock(step, now)
    requires step.FireRenewal? ==> step.until == AddTime(now, e.settings.leaseFor)
    ensures
      var (s', reply) := StoreStep(s, e, step);
      var e' := ExecStep(e, step, reply);
      Live(e') ==> BeatOk(s', e', StepBeat(b, step, now), now)
  {
  }

  /** The heartbeat after a step of its own execution. */
  function StepBeat(b: Beat, step: Step, now: Time): Beat {
    match step
    case FireRenewal(_) => b.(fired := Some(now))
    case ApplyRenewal(_) => if b.fired.Some? then Beat(b.fired.value, Some(now), None) else b
    case _ => b
  }

  /** An ended execution stays ended, and no step changes the record of an execution. */
  lemma StepKeepsIdentity(s: Store, e: Exec, step: Step)
    requires CanStep(e, step)
    ensures var e' := ExecStep(e, step, StoreStep(s, e, step).1); e'.id == e.id && (!Live(e) ==> !Live(e'))
  {
  }

  lemma OwnStepKeepsBeat(t: Timed, i: nat, step: Step)
    requires Valid(t.y.store) && |t.beats| == |t.y.execs| && TimedEnabled(t, Act(Stepped(i, step)))
    requires ExecOk(t.y.store, t.y.execs[i]) && Punctual(t, i) && BeatHolds(t, i)
    ensures BeatHolds(TimedNext(t, Act(Stepped(i, step))), i)
  {
    StepKeepsIdentity(t.y.store, t.y.execs[i], step);
    if Live(t.y.execs[i]) {
      LeaseOutlivesLag(t.y.store, t.y.execs[i], t.beats[i], t.now);
      StepKeepsOwnBeat(t.y.store, t.y.execs[i], t.beats[i], step, t.now);
    }
  }

  /** Whoever else steps carries another token, so the store refuses to touch the record. */
  lemma OtherStepMissesRecord(s: Store, e: Exec, step: Step, id: nat, token: nat)
    requires Valid(s) && ExecOk(s, e) && CanStep(e, step)
    requires id in s.records && s.records[id].HeldBy(token) && token != e.lease.token
    ensures var s' := StoreStep(s, e, step).0; id in s'.records && s'.records[id] == s.records[id]
  {
    StepOnRecord(s, e, step);
  }

  lemma OtherStepKeepsBeat(t: Timed, j: nat, step: Step, i: nat)
    requires Valid(t.y.store) && |t.beats| == |t.y.execs| && TimedEnabled(t, Act(Stepped(j, step)))
    requires i < |t.y.execs| && i != j && t.y.execs[i].lease.token != t.y.execs[j].lease.token
    requires ExecOk(t.y.store, t.y.execs[j]) && BeatHolds(t, i)
    ensures BeatHolds(TimedNext(t, Act(Stepped(j, step))), i)
  {
    StepKeepsIdentity(t.y.store, t.y.execs[j], step);
    if Live(t.y.execs[i]) {
      OtherStepMissesRecord(t.y.store, t.y.execs[j], step, t.y.execs[i].id, t.y.execs[i].lease.token);
    }
  }

  /** A new request, an armed failure, the passing of time and the arming of a timer touch no driven record. */
  lemma QuietKeepsBeat(t: Timed, ev: TimedEvent, i: nat)
    requires |t.beats| == |t.y.execs| && IndexOk(t.y.store) && TimedEnabled(t, ev) && i < |t.y.execs|
    requires ev.Act? ==> ev.ev.Enqueued? || ev.ev.Armed?
    requires BeatHolds(t, i)
    ensures BeatHolds(TimedNext(t, ev), i)
  {
  }

  lemma StepKeepsBeat(t: Timed, j: nat, step: Step, i: nat)
    requires Inv(t.y) && |t.beats| == |t.y.execs| && TimedEnabled(t, Act(Stepped(j, step)))
    requires i < |t.y.execs| && Punctual(t, i) && BeatHolds(t, i)
    ensures BeatHolds(TimedNext(t, Act(Stepped(j, step))), i)
  {
    assert ExecOk(t.y.store, t.y.execs[j]);
    if i == j {
      OwnStepKeepsBeat(t, i, step);
    } else {
      assert t.y.execs[i].lease.token != t.y.execs[j].lease.token;
      OtherStepKeepsBeat(t, j, step, i);
    }
  }

  // --- runs ---

  ghost predicate Shaped(t: Timed) {
    |t.beats| == |t.y.execs| && IndexOk(t.y.store)
  }

  lemma TimedNextKeepsShape(t: Timed, ev: TimedEvent)
    requires Shaped(t) && TimedEnabled(t, ev)
    ensures Shaped(TimedNext(t, ev)) && |t.y.execs| <= |TimedNext(t, ev).y.execs|
  {
    if ev.Act? {
      NextKeepsIndex(t.y, ev.ev);
    }
  }

  /** Every event, on every execution that is punctual at the time. */
  lemma TimedNextKeepsBeat(t: Timed, ev: TimedEvent, i: nat)
    requires Inv(t.y) && Shaped(t) && TimedEnabled(t, ev) && Punctual(t, i) && BeatHolds(t, i)
    ensures Shaped(TimedNext(t, ev)) && BeatHolds(TimedNext(t, ev), i)
  {
    TimedNextKeepsShape(t, ev);
    match ev
    case Act(BatchClaimed(settings, now, claims)) =>
      if i < |t.y.execs| {
        ClaimKeepsBeat(t, settings, now, claims, i);
      } else {
        ClaimMakesBeat(t, settings, now, claims, i);
      }
    case Act(Stepped(j, step)) =>
      if i < |t.y.execs| {
        StepKeepsBeat(t, j, step, i);
      }
    case _ =>
      if i < |t.y.execs| {
        QuietKeepsBeat(t, ev, i);
      }
  }

  lemma TimedNextKeepsInv(t: Timed, ev: TimedEvent)
    requires Inv(t.y) && Shaped(t) && TimedEnabled(t, ev)
    ensures Inv(TimedNext(t, ev).y)
  {
    if ev.Act? {
      NextKeepsInv(t.y, ev.ev);
    }
  }

  /** Whom a run is asked to be punctual: one execution, those of one record, or all. */
  datatype Watched = OneExecution(i: nat) | OneRecord(id: nat) | Everyone

  predicate Watches(t: Timed, w: Watched, i: nat) {
    match w
    case OneExecution(k) => i == k
    case OneRecord(id) => i < |t.y.execs| && t.y.execs[i].id == id
    case Everyone => true
  }

  /**
   A run in which the watched executions, from their claims on, are punctual in every state. The others may
   be late, hang or crash.
   */
  ghost predicate TimedRun(t: Timed, evs: seq<TimedEvent>, w: Watched)
    requires Shaped(t)
    decreases |evs|
  {
    && (forall i :: Watches(t, w, i) ==> Punctual(t, i))
    && (evs == [] ||
        (TimedEnabled(t, evs[0]) && (TimedNextKeepsShape(t, evs[0]); TimedRun(TimedNext(t, evs[0]), evs[1..], w))))
  }

  ghost function TimedAfter(t: Timed, evs: seq<TimedEvent>, w: Watched): (final: Timed)
    requires Shaped(t) && TimedRun(t, evs, w)
    ensures Shaped(final)
    decreases |evs|
  {
    if evs == [] then t else TimedNextKeepsShape(t, evs[0]); TimedAfter(TimedNext(t, evs[0]), evs[1..], w)
  }

  ghost function Beginning(now: Time): Timed {
    Timed(START, now, [])
  }

  /** Some run from an empty store, punctual for those watched, ends in `t`. */
  ghost predicate Reached(t: Timed, w: Watched) {
    exists now: Time, evs :: TimedRun(Beginning(now), evs, w) && TimedAfter(Beginning(now), evs, w) == t
  }

  lemma IdsStayStep(t: Timed, ev: TimedEvent, i: nat)
    requires Shaped(t) && TimedEnabled(t, ev) && i < |t.y.execs|
    ensures i < |TimedNext(t, ev).y.execs| && TimedNext(t, ev).y.execs[i].id == t.y.execs[i].id
  {
    if ev.Act? && ev.ev.Stepped? {
      StepKeepsIdentity(t.y.store, t.y.execs[ev.ev.i], ev.ev.step);
    }
  }

  lemma {:induction false} IdsStay(t: Timed, evs: seq<TimedEvent>, w: Watched, i: nat)
    requires Shaped(t) && TimedRun(t, evs, w) && i < |t.y.execs|
    ensures i < |TimedAfter(t, evs, w).y.execs| && TimedAfter(t, evs, w).y.execs[i].id == t.y.execs[i].id
    decreases |evs|
  {
    if evs != [] {
      TimedNextKeepsShape(t, evs[0]);
      IdsStayStep(t, evs[0], i);
      IdsStay(TimedNext(t, evs[0]), evs[1..], w, i);
    }
  }

  /** Whoever is watched at the end was watched, or not yet there, all along. */
  lemma {:induction false} WatchedThroughout(t: Timed, evs: seq<TimedEvent>, w: Watched, i: nat)
    requires Shaped(t) && TimedRun(t, evs, w) && Watches(TimedAfter(t, evs, w), w, i)
    ensures TimedRun(t, evs, OneExecution(i)) && TimedAfter(t, evs, OneExecution(i)) == TimedAfter(t, evs, w)
    decreases |evs|
  {
    if i < |t.y.execs| {
      IdsStay(t, evs, w, i);
      assert Watches(t, w, i);
    }
    if evs != [] {
      TimedNextKeepsShape(t, evs[0]);
      WatchedThroughout(TimedNext(t, evs[0]), evs[1..], w, i);
    }
  }

  lemma ReachedAlone(t: Timed, w: Watched, i: nat)
    requires Reached(t, w) && Watches(t, w, i)
    ensures Reached(t, OneExecution(i))
  {
    var now: Time, evs :| TimedRun(Beginning(now), evs, w) && TimedAfter(Beginning(now), evs, w) == t;
    WatchedThroughout(Beginning(now), evs, w, i);
  }

  lemma {:induction false} RunKeepsBeat(t: Timed, evs: seq<TimedEvent>, i: nat)
    requires Inv(t.y) && Shaped(t) && TimedRun(t, evs, OneExecution(i)) && BeatHolds(t, i)
    ensures
      var final := TimedAfter(t, evs, OneExecution(i));
      Inv(final.y) && BeatHolds(final, i) && Punctual(final, i)
    decreases |evs|
  {
    assert Watches(t, OneExecution(i), i);
    if evs != [] {
      TimedNextKeepsInv(t, evs[0]);
      TimedNextKeepsBeat(t, evs[0], i);
      RunKeepsBeat(TimedNext(t, evs[0]), evs[1..], i);
    }
  }

  lemma ReachedOk(t: Timed, i: nat)
    requires Reached(t, OneExecution(i))
    ensures Inv(t.y) && Shaped(t) && BeatHolds(t, i) && Punctual(t, i)
  {
    var now: Time, evs :|
      TimedRun(Beginning(now), evs, OneExecution(i)) && TimedAfter(Beginning(now), evs, OneExecution(i)) == t;
    RunKeepsBeat(Beginning(now), evs, i);
  }

  // --- one punctual execution among arbitrary others ---

  /**
   An execution that is punctual from its claim on holds its lease at every instant, whatever every other
   execution does: the lease is current, no claim on the clock can take the record, nobody has been given
   the record since, and the pending renewal succeeds. Its lease is necessarily over a millisecond.
   */
  lemma PunctualExecutionKeepsLease(t: Timed, i: nat)
    requires Reached(t, OneExecution(i)) && i < |t.y.execs| && Live(t.y.execs[i])
    ensures t.y.execs[i].id in t.y.store.records
    ensures LeaseIsCurrent(t.y.store.records[t.y.execs[i].id].status, t.y.execs[i].lease, t.now)
    ensures forall limit: nat, at: Time {:trigger ReachedIds(t.y.store.records, at, limit)} ::
      at <= t.now ==> t.y.execs[i].id !in ReachedIds(t.y.store.records, at, limit)
    ensures NoSuccessor(t.y.execs, i)
    ensures t.y.execs[i].renewing.Some? ==>
      Next(t.y, Stepped(i, ApplyRenewal(t.now))).execs[i].phase == t.y.execs[i].phase
    ensures t.y.execs[i].settings.leaseFor > MILLISECOND
  {
    ReachedOk(t, i);
    LeaseOutlivesLag(t.y.store, t.y.execs[i], t.beats[i], t.now);
    HeldRecordIsPassed(t.y.store, t.y.execs[i].id, t.now);
    LagIsNotNegative(t.y.store, t.y.execs[i], t.beats[i], t.now);
    if t.y.execs[i].renewing.Some? {
      RenewalSucceeds(t.y, i, t.now);
    }
  }

  lemma HeldRecordIsPassed(s: Store, id: nat, now: Time)
    requires id in s.records && s.records[id].status.Claimed? && now < s.records[id].status.lease.until
    ensures forall limit: nat, at: Time {:trigger ReachedIds(s.records, at, limit)} ::
      at <= now ==> id !in ReachedIds(s.records, at, limit)
  {
    forall limit: nat, at: Time | at <= now ensures id !in ReachedIds(s.records, at, limit) {
      ClaimPassesHeldRecord(s, 0, at, 0, limit, id);
    }
  }

  lemma RenewalSucceeds(y: System, i: nat, now: Time)
    requires IndexOk(y.store) && i < |y.execs| && Live(y.execs[i]) && y.execs[i].renewing.Some?
    requires y.execs[i].id in y.store.records
    requires LeaseIsCurrent(y.store.records[y.execs[i].id].status, y.execs[i].lease, now)
    ensures Next(y, Stepped(i, ApplyRenewal(now))).execs[i].phase == y.execs[i].phase
  {
  }

  lemma LagIsNotNegative(s: Store, e: Exec, b: Beat, now: Time)
    requires BeatOk(s, e, b, now)
    ensures Lag(b, now, e.settings.leaseFor) >= 0
  {
  }

  /** And no step of any other execution changes its record. */
  lemma PunctualExecutionIsUndisturbed(t: Timed, i: nat, j: nat, step: Step)
    requires Reached(t, OneExecution(i)) && i < |t.y.execs| && Live(t.y.execs[i])
    requires j != i && Enabled(t.y, Stepped(j, step))
    ensures t.y.execs[i].id in t.y.store.records && t.y.execs[i].id in Next(t.y, Stepped(j, step)).store.records
    ensures Next(t.y, Stepped(j, step)).store.records[t.y.execs[i].id] == t.y.store.records[t.y.execs[i].id]
  {
    ReachedOk(t, i);
    assert ExecOk(t.y.store, t.y.execs[j]);
    assert t.y.execs[i].lease.token != t.y.execs[j].lease.token;
    StepOnRecord(t.y.store, t.y.execs[j], step);
  }

  /** If the executions of one record are punctual, no two of them are live together: nor are two executors. */
  lemma PunctualRecordHasOneExecution(t: Timed, id: nat, i: nat, j: nat)
    requires Reached(t, OneRecord(id)) && i < |t.y.execs| && j < |t.y.execs|
    requires t.y.execs[i].id == id && t.y.execs[j].id == id && Live(t.y.execs[i]) && Live(t.y.execs[j])
    ensures i == j
  {
    ReachedAlone(t, OneRecord(id), i);
    ReachedAlone(t, OneRecord(id), j);
    PunctualExecutionKeepsLease(t, i);
    PunctualExecutionKeepsLease(t, j);
  }

  /** With everyone punctual: every driven lease is current, and every driven record has one driver. */
  lemma TimedMutualExclusion(t: Timed)
    requires Reached(t, Everyone)
    ensures forall i :: 0 <= i < |t.y.execs| && Live(t.y.execs[i]) ==>
      && t.y.execs[i].id in t.y.store.records
      && LeaseIsCurrent(t.y.store.records[t.y.execs[i].id].status, t.y.execs[i].lease, t.now)
    ensures forall i, j :: 0 <= i < j < |t.y.execs| && Live(t.y.execs[i]) && Live(t.y.execs[j]) ==>
      t.y.execs[i].id != t.y.execs[j].id
  {
    forall i | 0 <= i < |t.y.execs| && Live(t.y.execs[i])
      ensures t.y.execs[i].id in t.y.store.records
      ensures LeaseIsCurrent(t.y.store.records[t.y.execs[i].id].status, t.y.execs[i].lease, t.now)
      ensures NoSuccessor(t.y.execs, i)
    {
      ReachedAlone(t, Everyone, i);
      PunctualExecutionKeepsLease(t, i);
    }
  }

  // --- the bound is exact ---

  /** Once its timer is due, the lease runs out exactly when the lag reaches the bound. */
  lemma OverdueLease(s: Store, e: Exec, b: Beat, now: Time, to: Time)
    requires BeatOk(s, e, b, now) && to + e.settings.leaseFor <= MAX_TIME
    requires b.armed.Some? && b.armed.value + Period(e.settings.leaseFor) <= to
    ensures to < s.records[e.id].status.lease.until
      <==> Lag(b, to, e.settings.leaseFor) < e.settings.leaseFor - Period(e.settings.leaseFor)
  {
  }

  /** The execution was punctual up to `t`; at `to` its heartbeat timer is due. */
  ghost predicate Overdue(t: Timed, i: nat, to: Time) {
    && Reached(t, OneExecution(i)) && t.now <= to
    && i < |t.y.execs| == |t.beats| && Live(t.y.execs[i])
    && to + t.y.execs[i].settings.leaseFor <= MAX_TIME
    && t.beats[i].armed.Some?
    && t.beats[i].armed.value + Period(t.y.execs[i].settings.leaseFor) <= to
  }

  /**
   Let time pass after a run in which one execution was punctual, to any later instant. Once its timer is
   due, its lease is current if and only if the lag is below the bound.
   */
  lemma OverdueLeaseCurrentIffWithinLag(t: Timed, to: Time, i: nat)
    requires Overdue(t, i, to)
    ensures t.y.execs[i].id in t.y.store.records
    ensures
      var e := t.y.execs[i];
      LeaseIsCurrent(t.y.store.records[e.id].status, e.lease, to) <==>
      Lag(t.beats[i], to, e.settings.leaseFor) < e.settings.leaseFor - Period(e.settings.leaseFor)
  {
    ReachedOk(t, i);
    OverdueLease(t.y.store, t.y.execs[i], t.beats[i], t.now, to);
  }

  /** After the event a later execution drives the record of execution `i` as well. */
  ghost predicate SecondExecution(y: System, i: nat, ev: Event)
    requires IndexOk(y.store) && Enabled(y, ev) && i < |y.execs|
  {
    var execs := Next(y, ev).execs;
    exists j :: i < j < |execs| && execs[j].id == y.execs[i].id && execs[i] == y.execs[i] && Live(execs[j])
  }

  /** A claim takes a due record with attempts left, unless its batch fills up first. */
  lemma DueRecordGetsExecution(y: System, i: nat, settings: Settings, to: Time, claims: seq<Claim>)
    requires IndexOk(y.store) && Enabled(y, BatchClaimed(settings, to, claims)) && i < |y.execs|
    requires y.execs[i].id in y.store.records
    requires y.store.records[y.execs[i].id].Due(to) && !y.store.records[y.execs[i].id].Spent()
    ensures |claims| == settings.maxInFlight || SecondExecution(y, i, BatchClaimed(settings, to, claims))
  {
    if |claims| != settings.maxInFlight {
      BatchIsFirstInOrder(y.store, settings.worker, to, settings.leaseFor, settings.maxInFlight, claims);
      var k :| 0 <= k < |claims| && claims[k].id == y.execs[i].id;
      ClaimedIsDriven(y, i, settings, to, claims, k);
    }
  }

  lemma ClaimedIsDriven(y: System, i: nat, settings: Settings, to: Time, claims: seq<Claim>, k: nat)
    requires IndexOk(y.store) && Enabled(y, BatchClaimed(settings, to, claims)) && i < |y.execs|
    requires k < |claims| && claims[k].id == y.execs[i].id
    ensures SecondExecution(y, i, BatchClaimed(settings, to, claims))
  {
    assert Next(y, BatchClaimed(settings, to, claims)).execs[|y.execs| + k] == NewExec(claims[k], settings);
  }

  lemma LeaseRanOut(t: Timed, to: Time, i: nat)
    requires Overdue(t, i, to)
    requires Lag(t.beats[i], to, t.y.execs[i].settings.leaseFor)
      >= t.y.execs[i].settings.leaseFor - Period(t.y.execs[i].settings.leaseFor)
    ensures t.y.execs[i].id in t.y.store.records
    ensures var r := t.y.store.records[t.y.execs[i].id]; r.status.Claimed? && r.status.lease.until <= to
  {
    ReachedOk(t, i);
    OverdueLease(t.y.store, t.y.execs[i], t.beats[i], t.now, to);
  }

  /**
   Beyond the bound the record is up for grabs: a claim takes it, unless its batch fills up first, and then
   a second live execution drives it.
   */
  lemma LateHeartbeatAdmitsSecondExecution(t: Timed, to: Time, i: nat, settings: Settings, claims: seq<Claim>)
    requires Overdue(t, i, to)
    requires Lag(t.beats[i], to, t.y.execs[i].settings.leaseFor)
      >= t.y.execs[i].settings.leaseFor - Period(t.y.execs[i].settings.leaseFor)
    requires IndexOk(t.y.store) && Enabled(t.y, BatchClaimed(settings, to, claims))
    requires t.y.execs[i].id in t.y.store.records
    requires var r := t.y.store.records[t.y.execs[i].id]; r.request.availableAt <= to && !r.Spent()
    ensures |claims| == settings.maxInFlight || SecondExecution(t.y, i, BatchClaimed(settings, to, claims))
  {
    LeaseRanOut(t, to, i);
    DueRecordGetsExecution(t.y, i, settings, to, claims);
  }
}
