/**
 The saturation monitor of the throttle adaptor: requests and monitor tasks around their shared state, as
 one step relation. A slot of the semaphore, the flag, the freeze deadline and the notification clock are
 each touched by one access per step.
 */
module Saturation {
  import opened Basics
  import opened ThrottleState

  /** The monitor sleeps a little longer than the delay between firings. */
  const SATURATION_CHECK_PERIOD: nat := 4_001_000_000

  // --- requests and monitors ---

  datatype RequestPc =
    | Queued                     // waiting for a slot
    | Taken                      // has a slot, has not looked at the semaphore
    | Enqueuing(wasLast: bool)
    | Reporting                  // accepted, took the last slot: the freeze is next
    | Notifying
    | Deferring
    | Ensuring                   // `ensure_saturation_monitor`: the swap is next
    | Spawning                   // the flag was down: the spawn is next
    | Pending
    | Closing                    // the grant failed: the slot is dropped next
    | Running
    | Done

  datatype MonitorPc =
    | Starting
    | Sleeping(wake: Instant)
    | Thawed                     // the deferred event is next
    | Asking                     // is the actor alive?
    | Reviving                   // the deferred event fires
    | Probing                    // the semaphore is next
    | Refiring
    | Holding                    // got a slot: the flag is cleared next
    | Cleared                    // the slot is released next
    | Dying                      // the actor is dead: the flag is cleared next
    | Gone

  /** The request occupies a slot. */
  predicate HoldsSlot(r: RequestPc) {
    !r.Queued? && !r.Running? && !r.Done?
  }

  /** The request will look at the semaphore, or has seen it empty and will call for a monitor. */
  predicate WillEnsure(r: RequestPc) {
    r.Taken? || (r.Enqueuing? && r.wasLast) || r.Reporting? || r.Notifying? || r.Deferring? || r.Ensuring?
  }

  predicate IsSpawning(r: RequestPc) {
    r.Spawning?
  }

  predicate HoldsProbe(m: MonitorPc) {
    m.Holding? || m.Cleared?
  }

  /** The monitor runs and has not given up its flag. */
  predicate IsWatching(m: MonitorPc) {
    !m.Cleared? && !m.Gone?
  }

  /** `firings` and `recorded` are history: the times of the callbacks and every freeze deadline. */
  datatype Sys = Sys(
    capacity: pos,
    shared: Shared,
    alive: bool,
    requests: seq<RequestPc>,
    monitors: seq<MonitorPc>,
    now: Instant,
    firings: seq<Instant>,
    recorded: set<Instant>)

  function Initial(capacity: pos, now: Instant): Sys {
    Sys(capacity, Fresh(capacity, now), true, [], [], now, [], {})
  }

  datatype Event =
    | Arrive
    | Acquire(i: nat)
    | Look(i: nat)                               // was it the last slot?
    | Accept(i: nat)                             // a refusal for lack of room only retries
    | EnqueueFails(i: nat)
    | Report(i: nat, reading: Instant)
    | Notify(i: nat, reading: Instant, later: Instant)
    | Defer(i: nat)
    | Ensure(i: nat)
    | Spawn(i: nat)
    | Grant(i: nat)
    | GrantFails(i: nat)
    | Close(i: nat)
    | DropRequest(i: nat)                        // at an await, or with a slot handed over but not seen
    | Freeze(i: nat, observed: Instant, duration: nat)
    | Retry(i: nat)
    | Finish(i: nat)
    | ActorDies
    | Sleep(k: nat, reading: Instant)
    | Wake(k: nat, reading: Instant)
    | TakeDeferred(k: nat)
    | Answer(k: nat, reached: bool)
    | Revive(k: nat, reading: Instant, later: Instant)
    | Probe(k: nat)
    | Refire(k: nat, reading: Instant, later: Instant)
    | ClearFlag(k: nat)
    | Release(k: nat)
    | ClearDead(k: nat)

  predicate Enabled(s: Sys, e: Event) {
    match e
    case Arrive => true
    case Acquire(i) => i < |s.requests| && s.requests[i].Queued? && s.shared.available > 0
    case Look(i) => i < |s.requests| && s.requests[i].Taken?
    case Accept(i) => i < |s.requests| && s.requests[i].Enqueuing? && s.alive
    case EnqueueFails(i) => i < |s.requests| && s.requests[i].Enqueuing?
    case Report(i, reading) => i < |s.requests| && s.requests[i].Reporting? && s.now <= reading
    case Notify(i, reading, later) => i < |s.requests| && s.requests[i].Notifying? && s.now <= reading <= later
    case Defer(i) => i < |s.requests| && s.requests[i].Deferring?
    case Ensure(i) => i < |s.requests| && s.requests[i].Ensuring?
    case Spawn(i) => i < |s.requests| && s.requests[i].Spawning?
    case Grant(i) => i < |s.requests| && s.requests[i].Pending?
    case GrantFails(i) => i < |s.requests| && s.requests[i].Pending?
    case Close(i) => i < |s.requests| && s.requests[i].Closing?
    case DropRequest(i) => i < |s.requests|
      && (s.requests[i].Queued? || s.requests[i].Taken? || s.requests[i].Enqueuing? || s.requests[i].Pending?
        || s.requests[i].Running?)
    case Freeze(i, observed, duration) => i < |s.requests| && s.requests[i].Running? && observed <= s.now
    case Retry(i) => i < |s.requests| && s.requests[i].Running?
    case Finish(i) => i < |s.requests| && s.requests[i].Running?
    case ActorDies => true
    case Sleep(k, reading) => k < |s.monitors| && s.monitors[k].Starting? && s.now <= reading
    case Wake(k, reading) => k < |s.monitors| && s.monitors[k].Sleeping? && s.monitors[k].wake <= reading
      && s.now <= reading
    case TakeDeferred(k) => k < |s.monitors| && s.monitors[k].Thawed?
    case Answer(k, reached) => k < |s.monitors| && s.monitors[k].Asking? && (reached || !s.alive)
    case Revive(k, reading, later) => k < |s.monitors| && s.monitors[k].Reviving? && s.now <= reading <= later
    case Probe(k) => k < |s.monitors| && s.monitors[k].Probing?
    case Refire(k, reading, later) => k < |s.monitors| && s.monitors[k].Refiring? && s.now <= reading <= later
    case ClearFlag(k) => k < |s.monitors| && s.monitors[k].Holding?
    case Release(k) => k < |s.monitors| && s.monitors[k].Cleared?
    case ClearDead(k) => k < |s.monitors| && s.monitors[k].Dying?
  }

  function Move(s: Sys, i: nat, pc: RequestPc): Sys
    requires i < |s.requests|
  {
    s.(requests := s.requests[i := pc])
  }

  function Step(s: Sys, k: nat, pc: MonitorPc): Sys
    requires k < |s.monitors|
  {
    s.(monitors := s.monitors[k := pc])
  }

  function Freed(s: Sys): Sys {
    s.(shared := s.shared.(available := s.shared.available + 1))
  }

  function Tried(s: Sys): Sys
    requires s.shared.available > 0
  {
    s.(shared := s.shared.(available := s.shared.available - 1))
  }

  function Fired(s: Sys, reading: Instant, later: Instant): Sys {
    s.(shared := Notified(s.shared, reading, later),
       now := if MayFire(s.shared.last, reading) then later else reading,
       firings := s.firings + Firings(s.shared, reading, later))
  }

  function Flag(s: Sys, up: bool): Sys {
    s.(shared := s.shared.(active := up))
  }

  function MarkDeferred(s: Sys, due: bool): Sys {
    s.(shared := s.shared.(deferred := due))
  }

  function Next(s: Sys, e: Event): Sys
    requires Enabled(s, e)
  {
    match e
    case Arrive => s.(requests := s.requests + [Queued])
    case Acquire(i) => Move(Tried(s), i, Taken)
    case Look(i) => Move(s, i, Enqueuing(s.shared.available == 0))
    case Accept(i) => Move(s, i, if s.requests[i].wasLast then Reporting else Pending)
    case EnqueueFails(i) => Move(Freed(s), i, Done)
    case Report(i, reading) =>
      Move(s.(now := reading), i, if Frozen(s.shared.freeze, reading) then Deferring else Notifying)
    case Notify(i, reading, later) => Move(Fired(s, reading, later), i, Ensuring)
    case Defer(i) => Move(MarkDeferred(s, true), i, Ensuring)
    case Ensure(i) => Move(Flag(s, true), i, if s.shared.active then Pending else Spawning)
    case Spawn(i) => Move(s.(monitors := s.monitors + [Starting]), i, Pending)
    case Grant(i) => Move(Freed(s), i, Running)
    case GrantFails(i) => Move(MarkDeferred(s, false), i, Closing)
    case Close(i) => Move(Freed(s), i, Done)
    case DropRequest(i) => Move(if HoldsSlot(s.requests[i]) then Freed(s) else s, i, Done)
    case Freeze(i, observed, duration) =>
      s.(shared := s.shared.(freeze := Later(s.shared.freeze, observed + duration)),
        recorded := s.recorded + {observed + duration})
    case Retry(i) => Move(s, i, Queued)
    case Finish(i) => Move(s, i, Done)
    case ActorDies => s.(alive := false)
    case Sleep(k, reading) =>
      var wake := if Frozen(s.shared.freeze, reading) then s.shared.freeze.value + MILLISECOND
        else reading + SATURATION_CHECK_PERIOD;
      Step(s.(now := reading), k, Sleeping(wake))
    case Wake(k, reading) => Step(s.(now := reading), k, if Frozen(s.shared.freeze, reading) then Starting else Thawed)
    case TakeDeferred(k) => Step(MarkDeferred(s, false), k, if s.shared.deferred then Asking else Probing)
    case Answer(k, reached) => Step(s, k, if reached then Reviving else Dying)
    case Revive(k, reading, later) => Step(Fired(s, reading, later), k, Probing)
    case Probe(k) => if s.shared.available > 0 then Step(Tried(s), k, Holding) else Step(s, k, Refiring)
    case Refire(k, reading, later) => Step(Fired(s, reading, later), k, Starting)
    case ClearFlag(k) => Step(Flag(s, false), k, Cleared)
    case Release(k) => Step(Freed(s), k, Gone)
    case ClearDead(k) => Step(Flag(s, false), k, Gone)
  }

  // --- counting ---

  function Count<T>(items: seq<T>, p: T -> bool): nat {
    if items == [] then 0 else (if p(items[0]) then 1 else 0) + Count(items[1..], p)
  }

  lemma {:induction false} CountUpdate<T>(items: seq<T>, i: nat, x: T, p: T -> bool)
    requires i < |items|
    ensures Count(items[i := x], p) == Count(items, p) - (if p(items[i]) then 1 else 0) + (if p(x) then 1 else 0)
  {
    if i == 0 {
      assert items[i := x][1..] == items[1..];
    } else {
      assert items[i := x][1..] == items[1..][i - 1 := x];
      CountUpdate(items[1..], i - 1, x, p);
    }
  }

  lemma {:induction false} CountAppend<T>(items: seq<T>, x: T, p: T -> bool)
    ensures Count(items + [x], p) == Count(items, p) + (if p(x) then 1 else 0)
  {
    if items == [] {
      assert items + [x] == [x];
    } else {
      assert (items + [x])[1..] == items[1..] + [x];
      CountAppend(items[1..], x, p);
    }
  }

  lemma {:induction false} CountFinds<T>(items: seq<T>, p: T -> bool)
    ensures Count(items, p) == 0 <==> forall i :: 0 <= i < |items| ==> !p(items[i])
  {
    if items != [] {
      CountFinds(items[1..], p);
      assert items == [items[0]] + items[1..];
    }
  }

  lemma {:induction false} CountOne<T>(items: seq<T>, p: T -> bool, i: nat, k: nat)
    requires Count(items, p) == 1 && i < |items| && k < |items| && p(items[i]) && p(items[k])
    ensures i == k
  {
    CountFinds(items[1..], p);
    if i > 0 && k > 0 {
      CountOne(items[1..], p, i - 1, k - 1);
    }
  }

  // --- the invariant ---

  /** Every slot is free, with a request, or with a monitor that is giving it back. */
  predicate SlotsOk(s: Sys) {
    s.shared.available + Count(s.requests, HoldsSlot) + Count(s.monitors, HoldsProbe) == s.capacity
  }

  /** The flag is up exactly while one monitor watches, or is about to be spawned. */
  predicate FlagOk(s: Sys) {
    Count(s.requests, IsSpawning) + Count(s.monitors, IsWatching) == if s.shared.active then 1 else 0
  }

  /** A full backlog of requests is watched, or someone is on the way to see to it. */
  predicate WatchOk(s: Sys) {
    s.alive && s.shared.available == 0 && Count(s.monitors, HoldsProbe) == 0 && !s.shared.active ==>
      Count(s.requests, WillEnsure) > 0
  }

  /** A dying monitor has heard that the actor is dead. */
  predicate DyingOk(s: Sys) {
    forall k :: 0 <= k < |s.monitors| && s.monitors[k].Dying? ==> !s.alive
  }

  ghost predicate ClockOk(s: Sys) {
    && s.shared.last <= s.now
    && (forall i :: 0 <= i < |s.firings| ==> s.firings[i] <= s.shared.last)
    && (forall i, k :: 0 <= i < k < |s.firings| ==> s.firings[k] - s.firings[i] > QUEUE_FULL_DELAY)
  }

  ghost predicate FreezeOk(s: Sys) {
    && (s.shared.freeze.None? <==> s.recorded == {})
    && (s.shared.freeze.Some? ==>
         s.shared.freeze.value in s.recorded && forall t :: t in s.recorded ==> t <= s.shared.freeze.value)
  }

  ghost predicate Inv(s: Sys) {
    CountsOk(s) && ClockOk(s) && FreezeOk(s)
  }

  predicate OfMonitor(e: Event) {
    e.Sleep? || e.Wake? || e.TakeDeferred? || e.Answer? || e.Revive? || e.Probe? || e.Refire? || e.ClearFlag?
      || e.Release? || e.ClearDead?
  }

  lemma RequestCounts(s: Sys, i: nat, pc: RequestPc)
    requires i < |s.requests|
    ensures
      var before, after := s.requests, s.requests[i := pc];
      && Count(after, HoldsSlot)
        == Count(before, HoldsSlot) - (if HoldsSlot(before[i]) then 1 else 0) + (if HoldsSlot(pc) then 1 else 0)
      && Count(after, IsSpawning)
        == Count(before, IsSpawning) - (if IsSpawning(before[i]) then 1 else 0) + (if IsSpawning(pc) then 1 else 0)
      && Count(after, WillEnsure)
        == Count(before, WillEnsure) - (if WillEnsure(before[i]) then 1 else 0) + (if WillEnsure(pc) then 1 else 0)
  {
    CountUpdate(s.requests, i, pc, HoldsSlot);
    CountUpdate(s.requests, i, pc, IsSpawning);
    CountUpdate(s.requests, i, pc, WillEnsure);
  }

  lemma MonitorCounts(s: Sys, k: nat, pc: MonitorPc)
    requires k < |s.monitors|
    ensures
      var before, after := s.monitors, s.monitors[k := pc];
      && Count(after, HoldsProbe)
        == Count(before, HoldsProbe) - (if HoldsProbe(before[k]) then 1 else 0) + (if HoldsProbe(pc) then 1 else 0)
      && Count(after, IsWatching)
        == Count(before, IsWatching) - (if IsWatching(before[k]) then 1 else 0) + (if IsWatching(pc) then 1 else 0)
  {
    CountUpdate(s.monitors, k, pc, HoldsProbe);
    CountUpdate(s.monitors, k, pc, IsWatching);
  }

  lemma FireKeepsClock(s: Sys, reading: Instant, later: Instant)
    requires ClockOk(s) && s.now <= reading <= later
    ensures ClockOk(Fired(s, reading, later))
  {
  }

  predicate IsFiring(e: Event) {
    e.Notify? || e.Revive? || e.Refire?
  }

  lemma ClockOf(s: Sys, e: Event)
    requires Enabled(s, e)
    ensures
      var s1 := if IsFiring(e) then Fired(s, e.reading, e.later) else Next(s, e);
      && s.now <= s1.now && Next(s, e).now == s1.now
      && Next(s, e).shared.last == s1.shared.last && Next(s, e).firings == s1.firings
      && (!IsFiring(e) ==> s1.shared.last == s.shared.last && s1.firings == s.firings)
  {
  }

  lemma ClockKept(s: Sys, e: Event)
    requires Enabled(s, e) && ClockOk(s)
    ensures ClockOk(Next(s, e))
  {
    ClockOf(s, e);
    if IsFiring(e) {
      FireKeepsClock(s, e.reading, e.later);
    }
  }

  lemma RequestLeavesFreeze(s: Sys, e: Event)
    requires Enabled(s, e) && !e.Freeze? && !OfMonitor(e)
    ensures Next(s, e).shared.freeze == s.shared.freeze && Next(s, e).recorded == s.recorded
  {
  }

  lemma MonitorLeavesFreeze(s: Sys, e: Event)
    requires Enabled(s, e) && OfMonitor(e)
    ensures Next(s, e).shared.freeze == s.shared.freeze && Next(s, e).recorded == s.recorded
  {
  }

  lemma FreezeRecorded(s: Sys, i: nat, observed: Instant, duration: nat)
    requires Enabled(s, Freeze(i, observed, duration)) && FreezeOk(s)
    ensures FreezeOk(Next(s, Freeze(i, observed, duration)))
  {
  }

  lemma FreezeKept(s: Sys, e: Event)
    requires Enabled(s, e) && FreezeOk(s)
    ensures FreezeOk(Next(s, e))
  {
    if e.Freeze? {
      FreezeRecorded(s, e.i, e.observed, e.duration);
    } else if OfMonitor(e) {
      MonitorLeavesFreeze(s, e);
    } else {
      RequestLeavesFreeze(s, e);
    }
  }

  predicate CountsOk(s: Sys) {
    SlotsOk(s) && FlagOk(s) && WatchOk(s) && DyingOk(s)
  }

  function One(b: bool): nat {
    if b then 1 else 0
  }

  /** What a request may do to the slots and the flag when it moves from one place to another. */
  predicate GoodMove(before: Shared, from: RequestPc, after: Shared, to: RequestPc) {
    && after.available + One(HoldsSlot(to)) == before.available + One(HoldsSlot(from))
    && One(after.active) + One(IsSpawning(from)) == One(before.active) + One(IsSpawning(to))
    && (after.available == 0 && !after.active && WillEnsure(from) ==> WillEnsure(to))
    && (after.available == 0 && !after.active && !WillEnsure(to) ==> before.available == 0 && !before.active)
  }

  lemma MoveKeepsCounts(s: Sys, s1: Sys, i: nat)
    requires CountsOk(s) && i < |s.requests| && i < |s1.requests| && s1.requests == s.requests[i := s1.requests[i]]
    requires s1 == s.(requests := s1.requests, shared := s1.shared, now := s1.now, firings := s1.firings)
    requires GoodMove(s.shared, s.requests[i], s1.shared, s1.requests[i])
    ensures CountsOk(s1)
  {
    RequestCounts(s, i, s1.requests[i]);
  }

  /** What a monitor may do. */
  predicate GoodStep(alive: bool, before: Shared, from: MonitorPc, after: Shared, to: MonitorPc) {
    && after.available + One(HoldsProbe(to)) == before.available + One(HoldsProbe(from))
    && One(after.active) + One(IsWatching(from)) == One(before.active) + One(IsWatching(to))
    && (to.Dying? && !from.Dying? ==> !alive)
    && (alive && after.available == 0 && !after.active && !HoldsProbe(to) ==>
      before.available == 0 && !before.active && !HoldsProbe(from))
  }

  lemma StepKeepsCounts(s: Sys, s1: Sys, k: nat)
    requires CountsOk(s) && k < |s.monitors| && k < |s1.monitors| && s1.monitors == s.monitors[k := s1.monitors[k]]
    requires s1 == s.(monitors := s1.monitors, shared := s1.shared, now := s1.now, firings := s1.firings)
    requires GoodStep(s.alive, s.shared, s.monitors[k], s1.shared, s1.monitors[k])
    ensures CountsOk(s1)
  {
    MonitorCounts(s, k, s1.monitors[k]);
    CountFinds(s1.monitors, HoldsProbe);
  }

  lemma SpawnKeepsCounts(s: Sys, i: nat)
    requires CountsOk(s) && Enabled(s, Spawn(i))
    ensures CountsOk(Next(s, Spawn(i)))
  {
    RequestCounts(s, i, Pending);
    CountAppend(s.monitors, Starting, HoldsProbe);
    CountAppend(s.monitors, Starting, IsWatching);
  }

  lemma ArriveKeepsCounts(s: Sys)
    requires CountsOk(s)
    ensures CountsOk(Next(s, Arrive))
  {
    CountAppend(s.requests, Queued, HoldsSlot);
    CountAppend(s.requests, Queued, IsSpawning);
    CountAppend(s.requests, Queued, WillEnsure);
  }

  predicate OfRequest(e: Event) {
    !OfMonitor(e) && !e.Arrive? && !e.Spawn? && !e.Freeze? && !e.ActorDies?
  }

  ghost predicate MovesWell(s: Sys, s1: Sys, i: nat) {
    && i < |s.requests| == |s1.requests| && s1.requests == s.requests[i := s1.requests[i]]
    && s1 == s.(requests := s1.requests, shared := s1.shared, now := s1.now, firings := s1.firings)
    && GoodMove(s.shared, s.requests[i], s1.shared, s1.requests[i])
  }

  /** On the way in, up to the call for a monitor. */
  predicate ComesIn(e: Event) {
    e.Acquire? || e.Look? || e.Accept? || e.Report? || e.Notify? || e.Defer? || e.Ensure?
  }

  lemma ArrivalsMoveWell(s: Sys, e: Event)
    requires Enabled(s, e) && ComesIn(e)
    ensures MovesWell(s, Next(s, e), e.i)
  {
  }

  lemma DeparturesMoveWell(s: Sys, e: Event)
    requires Enabled(s, e) && OfRequest(e) && !ComesIn(e)
    ensures MovesWell(s, Next(s, e), e.i)
  {
  }

  ghost predicate StepsWell(s: Sys, s1: Sys, k: nat) {
    && k < |s.monitors| == |s1.monitors| && s1.monitors == s.monitors[k := s1.monitors[k]]
    && s1 == s.(monitors := s1.monitors, shared := s1.shared, now := s1.now, firings := s1.firings)
    && GoodStep(s.alive, s.shared, s.monitors[k], s1.shared, s1.monitors[k])
  }

  /** The monitor watches, before and after. */
  predicate GoesOn(e: Event) {
    e.Sleep? || e.Wake? || e.TakeDeferred? || e.Answer? || e.Revive? || e.Refire?
  }

  lemma FiringStepsWell(s: Sys, e: Event)
    requires Enabled(s, e) && (e.Revive? || e.Refire?)
    ensures StepsWell(s, Next(s, e), e.k)
  {
  }

  lemma QuietStepsWell(s: Sys, e: Event)
    requires Enabled(s, e) && (e.Sleep? || e.Wake? || e.TakeDeferred? || e.Answer?)
    ensures StepsWell(s, Next(s, e), e.k)
  {
  }

  lemma WatchStepsWell(s: Sys, e: Event)
    requires Enabled(s, e) && GoesOn(e)
    ensures StepsWell(s, Next(s, e), e.k)
  {
    if e.Revive? || e.Refire? { FiringStepsWell(s, e); } else { QuietStepsWell(s, e); }
  }

  lemma ExitStepsWell(s: Sys, e: Event)
    requires Enabled(s, e) && OfMonitor(e) && !GoesOn(e) && DyingOk(s)
    requires e.ClearFlag? || e.ClearDead? ==> s.shared.active
    ensures StepsWell(s, Next(s, e), e.k)
  {
  }

  lemma MonitorKeepsCounts(s: Sys, e: Event)
    requires CountsOk(s) && Enabled(s, e) && OfMonitor(e)
    ensures CountsOk(Next(s, e))
  {
    CountFinds(s.monitors, IsWatching);
    if GoesOn(e) { WatchStepsWell(s, e); } else { ExitStepsWell(s, e); }
    StepKeepsCounts(s, Next(s, e), e.k);
  }

  lemma RequestKeepsCounts(s: Sys, e: Event)
    requires CountsOk(s) && Enabled(s, e) && OfRequest(e)
    ensures CountsOk(Next(s, e))
  {
    if ComesIn(e) { ArrivalsMoveWell(s, e); } else { DeparturesMoveWell(s, e); }
    MoveKeepsCounts(s, Next(s, e), e.i);
  }

  lemma CountsKept(s: Sys, e: Event)
    requires CountsOk(s) && Enabled(s, e)
    ensures CountsOk(Next(s, e))
  {
    if OfMonitor(e) {
      MonitorKeepsCounts(s, e);
    } else if OfRequest(e) {
      RequestKeepsCounts(s, e);
    } else if e.Spawn? {
      SpawnKeepsCounts(s, e.i);
    } else if e.Arrive? {
      ArriveKeepsCounts(s);
    }
  }

  lemma NextKeepsInv(s: Sys, e: Event)
    requires Inv(s) && Enabled(s, e)
    ensures Inv(Next(s, e))
  {
    ClockKept(s, e);
    FreezeKept(s, e);
    CountsKept(s, e);
  }

  // --- whole runs ---

  predicate IsRun(s: Sys, events: seq<Event>)
    decreases |events|
  {
    events == [] || (Enabled(s, events[0]) && IsRun(Next(s, events[0]), events[1..]))
  }

  function After(s: Sys, events: seq<Event>): Sys
    requires IsRun(s, events)
    decreases |events|
  {
    if events == [] then s else After(Next(s, events[0]), events[1..])
  }

  ghost predicate Reachable(s: Sys) {
    exists capacity: pos, now: Instant, events :: IsRun(Initial(capacity, now), events)
      && After(Initial(capacity, now), events) == s
  }

  lemma {:induction false} RunKeepsInv(s: Sys, events: seq<Event>)
    requires Inv(s) && IsRun(s, events)
    ensures Inv(After(s, events))
    decreases |events|
  {
    if events != [] {
      NextKeepsInv(s, events[0]);
      RunKeepsInv(Next(s, events[0]), events[1..]);
    }
  }

  lemma ReachableOk(s: Sys)
    requires Reachable(s)
    ensures Inv(s)
  {
    var capacity: pos, now: Instant, events :| IsRun(Initial(capacity, now), events)
      && After(Initial(capacity, now), events) == s;
    RunKeepsInv(Initial(capacity, now), events);
  }

  /** At most one monitor is active at any time, and none while one is being spawned. */
  lemma OneMonitor(s: Sys, k: nat, m: nat)
    requires Reachable(s) && k < |s.monitors| && m < |s.monitors| && IsWatching(s.monitors[k])
    requires IsWatching(s.monitors[m])
    ensures k == m && s.shared.active && forall i :: 0 <= i < |s.requests| ==> !s.requests[i].Spawning?
  {
    ReachableOk(s);
    CountFinds(s.monitors, IsWatching);
    CountFinds(s.requests, IsSpawning);
    CountOne(s.monitors, IsWatching, k, m);
  }

  /** Any two firings of the callback are more than four seconds apart. */
  lemma FiringsApart(s: Sys, i: nat, k: nat)
    requires Reachable(s) && i < k < |s.firings|
    ensures s.firings[k] - s.firings[i] > QUEUE_FULL_DELAY
  {
    ReachableOk(s);
  }

  // --- every due notification is a firing ---

  /** The time of the last firing, or where the clock was set when there was none. */
  function LastFiring(firings: seq<Instant>, start: Instant): Instant {
    if firings == [] then start else firings[|firings| - 1]
  }

  lemma {:induction false} LastIsKept(s: Sys, events: seq<Event>, start: Instant)
    requires IsRun(s, events) && s.shared.last == LastFiring(s.firings, start)
    ensures After(s, events).shared.last == LastFiring(After(s, events).firings, start)
    decreases |events|
  {
    if events != [] {
      ClockOf(s, events[0]);
      LastIsKept(Next(s, events[0]), events[1..], start);
    }
  }

  /**
   Whenever a request or a monitor comes to notify, after any run: the callback runs if the last firing, or
   else the start of the clock, is more than four seconds back, and does not run otherwise. Nothing else
   ever runs it.
   */
  lemma NotificationFiresIffDue(capacity: pos, began: Instant, events: seq<Event>, e: Event)
    requires IsRun(Initial(capacity, began), events) && Enabled(After(Initial(capacity, began), events), e)
    ensures
      var s := After(Initial(capacity, began), events);
      var start := if began < 4_001_000_000 then began else began - 4_001_000_000;
      var last := if s.firings == [] then start else s.firings[|s.firings| - 1];
      var due := (e.Notify? || e.Revive? || e.Refire?) && e.reading - last > 4_000_000_000;
      Next(s, e).firings == s.firings + (if due then [e.later] else [])
  {
    var s := After(Initial(capacity, began), events);
    LastIsKept(Initial(capacity, began), events, Initial(capacity, began).shared.last);
    ClockOf(s, e);
  }

  /** A request reports a full backlog if and only if no slot was free when it looked, right after taking its own. */
  lemma OnlyLastSlotReports(s: Sys, i: nat)
    requires Enabled(s, Look(i)) && s.alive
    ensures
      var looked := Next(s, Look(i));
      && looked.shared == s.shared && Enabled(looked, Accept(i))
      && (if s.shared.available == 0 then Next(looked, Accept(i)).requests[i].Reporting?
          else Next(looked, Accept(i)).requests[i].Pending?)
  {
  }

  /** A request that took the last slot defers its report during a freeze, and only then. */
  lemma ReportHeedsFreeze(s: Sys, i: nat, reading: Instant)
    requires Enabled(s, Report(i, reading))
    ensures
      var s' := Next(s, Report(i, reading));
      && s'.shared == s.shared && s'.now == reading && i < |s'.requests|
      && (if s.shared.freeze.Some? && reading < s.shared.freeze.value then
            Enabled(s', Defer(i)) && Next(s', Defer(i)).shared.deferred
          else
            forall later :: reading <= later ==> Enabled(s', Notify(i, reading, later)))
  {
  }

  // --- a deferred report ---

  lemma DeferredStep(s: Sys, e: Event)
    requires Enabled(s, e) && s.shared.deferred && !e.TakeDeferred? && !e.GrantFails?
    ensures Next(s, e).shared.deferred
  {
  }

  /** A deferred report waits for the thaw: only a monitor takes it, and only a dead actor's request drops it. */
  lemma {:induction false} DeferredIsKept(s: Sys, events: seq<Event>)
    requires IsRun(s, events) && s.shared.deferred
    requires forall k :: 0 <= k < |events| ==> !events[k].TakeDeferred? && !events[k].GrantFails?
    ensures After(s, events).shared.deferred
    decreases |events|
  {
    if events != [] {
      DeferredStep(s, events[0]);
      DeferredIsKept(Next(s, events[0]), events[1..]);
    }
  }

  lemma AskedMonitorRevives(s: Sys, k: nat)
    requires k < |s.monitors| && s.monitors[k].Asking?
    ensures Enabled(s, Answer(k, true)) && (s.alive ==> !Enabled(s, Answer(k, false)))
    ensures forall at, later :: s.now <= at <= later ==> Enabled(Next(s, Answer(k, true)), Revive(k, at, later))
  {
  }

  /** A dead actor drops the report: a request whose grant failed clears it, and a monitor without an answer goes. */
  lemma DeadActorDropsDeferred(s: Sys, e: Event)
    requires Enabled(s, e)
    ensures e.GrantFails? ==> !Next(s, e).shared.deferred && Enabled(Next(s, e), Close(e.i))
    ensures e.Answer? && !e.reached ==> !s.alive && Enabled(Next(s, e), ClearDead(e.k))
    ensures e.ClearDead? ==> !Next(s, e).shared.active && Next(s, e).monitors[e.k].Gone?
  {
  }

  /** After a wake-up outside any freeze the monitor takes the report, and brings it to a living actor. */
  lemma ThawTakesDeferred(s: Sys, k: nat, reading: Instant)
    requires Enabled(s, Wake(k, reading)) && s.shared.deferred
    requires s.shared.freeze.None? || s.shared.freeze.value <= reading
    ensures Enabled(Next(s, Wake(k, reading)), TakeDeferred(k))
    ensures
      var taken := Next(Next(s, Wake(k, reading)), TakeDeferred(k));
      && !taken.shared.deferred && Enabled(taken, Answer(k, true))
      && (s.alive ==> !Enabled(taken, Answer(k, false)))
      && forall at, later :: reading <= at <= later ==> Enabled(Next(taken, Answer(k, true)), Revive(k, at, later))
  {
    var woken := Next(s, Wake(k, reading));
    assert woken.monitors[k].Thawed? && woken.now == reading && woken.shared == s.shared;
    AskedMonitorRevives(Next(woken, TakeDeferred(k)), k);
  }

  /** The monitor sleeps past the freeze or past the delay, and refires exactly while no slot is free. */
  lemma MonitorHeedsBacklog(s: Sys, k: nat, reading: Instant)
    requires k < |s.monitors| && s.now <= reading
    ensures s.monitors[k].Starting? ==>
      Next(s, Sleep(k, reading)).monitors[k] == Sleeping(
        if s.shared.freeze.Some? && reading < s.shared.freeze.value then s.shared.freeze.value + 1_000_000
        else reading + 4_001_000_000)
    ensures s.monitors[k].Probing? ==>
      var s' := Next(s, Probe(k));
      if s.shared.available == 0 then forall later :: reading <= later ==> Enabled(s', Refire(k, reading, later))
      else s'.shared.available == s.shared.available - 1 && Enabled(s', ClearFlag(k))
  {
  }

  // --- freezes ---

  lemma FreezeStep(s: Sys, e: Event)
    requires Enabled(s, e)
    ensures Next(s, e).shared.freeze ==
      if !e.Freeze? then s.shared.freeze
      else if s.shared.freeze.None? then Some(e.observed + e.duration)
      else Some(Max(s.shared.freeze.value, e.observed + e.duration))
  {
    if !e.Freeze? {
      if OfMonitor(e) { MonitorLeavesFreeze(s, e); } else { RequestLeavesFreeze(s, e); }
    }
  }

  predicate Asks(e: Event, until: Instant) {
    e.Freeze? && until == e.observed + e.duration
  }

  /** Over any run the freeze deadline only moves forward, and is the latest one that was asked for. */
  lemma {:induction false} FreezeIsLatestOfRun(s: Sys, events: seq<Event>)
    requires IsRun(s, events)
    ensures
      var before, after := s.shared.freeze, After(s, events).shared.freeze;
      && (before.Some? ==> after.Some? && before.value <= after.value)
      && (forall k :: 0 <= k < |events| && events[k].Freeze? ==>
            after.Some? && events[k].observed + events[k].duration <= after.value)
      && (after.Some? ==> after == before || exists k :: 0 <= k < |events| && Asks(events[k], after.value))
    decreases |events|
  {
    if events != [] {
      var after := After(s, events).shared.freeze;
      FreezeStep(s, events[0]);
      FreezeIsLatestOfRun(Next(s, events[0]), events[1..]);
      forall k | 1 <= k < |events| && events[k].Freeze?
        ensures after.Some? && events[k].observed + events[k].duration <= after.value
      {
        assert events[1..][k - 1] == events[k];
      }
      if after.Some? && after != s.shared.freeze && !Asks(events[0], after.value) {
        var k :| 0 <= k < |events| - 1 && Asks(events[1..][k], after.value);
        assert Asks(events[k + 1], after.value);
      }
    }
  }

  /** The freeze deadline is the latest one ever recorded. */
  lemma FreezeIsLatest(s: Sys)
    requires Reachable(s)
    ensures s.shared.freeze.None? ==> s.recorded == {}
    ensures s.shared.freeze.Some? ==>
      s.shared.freeze.value in s.recorded && forall t :: t in s.recorded ==> t <= s.shared.freeze.value
  {
    ReachableOk(s);
  }

  /**
   While the queue actor lives, a backlog with every slot held by a request is watched: once the requests
   are past their calls, exactly one monitor is active.
   */
  lemma FullBacklogIsWatched(s: Sys) returns (k: nat)
    requires Reachable(s) && s.alive && Count(s.requests, HoldsSlot) == s.capacity
    requires forall i :: 0 <= i < |s.requests| ==> !WillEnsure(s.requests[i]) && !s.requests[i].Spawning?
    ensures s.shared.active && k < |s.monitors| && IsWatching(s.monitors[k])
    ensures forall m :: 0 <= m < |s.monitors| && IsWatching(s.monitors[m]) ==> m == k
  {
    ReachableOk(s);
    CountFinds(s.requests, WillEnsure);
    CountFinds(s.requests, IsSpawning);
    CountFinds(s.monitors, IsWatching);
    k :| k < |s.monitors| && IsWatching(s.monitors[k]);
    forall m | 0 <= m < |s.monitors| && IsWatching(s.monitors[m]) ensures m == k {
      CountOne(s.monitors, IsWatching, k, m);
    }
  }
}
