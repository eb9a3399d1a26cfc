/**
 The state that the throttle adaptor's requests and its saturation monitor share, as an object whose
 methods update it in place. Clock readings and the actor's answer are parameters; time is in nanoseconds.
 Every method is proved against the function of the same purpose on the state's value.
 */
module ThrottleState {
  import opened Basics

  type Instant = nat

  const QUEUE_FULL_DELAY: nat := 4_000_000_000
  const MILLISECOND: nat := 1_000_000

  /** The semaphore's free slots, the monitor flag, the deferred event, the last firing, the freeze deadline. */
  datatype Shared = Shared(available: nat, active: bool, deferred: bool, last: Instant, freeze: Option<Instant>)

  /** `last` starts just past the delay, or at the present when the clock does not reach back that far. */
  function Fresh(capacity: pos, now: Instant): Shared {
    var past := QUEUE_FULL_DELAY + MILLISECOND;
    Shared(capacity, false, false, if now >= past then now - past else now, None)
  }

  /** The callback fires only when the last firing is more than the delay in the past. */
  predicate MayFire(last: Instant, reading: Instant) {
    reading - last > QUEUE_FULL_DELAY
  }

  function Notified(c: Shared, reading: Instant, later: Instant): Shared {
    if MayFire(c.last, reading) then c.(last := later) else c
  }

  function Firings(c: Shared, reading: Instant, later: Instant): seq<Instant> {
    if MayFire(c.last, reading) then [later] else []
  }

  predicate Frozen(freeze: Option<Instant>, reading: Instant) {
    freeze.Some? && reading < freeze.value
  }

  function Later(freeze: Option<Instant>, until: Instant): Option<Instant> {
    if freeze.None? || until > freeze.value then Some(until) else freeze
  }

  /** What one uninterrupted stretch of code leaves: the state, its firings, and how it goes on. */
  datatype Outcome = Outcome(shared: Shared, firings: seq<Instant>, goesOn: bool)

  /** A request that took the last slot reports it, or defers the report, and sees to a monitor. */
  function Reported(c: Shared, seen: Instant, reading: Instant, later: Instant): Outcome {
    if Frozen(c.freeze, seen) then Outcome(c.(deferred := true, active := true), [], !c.active)
    else Outcome(Notified(c, reading, later).(active := true), Firings(c, reading, later), !c.active)
  }

  /** The end of a monitor round: a free slot ends the monitor, a full backlog fires again. */
  function Probed(c: Shared, reading: Instant, later: Instant): Outcome {
    if c.available > 0 then Outcome(c.(active := false), [], false)
    else Outcome(Notified(c, reading, later), Firings(c, reading, later), true)
  }

  /** One round of the monitor after its sleep. The first pair of readings is for the deferred event. */
  function MonitorRound(c: Shared, woken: Instant, reached: bool,
                        r1: Instant, l1: Instant, r2: Instant, l2: Instant): Outcome
  {
    if Frozen(c.freeze, woken) then Outcome(c, [], true)
    else if !c.deferred then Probed(c, r2, l2)
    else if !reached then Outcome(c.(deferred := false, active := false), [], false)
    else
      var c1 := Notified(c.(deferred := false), r1, l1);
      var probed := Probed(c1, r2, l2);
      probed.(firings := Firings(c, r1, l1) + probed.firings)
  }

  class CompatState {
    var available: nat
    var active: bool
    var deferred: bool
    var last: Instant
    var freeze: Option<Instant>

    ghost function View(): Shared
      reads this
    {
      Shared(available, active, deferred, last, freeze)
    }

    constructor (capacity: pos, now: Instant)
      ensures View() == Fresh(capacity, now)
    {
      var past := QUEUE_FULL_DELAY + MILLISECOND;
      available, active, deferred, freeze := capacity, false, false, None;
      last := if now >= past then now - past else now;
    }

    /** `now` is read before the check, `later` when the callback is due; both under the lock. */
    method NotifyQueueFull(now: Instant, later: Instant) returns (fired: seq<Instant>)
      modifies `last
      ensures View() == Notified(old(View()), now, later) && fired == Firings(old(View()), now, later)
      ensures now - old(last) > QUEUE_FULL_DELAY ==> fired == [later] && last == later
      ensures now - old(last) <= QUEUE_FULL_DELAY ==> fired == [] && last == old(last)
    {
      if now - last <= QUEUE_FULL_DELAY {
        return [];
      }
      last := later;
      fired := [later];
    }

    method FreezeActive(now: Instant) returns (active: bool)
      ensures active == Frozen(freeze, now)
      ensures active <==> freeze.Some? && now < freeze.value
    {
      active := freeze.Some? && now < freeze.value;
    }

    method RecordFreezeAt(observed: Instant, duration: nat)
      modifies `freeze
      ensures View() == old(View()).(freeze := Later(old(freeze), observed + duration))
      ensures freeze == Some(if old(freeze).None? then observed + duration
                             else Max(old(freeze).value, observed + duration))
    {
      var until := observed + duration;
      if freeze.None? || until > freeze.value {
        freeze := Some(until);
      }
    }

    /** Whoever finds the flag down raises it and has to spawn the monitor. */
    method EnsureSaturationMonitor() returns (spawn: bool)
      modifies `active
      ensures View() == old(View()).(active := true) && spawn == !old(active)
    {
      spawn := !active;
      active := true;
    }

    method ReportFullBacklog(seen: Instant, now: Instant, later: Instant) returns (fired: seq<Instant>, spawn: bool)
      modifies this
      ensures Outcome(View(), fired, spawn) == Reported(old(View()), seen, now, later)
      ensures available == old(available) && freeze == old(freeze) && active && spawn == !old(active)
      ensures
        if freeze.Some? && seen < freeze.value then
          deferred && fired == [] && last == old(last)
        else
          && deferred == old(deferred)
          && (if now - old(last) > QUEUE_FULL_DELAY then fired == [later] && last == later
              else fired == [] && last == old(last))
    {
      fired := [];
      var frozen := FreezeActive(seen);
      if frozen {
        deferred := true;
      } else {
        fired := NotifyQueueFull(now, later);
      }
      spawn := EnsureSaturationMonitor();
    }

    /** Tries to take a slot; a monitor that gets one gives up its flag and then the slot. */
    method Probe(now: Instant, later: Instant) returns (fired: seq<Instant>, goesOn: bool)
      modifies this
      ensures Outcome(View(), fired, goesOn) == Probed(old(View()), now, later)
      ensures available == old(available) && goesOn == (available == 0) && active == (goesOn && old(active))
      ensures if goesOn && now - old(last) > QUEUE_FULL_DELAY then fired == [later] && last == later
              else fired == [] && last == old(last)
    {
      if available > 0 {
        available := available - 1;
        active := false;
        available := available + 1;
        return [], false;
      }
      fired := NotifyQueueFull(now, later);
      goesOn := true;
    }

    method RunMonitorRound(woken: Instant, reached: bool, r1: Instant, l1: Instant, r2: Instant, l2: Instant)
      returns (fired: seq<Instant>, goesOn: bool)
      modifies this
      ensures Outcome(View(), fired, goesOn) == MonitorRound(old(View()), woken, reached, r1, l1, r2, l2)
      ensures available == old(available) && freeze == old(freeze)
      ensures freeze.Some? && woken < freeze.value ==>
        goesOn && fired == [] && active == old(active) && deferred == old(deferred) && last == old(last)
      ensures freeze.None? || freeze.value <= woken ==>
        && !deferred
        && goesOn == (available == 0 && (reached || !old(deferred)))
        && active == (goesOn && old(active))
        && (old(deferred) && !reached ==> fired == [] && last == old(last))
        && (reached || !old(deferred) ==>
              var revived := old(deferred) && r1 - old(last) > QUEUE_FULL_DELAY;
              var last1 := if revived then l1 else old(last);
              var again := available == 0 && r2 - last1 > QUEUE_FULL_DELAY;
              && fired == (if revived then [l1] else []) + (if again then [l2] else [])
              && last == if again then l2 else last1)
    {
      fired, goesOn := [], true;
      var frozen := FreezeActive(woken);
      if frozen {
        return;
      }
      var due := deferred;
      deferred := false;
      if due {
        if !reached {
          active := false;
          return [], false;
        }
        fired := NotifyQueueFull(r1, l1);
      }
      var again;
      again, goesOn := Probe(r2, l2);
      fired := fired + again;
    }
  }
}
