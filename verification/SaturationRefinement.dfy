/**
 The object and the step relation agree: each stretch of code of `CompatState` does in one go what the
 steps of a request or a monitor do when nobody interrupts them.
 */
module SaturationRefinement {
  import opened Basics
  import opened ThrottleState
  import opened Saturation

  lemma RunStep(s: Sys, e: Event, rest: seq<Event>)
    requires Enabled(s, e) && IsRun(Next(s, e), rest)
    ensures IsRun(s, [e] + rest) && After(s, [e] + rest) == After(Next(s, e), rest)
  {
    assert ([e] + rest)[1..] == rest;
  }

  lemma RunOne(s: Sys, e: Event)
    requires Enabled(s, e)
    ensures IsRun(s, [e]) && After(s, [e]) == Next(s, e)
  {
    assert [e] == [e] + [];
    RunStep(s, e, []);
  }

  /** The stretch led from `s` to `final` with this outcome, and touched neither slots' owners nor the actor. */
  ghost predicate Did(s: Sys, final: Sys, outcome: Outcome) {
    && final.shared == outcome.shared
    && final.firings == s.firings + outcome.firings
    && final.alive == s.alive && final.recorded == s.recorded
  }

  // --- a request that took the last slot ---

  function ReportEvents(c: Shared, i: nat, seen: Instant, reading: Instant, later: Instant): seq<Event> {
    [Report(i, seen)]
    + ([if Frozen(c.freeze, seen) then Defer(i) else Notify(i, reading, later)]
       + ([Ensure(i)] + if c.active then [] else [Spawn(i)]))
  }

  lemma EnsureRefines(s: Sys, i: nat)
    requires i < |s.requests| && s.requests[i].Ensuring?
    ensures IsRun(s, [Ensure(i)] + if s.shared.active then [] else [Spawn(i)])
    ensures
      var final := After(s, [Ensure(i)] + if s.shared.active then [] else [Spawn(i)]);
      && Did(s, final, Outcome(s.shared.(active := true), [], !s.shared.active))
      && final.requests == s.requests[i := Pending]
      && final.monitors == s.monitors + if s.shared.active then [] else [Starting]
  {
    var s1 := Next(s, Ensure(i));
    if s.shared.active {
      assert [Ensure(i)] + [] == [Ensure(i)];
      RunOne(s, Ensure(i));
    } else {
      RunOne(s1, Spawn(i));
      RunStep(s, Ensure(i), [Spawn(i)]);
    }
  }

  /** `ReportFullBacklog` is what a request does between its acceptance and the wait for its grant. */
  lemma ReportRefines(s: Sys, i: nat, seen: Instant, reading: Instant, later: Instant)
    requires i < |s.requests| && s.requests[i].Reporting? && s.now <= seen <= reading <= later
    ensures IsRun(s, ReportEvents(s.shared, i, seen, reading, later))
    ensures
      var outcome, final := Reported(s.shared, seen, reading, later),
        After(s, ReportEvents(s.shared, i, seen, reading, later));
      && Did(s, final, outcome)
      && final.requests == s.requests[i := Pending]
      && final.monitors == s.monitors + if outcome.goesOn then [Starting] else []
  {
    var s1 := Next(s, Report(i, seen));
    var e := if Frozen(s.shared.freeze, seen) then Defer(i) else Notify(i, reading, later);
    var s2 := Next(s1, e);
    var last := [Ensure(i)] + if s.shared.active then [] else [Spawn(i)];
    EnsureRefines(s2, i);
    RunStep(s1, e, last);
    RunStep(s, Report(i, seen), [e] + last);
  }

  // --- a freeze ---

  /** `RecordFreezeAt` is one step of a request that was told to wait. */
  lemma FreezeRefines(s: Sys, i: nat, observed: Instant, duration: nat)
    requires Enabled(s, Freeze(i, observed, duration))
    ensures
      var final := Next(s, Freeze(i, observed, duration));
      && final.shared == s.shared.(freeze := Later(s.shared.freeze, observed + duration))
      && final.requests == s.requests && final.monitors == s.monitors && final.firings == s.firings
  {
  }

  // --- a round of the monitor ---

  function ProbeEvents(c: Shared, k: nat, reading: Instant, later: Instant): seq<Event> {
    if c.available > 0 then [Event.Probe(k)] + ([ClearFlag(k)] + [Release(k)])
    else [Event.Probe(k)] + [Refire(k, reading, later)]
  }

  function Settled(outcome: Outcome): MonitorPc {
    if outcome.goesOn then Starting else Gone
  }

  ghost predicate RoundDone(s: Sys, final: Sys, k: nat, outcome: Outcome)
    requires k < |s.monitors|
  {
    Did(s, final, outcome) && final.requests == s.requests && final.monitors == s.monitors[k := Settled(outcome)]
  }

  lemma ExitRefines(s: Sys, k: nat)
    requires k < |s.monitors| && s.monitors[k].Probing? && s.shared.available > 0
    ensures IsRun(s, [Event.Probe(k)] + ([ClearFlag(k)] + [Release(k)]))
    ensures RoundDone(s, After(s, [Event.Probe(k)] + ([ClearFlag(k)] + [Release(k)])), k,
                      Outcome(s.shared.(active := false), [], false))
  {
    var s1 := Next(s, Event.Probe(k));
    var s2 := Next(s1, ClearFlag(k));
    RunOne(s2, Release(k));
    RunStep(s1, ClearFlag(k), [Release(k)]);
    RunStep(s, Event.Probe(k), [ClearFlag(k)] + [Release(k)]);
  }

  lemma ProbeRefines(s: Sys, k: nat, reading: Instant, later: Instant)
    requires k < |s.monitors| && s.monitors[k].Probing? && s.now <= reading <= later
    ensures IsRun(s, ProbeEvents(s.shared, k, reading, later))
    ensures RoundDone(s, After(s, ProbeEvents(s.shared, k, reading, later)), k, Probed(s.shared, reading, later))
  {
    if s.shared.available > 0 {
      ExitRefines(s, k);
    } else {
      RunOne(Next(s, Event.Probe(k)), Refire(k, reading, later));
      RunStep(s, Event.Probe(k), [Refire(k, reading, later)]);
    }
  }

  lemma FrozenRoundRefines(s: Sys, k: nat, woken: Instant)
    requires Enabled(s, Wake(k, woken)) && Frozen(s.shared.freeze, woken)
    ensures IsRun(s, [Wake(k, woken)]) && RoundDone(s, After(s, [Wake(k, woken)]), k, Outcome(s.shared, [], true))
  {
    RunOne(s, Wake(k, woken));
  }

  lemma DeadRoundRefines(s: Sys, k: nat)
    requires k < |s.monitors| && s.monitors[k].Asking? && !s.alive
    ensures IsRun(s, [Answer(k, false)] + [ClearDead(k)])
    ensures RoundDone(s, After(s, [Answer(k, false)] + [ClearDead(k)]), k,
                      Outcome(s.shared.(active := false), [], false))
  {
    RunOne(Next(s, Answer(k, false)), ClearDead(k));
    RunStep(s, Answer(k, false), [ClearDead(k)]);
  }

  lemma RevivedRoundRefines(s: Sys, k: nat, r1: Instant, l1: Instant, r2: Instant, l2: Instant)
    requires k < |s.monitors| && s.monitors[k].Asking? && s.now <= r1 <= l1 <= r2 <= l2
    ensures IsRun(s, [Answer(k, true)] + ([Revive(k, r1, l1)] + ProbeEvents(s.shared, k, r2, l2)))
    ensures
      var probed := Probed(Notified(s.shared, r1, l1), r2, l2);
      RoundDone(s, After(s, [Answer(k, true)] + ([Revive(k, r1, l1)] + ProbeEvents(s.shared, k, r2, l2))), k,
                probed.(firings := Firings(s.shared, r1, l1) + probed.firings))
  {
    var s1 := Next(s, Answer(k, true));
    var s2 := Next(s1, Revive(k, r1, l1));
    ProbeRefines(s2, k, r2, l2);
    RunStep(s1, Revive(k, r1, l1), ProbeEvents(s.shared, k, r2, l2));
    RunStep(s, Answer(k, true), [Revive(k, r1, l1)] + ProbeEvents(s.shared, k, r2, l2));
  }

  /** What follows the waking up, when nothing is frozen. */
  function ThawedEvents(c: Shared, k: nat, reached: bool,
                        r1: Instant, l1: Instant, r2: Instant, l2: Instant): seq<Event>
  {
    if !c.deferred then ProbeEvents(c, k, r2, l2)
    else if !reached then [Answer(k, false)] + [ClearDead(k)]
    else [Answer(k, true)] + ([Revive(k, r1, l1)] + ProbeEvents(c, k, r2, l2))
  }

  lemma ThawTouches(s: Sys, k: nat, woken: Instant)
    requires Enabled(s, Wake(k, woken)) && !Frozen(s.shared.freeze, woken)
    ensures Enabled(Next(s, Wake(k, woken)), TakeDeferred(k))
    ensures Next(Next(s, Wake(k, woken)), TakeDeferred(k))
      == s.(now := woken, shared := s.shared.(deferred := false),
            monitors := s.monitors[k := if s.shared.deferred then Asking else Probing])
  {
  }

  lemma ThawedRoundRefines(s: Sys, s2: Sys, k: nat, woken: Instant, reached: bool,
                           r1: Instant, l1: Instant, r2: Instant, l2: Instant)
    requires k < |s.monitors| && woken <= r1 <= l1 <= r2 <= l2 && (reached || !s.alive)
    requires !Frozen(s.shared.freeze, woken)
    requires s2 == s.(now := woken, shared := s.shared.(deferred := false),
                      monitors := s.monitors[k := if s.shared.deferred then Asking else Probing])
    ensures IsRun(s2, ThawedEvents(s.shared, k, reached, r1, l1, r2, l2))
    ensures RoundDone(s, After(s2, ThawedEvents(s.shared, k, reached, r1, l1, r2, l2)), k,
                      MonitorRound(s.shared, woken, reached, r1, l1, r2, l2))
  {
    if !s.shared.deferred {
      ProbeRefines(s2, k, r2, l2);
    } else if !reached {
      DeadRoundRefines(s2, k);
    } else {
      RevivedRoundRefines(s2, k, r1, l1, r2, l2);
    }
  }

  function RoundEvents(c: Shared, k: nat, woken: Instant, reached: bool,
                       r1: Instant, l1: Instant, r2: Instant, l2: Instant): seq<Event> {
    if Frozen(c.freeze, woken) then [Wake(k, woken)]
    else [Wake(k, woken)] + ([TakeDeferred(k)] + ThawedEvents(c, k, reached, r1, l1, r2, l2))
  }

  /** `RunMonitorRound` is one turn of the monitor's loop, from waking up to the next sleep or the end. */
  lemma MonitorRoundRefines(s: Sys, k: nat, woken: Instant, reached: bool,
                            r1: Instant, l1: Instant, r2: Instant, l2: Instant)
    requires Enabled(s, Wake(k, woken)) && woken <= r1 <= l1 <= r2 <= l2 && (reached || !s.alive)
    ensures IsRun(s, RoundEvents(s.shared, k, woken, reached, r1, l1, r2, l2))
    ensures RoundDone(s, After(s, RoundEvents(s.shared, k, woken, reached, r1, l1, r2, l2)), k,
                      MonitorRound(s.shared, woken, reached, r1, l1, r2, l2))
  {
    if Frozen(s.shared.freeze, woken) {
      FrozenRoundRefines(s, k, woken);
    } else {
      var s1 := Next(s, Wake(k, woken));
      var s2 := Next(s1, TakeDeferred(k));
      var rest := ThawedEvents(s.shared, k, reached, r1, l1, r2, l2);
      ThawTouches(s, k, woken);
      ThawedRoundRefines(s, s2, k, woken, reached, r1, l1, r2, l2);
      RunStep(s1, TakeDeferred(k), rest);
      RunStep(s, Wake(k, woken), [TakeDeferred(k)] + rest);
    }
  }
}
