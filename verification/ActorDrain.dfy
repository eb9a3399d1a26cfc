/**
 Once every client is gone the actor alone brings the queue to rest, whatever the scheduler grants or
 admits on the way, in a number of steps known beforehand; and at rest nothing is left anywhere.
 */
module ActorDrain {
  import opened Basics
  import opened ActorModel
  import opened ActorProtocol
  import opened ActorInvariant
  import opened ActorTheorems

  /** The scheduler's answers, arbitrary but for what it may answer. */
  ghost predicate IsScheduler(grant: Actor -> seq<JobId>, admit: Actor -> Admission) {
    forall a :: Grantable(a, grant(a)) && CanAdmit(a, admit(a))
  }

  /** The actor's own next move. */
  function Move(s: Sys, grant: Actor -> seq<JobId>, admit: Actor -> Admission): Event {
    match s.pc
    case Draining(n) => if n < LIFECYCLE_DRAIN_BATCH && s.queue != [] then Drain else Pass(grant(s.actor))
    case Delivering(grants) => if grants != [] then Deliver else Park
    case Parked => if s.queue != [] then TakeLifecycle else TakeEnqueue
    case Accepted(_) => AdmitStep(admit(s.actor))
    case Superseding(_, _, _) => SupersedeStep
    case Forgetting(_, _, _) => ForgetStep
    case Replying(_, _) => ReplyStep
    case _ => RefuseStep
  }

  predicate AtRest(s: Sys) {
    s.pc.Parked? && s.queue == [] && s.ingress == []
  }

  /** Nobody is left outside, and nobody has asked for a shutdown. */
  ghost predicate Deserted(s: Sys) {
    && (forall t: Token :: t < |s.clients| ==> s.clients[t].pc.Finished?)
    && (forall c :: c in s.queue ==> !c.Shutdown?)
    && !Ending(s.pc)
  }

  function PcWork(pc: ActorPc): nat {
    match pc
    case Draining(_) => 3
    case Delivering(grants) => 2 + 4 * |grants|
    case Accepted(_) => 11
    case Superseding(_, _, _) => 6
    case Forgetting(_, _, _) => 5
    case Replying(_, _) => 4
    case Refusing(_, _) => 4
    case _ => 1
  }

  /** An upper bound on the moves that are left. */
  function Work(s: Sys): nat {
    11 * |s.ingress| + 4 * |s.actor.pending| + 3 * |s.queue| + PcWork(s.pc)
  }

  // --- sizes ---

  lemma {:induction false} MembersSize(grants: seq<JobId>)
    requires forall i, k :: 0 <= i < k < |grants| ==> grants[i] != grants[k]
    ensures |Members(grants)| == |grants|
  {
    if grants != [] {
      var n := |grants| - 1;
      MembersSize(grants[..n]);
      assert Members(grants) == Members(grants[..n]) + {grants[n]} by {
        assert grants == grants[..n] + [grants[n]];
      }
      assert grants[n] !in grants[..n];
    }
  }

  lemma GrantsLeavePending(a: Actor, grants: seq<JobId>)
    requires Grantable(a, grants)
    ensures |GrantReady(a, grants).pending| == |a.pending| - |grants|
  {
    MembersSize(grants);
    assert Members(grants) <= a.pending;
  }

  // --- every move is work done ---

  lemma HandleShrinks(a: Actor, c: Command)
    ensures |Handle(a, c).pending| <= |a.pending|
  {
    SubsetSize(Handle(a, c).pending, a.pending);
  }

  /** The clients are the same, up to their channels and atomics. */
  predicate SamePcs(before: seq<Client>, after: seq<Client>) {
    |after| == |before| && forall t :: 0 <= t < |before| ==> after[t].pc == before[t].pc
  }

  lemma HeadMove(s: Sys, onward: ActorPc)
    requires Deserted(s) && s.queue != [] && onward.Draining?
    ensures Deserted(HandleHead(s, onward)) && HandleHead(s, onward).pc == onward
    ensures Work(HandleHead(s, onward)) - PcWork(onward) <= Work(s) - PcWork(s.pc) - 3
  {
    HandleShrinks(s.actor, s.queue[0]);
    assert s.queue[0] in s.queue;
    assert SamePcs(s.clients, HandleHead(s, onward).clients);
  }

  lemma PassMove(s: Sys, grants: seq<JobId>)
    requires Deserted(s) && Enabled(s, Pass(grants))
    ensures Deserted(PassStep(s, grants)) && Work(PassStep(s, grants)) < Work(s)
  {
    GrantsLeavePending(s.actor, grants);
  }

  lemma DeliverMove(s: Sys)
    requires Deserted(s) && Enabled(s, Deliver)
    ensures Deserted(DeliverStep(s)) && Work(DeliverStep(s)) < Work(s)
  {
    assert SamePcs(s.clients, DeliverStep(s).clients);
  }

  lemma TakeMove(s: Sys)
    requires Deserted(s) && Enabled(s, TakeEnqueue)
    ensures Deserted(TakeEnqueueStep(s)) && Work(TakeEnqueueStep(s)) < Work(s)
  {
    assert SamePcs(s.clients, TakeEnqueueStep(s).clients);
  }

  lemma ScheduledSize(a: Actor, prior: Option<JobId>)
    ensures |Scheduled(a, prior).pending| <= |a.pending| + 1
  {
    var kept := if prior.Some? then a.pending - {prior.value} else a.pending;
    SubsetSize(kept, a.pending);
    SubsetSize(Scheduled(a, prior).pending, kept + {a.nextJob});
  }

  lemma AdmitStaysDeserted(s: Sys, admission: Admission)
    requires Deserted(s) && Enabled(s, AdmitStep(admission))
    ensures Deserted(AdmitNext(s, admission))
  {
    assert SamePcs(s.clients, AdmitNext(s, admission).clients);
  }

  lemma AdmitMove(s: Sys, admission: Admission)
    requires Enabled(s, AdmitStep(admission))
    ensures Work(AdmitNext(s, admission)) < Work(s)
  {
    if admission.Admit? {
      ScheduledSize(s.actor, admission.prior);
      assert AdmitNext(s, admission).actor.pending == Scheduled(s.actor, admission.prior).pending;
    }
  }

  lemma ReplaceMove(s: Sys, e: Event)
    requires Deserted(s) && Enabled(s, e) && (e.SupersedeStep? || e.ForgetStep?)
    ensures Deserted(Next(s, e)) && Work(Next(s, e)) < Work(s)
  {
    assert SamePcs(s.clients, Next(s, e).clients);
  }

  lemma AnswerMove(s: Sys, e: Event)
    requires Deserted(s) && Enabled(s, e) && (e.ReplyStep? || e.RefuseStep?)
    ensures Deserted(Next(s, e)) && Work(Next(s, e)) < Work(s)
  {
    assert SamePcs(s.clients, Next(s, e).clients);
    SubsetSize(Next(s, e).actor.pending, s.actor.pending);
  }

  lemma MoveIsPossible(s: Sys, grant: Actor -> seq<JobId>, admit: Actor -> Admission)
    requires PcOk(s) && IngressOk(s) && IndexesOk(s) && LoopOk(s) && JobsOk(s)
    requires Deserted(s) && !AtRest(s) && IsScheduler(grant, admit)
    ensures Enabled(s, Move(s, grant, admit))
  {
    if s.pc.Replying? {
      assert JobOk(s, s.pc.job);
    }
  }

  lemma MoveIsWork(s: Sys, e: Event, grant: Actor -> seq<JobId>, admit: Actor -> Admission)
    requires Deserted(s) && e == Move(s, grant, admit) && Enabled(s, e)
    ensures Deserted(Next(s, e)) && Work(Next(s, e)) < Work(s)
  {
    match e
    case Drain => HeadMove(s, Draining(s.pc.n + 1));
    case TakeLifecycle => HeadMove(s, Draining(0));
    case Pass(grants) => PassMove(s, grants);
    case Deliver => DeliverMove(s);
    case TakeEnqueue => TakeMove(s);
    case AdmitStep(admission) =>
      AdmitStaysDeserted(s, admission);
      AdmitMove(s, admission);
    case SupersedeStep => ReplaceMove(s, e);
    case ForgetStep => ReplaceMove(s, e);
    case ReplyStep => AnswerMove(s, e);
    case RefuseStep => AnswerMove(s, e);
    case _ =>
  }

  // --- the run ---

  /** The run that the moves make, from `s` to rest. */
  ghost predicate IsOwnRun(s: Sys, events: seq<Event>, grant: Actor -> seq<JobId>, admit: Actor -> Admission)
    decreases |events|
  {
    if AtRest(s) then events == []
    else
      && events != [] && events[0] == Move(s, grant, admit) && Enabled(s, events[0])
      && IsOwnRun(Next(s, events[0]), events[1..], grant, admit)
  }

  lemma {:induction false} OwnRun(s: Sys, grant: Actor -> seq<JobId>, admit: Actor -> Admission)
    returns (events: seq<Event>)
    requires Inv(s) && Deserted(s) && IsScheduler(grant, admit)
    ensures IsOwnRun(s, events, grant, admit) && |events| <= Work(s)
    decreases Work(s)
  {
    if AtRest(s) {
      events := [];
    } else {
      var e := Move(s, grant, admit);
      MoveIsPossible(s, grant, admit);
      MoveIsWork(s, e, grant, admit);
      NextKeepsInv(s, e);
      var rest := OwnRun(Next(s, e), grant, admit);
      events := [e] + rest;
      assert events[1..] == rest;
    }
  }

  lemma {:induction false} OwnRunRests(s: Sys, events: seq<Event>, grant: Actor -> seq<JobId>,
          admit: Actor -> Admission)
    requires Deserted(s) && IsOwnRun(s, events, grant, admit)
    ensures IsRun(s, events) && AtRest(After(s, events)) && Deserted(After(s, events))
    decreases |events|
  {
    if events != [] {
      MoveIsWork(s, events[0], grant, admit);
      OwnRunRests(Next(s, events[0]), events[1..], grant, admit);
    }
  }

  /**
   Everything drains. From any reachable state without clients and without a shutdown, the actor's own
   moves come to rest within `Work(s)` steps whatever the scheduler answers, and then no job is pending or
   in flight, both channels are empty and so is every index.
   */
  lemma EverythingDrains(s: Sys, grant: Actor -> seq<JobId>, admit: Actor -> Admission) returns (events: seq<Event>)
    requires Reachable(s) && Deserted(s) && IsScheduler(grant, admit)
    ensures IsOwnRun(s, events, grant, admit) && |events| <= Work(s) && IsRun(s, events)
    ensures
      var final := After(s, events);
      && AtRest(final)
      && final.actor.pending == {} && final.actor.inFlight == {}
      && final.actor.waiters == map[] && final.actor.jobTokens == map[]
      && final.actor.pendingTokens == map[] && final.actor.tokenStates == {}
  {
    ReachableOk(s);
    events := OwnRun(s, grant, admit);
    OwnRunRests(s, events, grant, admit);
    ReachableAfter(s, events);
    NothingIsLeaked(After(s, events));
  }
}
