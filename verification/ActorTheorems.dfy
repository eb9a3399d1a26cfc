/** What holds in every reachable state of every interleaving of the actor and its clients. */
module ActorTheorems {
  import opened Basics
  import opened ActorModel
  import opened ActorProtocol
  import opened ActorInvariant
  import opened ActorClientSteps
  import opened ActorSteps
  import opened ActorEnqueueSteps
  import opened ActorReplySteps
  import opened ActorLifecycleSteps
  import opened ActorGrantSteps

  /** Moves of the loop alone. */
  predicate OfLoop(e: Event) {
    e.Park? || e.Wake? || e.IngressClosed?
  }

  lemma LoopKeepsInv(s: Sys, e: Event)
    requires Inv(s) && Enabled(s, e) && OfLoop(e)
    ensures Inv(Next(s, e))
  {
    QuietMove(s, Next(s, e));
  }

  predicate OfEnqueue(e: Event) {
    e.TakeEnqueue? || e.AdmitStep? || e.SupersedeStep? || e.ForgetStep? || e.ReplyStep? || e.RefuseStep?
  }

  lemma EnqueueKeepsInv(s: Sys, e: Event)
    requires Inv(s) && Enabled(s, e) && OfEnqueue(e)
    ensures Inv(Next(s, e))
  {
    match e
    case TakeEnqueue => TakeKeepsInv(s);
    case AdmitStep(Admit(prior)) => AdmitKeepsInv(s, prior);
    case AdmitStep(Deny(error)) => DenyKeepsInv(s, error);
    case SupersedeStep => SupersedeKeepsInv(s);
    case ForgetStep => ForgetKeepsInv(s);
    case ReplyStep => ReplyKeepsInv(s);
    case RefuseStep => RefuseKeepsInv(s);
  }

  lemma HeadKeepsInv(s: Sys, e: Event)
    requires Inv(s) && Enabled(s, e) && (e.Drain? || e.TakeLifecycle?)
    ensures Inv(Next(s, e))
  {
    if e.Drain? {
      HandleKeepsInv(s, Draining(s.pc.n + 1));
    } else {
      HandleKeepsInv(s, Draining(0));
    }
  }

  /** Grants, their delivery, and the shutdown. */
  predicate OfGrants(e: Event) {
    e.Pass? || e.Deliver? || e.CloseWaiter? || e.Stop?
  }

  lemma GrantsKeepInv(s: Sys, e: Event)
    requires Inv(s) && Enabled(s, e) && OfGrants(e)
    ensures Inv(Next(s, e))
  {
    match e
    case Pass(grants) => PassKeepsInv(s, grants);
    case Deliver => DeliverKeepsInv(s);
    case CloseWaiter(job) => CloseKeepsInv(s, job);
    case Stop => StopKeepsInv(s);
  }

  /** What happens outside the actor. */
  predicate OfOutside(e: Event) {
    e.Mint? || e.ClientEvent? || e.OtherCommand?
  }

  lemma OutsideKeepsInv(s: Sys, e: Event)
    requires Inv(s) && Enabled(s, e) && OfOutside(e)
    ensures Inv(Next(s, e))
  {
    match e
    case Mint => MintKeepsInv(s);
    case ClientEvent(t, step) => ClientEventKeepsInv(s, t, step);
    case OtherCommand(c) => OtherCommandKeepsInv(s, c);
  }

  /** Every step, by whoever, keeps the invariant. */
  lemma NextKeepsInv(s: Sys, e: Event)
    requires Inv(s) && Enabled(s, e)
    ensures Inv(Next(s, e))
  {
    if OfLoop(e) {
      LoopKeepsInv(s, e);
    } else if OfEnqueue(e) {
      EnqueueKeepsInv(s, e);
    } else if OfGrants(e) {
      GrantsKeepInv(s, e);
    } else if OfOutside(e) {
      OutsideKeepsInv(s, e);
    } else {
      HeadKeepsInv(s, e);
    }
  }

  /** Some run from a fresh queue ends in `s`. */
  ghost predicate Reachable(s: Sys) {
    exists capacity: pos, events :: IsRun(Initial(capacity), events) && After(Initial(capacity), events) == s
  }

  lemma {:induction false} RunKeepsInv(s: Sys, events: seq<Event>)
    requires Inv(s) && IsRun(s, events)
    ensures Inv(After(s, events))
    decreases |events|
  {
    if events != [] {
      NextKeepsInv(s, events[0]);
      RunKeepsInv(Next(s, events[0]), events[1..]);
    }
  }

  lemma ReachableOk(s: Sys)
    requires Reachable(s)
    ensures Inv(s)
  {
    var capacity: pos, events :| IsRun(Initial(capacity), events) && After(Initial(capacity), events) == s;
    InitialOk(capacity);
    RunKeepsInv(Initial(capacity), events);
  }

  lemma {:induction false} RunJoin(s: Sys, first: seq<Event>, second: seq<Event>)
    requires IsRun(s, first) && IsRun(After(s, first), second)
    ensures IsRun(s, first + second) && After(s, first + second) == After(After(s, first), second)
    decreases |first|
  {
    if first == [] {
      assert first + second == second;
    } else {
      assert (first + second)[1..] == first[1..] + second;
      RunJoin(Next(s, first[0]), first[1..], second);
    }
  }

  lemma ReachableAfter(s: Sys, events: seq<Event>)
    requires Reachable(s) && IsRun(s, events)
    ensures Reachable(After(s, events))
  {
    var capacity: pos, past :| IsRun(Initial(capacity), past) && After(Initial(capacity), past) == s;
    RunJoin(Initial(capacity), past, events);
  }

  // --- ownership ---

  /** The drop of a future that will send its `Cancel`, or has sent it and the command is still queued. */
  predicate CancelComing(s: Sys, t: Token)
    requires t < |s.clients|
  {
    var c := s.clients[t];
    || (c.pc.CancelSecond? && c.shared.TokenAccepted?)
    || c.pc.CancelSending?
    || Cancel(t) in s.queue
  }

  /**
   Ownership conservation. While the actor runs, a pending job has an undropped future, a drop that will
   cancel it, or a queued `Cancel`; an in-flight job has a permit (buffered, held, completing or falling
   out of a dropped channel), is being delivered, or has its `Complete` queued.
   */
  lemma EveryJobIsOwned(s: Sys, j: JobId)
    requires Reachable(s) && (j in s.actor.pending || j in s.actor.inFlight)
    ensures j in s.jobOf && s.jobOf[j] < |s.clients|
    ensures
      var t := s.jobOf[j];
      && (j in s.actor.pending && !Ending(s.pc) ==>
           s.clients[t].pc.Enqueuing? || s.clients[t].pc == Waiting(j) || CancelComing(s, t))
      && (j in s.actor.inFlight ==>
           j in Remaining(s.pc) || PermitOf(s.clients[t]) == Some(j) || Complete(j, t) in s.queue)
  {
    ReachableOk(s);
    assert JobOk(s, j);
  }

  /** No ghost job, no leaked slot: once all owners are gone and the lifecycle channel is drained, nothing is left. */
  lemma NothingIsLeaked(s: Sys)
    requires Reachable(s) && s.pc.Parked? && s.queue == []
    requires forall t: Token :: t < |s.clients| ==> s.clients[t].pc.Finished?
    ensures s.actor.pending == {} && s.actor.inFlight == {}
    ensures s.actor.waiters == map[] && s.actor.jobTokens == map[]
    ensures s.actor.pendingTokens == map[] && s.actor.tokenStates == {}
  {
    forall j ensures j !in s.actor.pending && j !in s.actor.inFlight {
      if j in s.actor.pending || j in s.actor.inFlight {
        EveryJobIsOwned(s, j);
        FinishedHasNoPermit(s, s.jobOf[j]);
      }
    }
    MapsEmptyWithScheduler(s);
  }

  lemma FinishedHasNoPermit(s: Sys, t: Token)
    requires Reachable(s) && t < |s.clients| && s.clients[t].pc.Finished?
    ensures PermitOf(s.clients[t]).None?
  {
    ReachableOk(s);
    assert TokenOk(s, t);
  }

  // --- the four indexes ---

  /** Between two commands the indexes say the same thing in four ways. */
  lemma IndexAgreement(s: Sys)
    requires Reachable(s) && Ready(s.pc)
    ensures s.actor.waiters.Keys == s.actor.pending
    ensures s.actor.pending <= s.actor.jobTokens.Keys <= s.actor.pending + s.actor.inFlight
    ensures s.actor.tokenStates == s.actor.pendingTokens.Keys
    ensures forall j :: j in s.actor.jobTokens ==>
      s.actor.jobTokens[j] in s.actor.pendingTokens && s.actor.pendingTokens[s.actor.jobTokens[j]] == j
    ensures forall t :: t in s.actor.pendingTokens ==>
      s.actor.pendingTokens[t] in s.actor.jobTokens && s.actor.jobTokens[s.actor.pendingTokens[t]] == t
    ensures s.actor.pending !! s.actor.inFlight
  {
    ReachableOk(s);
    WaitersArePending(s);
    MappedJobs(s);
  }

  lemma WaitersArePending(s: Sys)
    requires IndexesOk(s) && JobsOk(s) && Ready(s.pc)
    ensures s.actor.waiters.Keys == s.actor.pending && s.actor.pending !! s.actor.inFlight
  {
    forall j ensures j in s.actor.waiters <==> j in s.actor.pending {
      if j in s.jobOf {
        assert JobOk(s, j);
      }
    }
    forall j | j in s.actor.inFlight ensures j !in s.actor.pending {
      assert JobOk(s, j);
    }
  }

  lemma MappedJobs(s: Sys)
    requires IndexesOk(s) && JobsOk(s) && Ready(s.pc)
    ensures s.actor.pending <= s.actor.jobTokens.Keys <= s.actor.pending + s.actor.inFlight
    ensures forall j :: j in s.actor.jobTokens ==>
      s.actor.jobTokens[j] in s.actor.pendingTokens && s.actor.pendingTokens[s.actor.jobTokens[j]] == j
  {
    forall j | j in s.jobOf
      ensures j in s.actor.pending ==> j in s.actor.jobTokens
      ensures j in s.actor.jobTokens ==> (j in s.actor.pending || j in s.actor.inFlight)
      ensures j in s.actor.jobTokens ==>
        s.actor.jobTokens[j] in s.actor.pendingTokens && s.actor.pendingTokens[s.actor.jobTokens[j]] == j
    {
      assert JobOk(s, j);
    }
  }

  lemma MapsEmptyWithScheduler(s: Sys)
    requires Reachable(s) && Ready(s.pc) && s.actor.pending == {} && s.actor.inFlight == {}
    ensures s.actor.waiters == map[] && s.actor.jobTokens == map[] && s.actor.pendingTokens == map[]
    ensures s.actor.tokenStates == {}
  {
    IndexAgreement(s);
    assert s.actor.jobTokens.Keys == {};
    assert forall t :: t !in s.actor.pendingTokens;
  }

  /** The skip branches of `deliver_grants` are unreachable: every grant has its token, its atomic and its waiter. */
  lemma DeliveryNeverSkips(s: Sys)
    requires Reachable(s) && Enabled(s, Deliver)
    ensures
      var j := s.pc.grants[0];
      && CanMint(s.actor, j) && j in s.actor.waiters && j in s.jobOf
      && s.actor.waiters[j] == s.actor.jobTokens[j] == s.jobOf[j]
  {
    ReachableOk(s);
    assert s.pc.grants[0] in Remaining(s.pc);
    assert JobOk(s, s.pc.grants[0]);
  }

  // --- exactly once ---

  lemma {:induction false} CountOnce(log: seq<Command>, c: Command)
    requires forall i, k :: 0 <= i < k < |log| && log[i] == log[k] ==> Repeatable(log[i])
    requires !Repeatable(c)
    ensures multiset(log)[c] == if c in log then 1 else 0
  {
    if log != [] {
      var n := |log| - 1;
      assert log == log[..n] + [log[n]];
      CountOnce(log[..n], c);
    }
  }

  /** No acquire resolves twice. */
  lemma ResolvesOnce(s: Sys, i: nat, k: nat)
    requires Reachable(s) && i < |s.results| && k < |s.results| && s.results[i].token == s.results[k].token
    ensures i == k
  {
    ReachableOk(s);
  }

  /**
   Every permit issues exactly one completion, explicit, awaited or by being dropped: none while the
   permit exists, one ever after; and at most one start, before it.
   */
  lemma OneCompletionPerPermit(s: Sys, j: JobId)
    requires Reachable(s) && j in s.granted
    ensures j in s.jobOf && s.jobOf[j] < |s.clients|
    ensures
      var t := s.jobOf[j];
      multiset(s.log)[Complete(j, t)] == if j in Remaining(s.pc) || PermitOf(s.clients[t]) == Some(j) then 0 else 1
    ensures forall t: Token :: Complete(j, t) in s.log ==> t == s.jobOf[j]
    ensures multiset(s.log)[Start(j)] <= 1
    ensures forall i, k :: 0 <= i < |s.log| && 0 <= k < |s.log| ==>
      s.log[i] == Complete(j, s.jobOf[j]) && s.log[k] == Start(j) ==> k < i
  {
    ReachableOk(s);
    assert JobOk(s, j);
    var t := s.jobOf[j];
    assert TokenOk(s, t);
    CountOnce(s.log, Complete(j, t));
    CountOnce(s.log, Start(j));
  }

  /** A superseded acquire is never granted, before or after it learns its fate. */
  lemma SupersededNeverGranted(s: Sys, t: Token, j: JobId)
    requires Reachable(s) && t < |s.clients| && JobIs(s, j, t) && j in s.superseded
    ensures PermitOf(s.clients[t]).None? && j !in s.granted && j !in s.actor.pending
    ensures forall i :: 0 <= i < |s.results| && s.results[i].token == t ==> !s.results[i].outcome.GotPermit?
  {
    ReachableOk(s);
    assert JobOk(s, j);
    assert TokenOk(s, t);
    forall k | k in s.actor.inFlight ensures k in s.granted {
      assert JobOk(s, k);
    }
    forall i | 0 <= i < |s.results| && s.results[i].token == t ensures !s.results[i].outcome.GotPermit? {
      assert ResultOk(s, s.results[i]);
    }
  }

  /** An outcome tells the truth about the job of its acquire. */
  lemma OutcomeIsTrue(s: Sys, i: nat)
    requires Reachable(s) && i < |s.results|
    ensures s.results[i].outcome.GotPermit? ==>
      JobIs(s, s.results[i].outcome.job, s.results[i].token) && s.results[i].outcome.job in s.granted
    ensures s.results[i].outcome.GotSuperseded? ==>
      JobIs(s, s.results[i].outcome.job, s.results[i].token) && s.results[i].outcome.job in s.superseded
  {
    ReachableOk(s);
    assert ResultOk(s, s.results[i]);
  }

  /** What polling an undropped future yields now, through both phases if need be. */
  function Settled(c: Client, t: Token): Option<Outcome> {
    if !CanTake(c, Poll) then None
    else
      var f := Take(c, t, Poll);
      if f.outcome.Some? || !CanTake(f.client, Poll) then f.outcome else Take(f.client, t, Poll).outcome
  }

  /** Shutdown resolves every outstanding acquire, with `Closed` unless something was buffered for it before. */
  lemma ShutdownResolvesAll(s: Sys, t: Token)
    requires Reachable(s) && s.pc.Stopped? && t < |s.clients|
    requires s.clients[t].pc.Enqueuing? || s.clients[t].pc.Waiting?
    ensures
      var c := s.clients[t];
      && Settled(c, t).Some?
      && (Settled(c, t) == Some(GotClosed)
          || (c.granted.Sent? && c.granted.value.Granted? && Settled(c, t) == Some(GotPermit(c.granted.value.job)))
          || (c.granted.Sent? && c.granted.value.Superseded?
            && Settled(c, t) == Some(GotSuperseded(c.granted.value.job)))
          || (c.reply.Sent? && c.reply.value.Denied? && Settled(c, t) == Some(GotDenied(c.reply.value.error))))
  {
    ReachableOk(s);
    StoppedSenders(s, t);
    assert TokenOk(s, t);
  }

  /** A stopped actor has no sender left. */
  lemma StoppedSenders(s: Sys, t: Token)
    requires PcOk(s) && s.pc.Stopped? && t < |s.clients| && TokenOk(s, t)
    ensures !s.clients[t].reply.Open? && !s.clients[t].granted.Open?
  {
  }

  // --- cancellation ---

  /** The order in which an atomic can move: PENDING, ACCEPTED, CANCELLED, TERMINAL. */
  predicate MovesOn(before: TokenState, after: TokenState) {
    match before
    case TokenPending => true
    case TokenAccepted => !after.TokenPending?
    case TokenCancelled => after.TokenCancelled? || after.TokenTerminal?
    case TokenTerminal => after.TokenTerminal?
  }

  lemma ClientMovesToken(c: Client, t: Token, step: ClientStep)
    requires CanTake(c, step)
    ensures MovesOn(c.shared, Take(c, t, step).client.shared)
  {
  }

  lemma HeadMovesToken(s: Sys, onward: ActorPc, t: Token)
    requires s.queue != [] && t < |s.clients|
    ensures |HandleHead(s, onward).clients| == |s.clients|
    ensures MovesOn(s.clients[t].shared, HandleHead(s, onward).clients[t].shared)
  {
  }

  lemma EnqueueMovesToken(s: Sys, e: Event, t: Token)
    requires Enabled(s, e) && t < |s.clients|
    requires e.TakeEnqueue? || e.AdmitStep? || e.SupersedeStep? || e.ForgetStep?
    ensures |Next(s, e).clients| == |s.clients|
    ensures MovesOn(s.clients[t].shared, Next(s, e).clients[t].shared)
  {
  }

  lemma AnswerMovesToken(s: Sys, e: Event, t: Token)
    requires Enabled(s, e) && t < |s.clients| && (e.ReplyStep? || e.RefuseStep?)
    ensures |Next(s, e).clients| == |s.clients|
    ensures MovesOn(s.clients[t].shared, Next(s, e).clients[t].shared)
  {
  }

  lemma OtherMovesToken(s: Sys, e: Event, t: Token)
    requires Enabled(s, e) && t < |s.clients|
    requires e.Mint? || e.Deliver? || e.CloseWaiter? || e.Stop?
    ensures |s.clients| <= |Next(s, e).clients|
    ensures MovesOn(s.clients[t].shared, Next(s, e).clients[t].shared)
  {
  }

  /** Every step moves every atomic forward only; in particular it never leaves TERMINAL. */
  lemma TokenStep(s: Sys, e: Event, t: Token)
    requires Enabled(s, e) && t < |s.clients|
    ensures t < |Next(s, e).clients|
    ensures MovesOn(s.clients[t].shared, Next(s, e).clients[t].shared)
  {
    match e
    case ClientEvent(u, step) => ClientMovesToken(s.clients[u], u, step);
    case Drain => HeadMovesToken(s, Draining(s.pc.n + 1), t);
    case TakeLifecycle => HeadMovesToken(s, Draining(0), t);
    case TakeEnqueue => EnqueueMovesToken(s, e, t);
    case AdmitStep(_) => EnqueueMovesToken(s, e, t);
    case SupersedeStep => EnqueueMovesToken(s, e, t);
    case ForgetStep => EnqueueMovesToken(s, e, t);
    case Mint => OtherMovesToken(s, e, t);
    case Deliver => OtherMovesToken(s, e, t);
    case ReplyStep => AnswerMovesToken(s, e, t);
    case RefuseStep => AnswerMovesToken(s, e, t);
    case CloseWaiter(_) => OtherMovesToken(s, e, t);
    case Stop => OtherMovesToken(s, e, t);
    case _ =>
  }

  lemma {:induction false} TerminalIsAbsorbing(s: Sys, events: seq<Event>, t: Token)
    requires IsRun(s, events) && t < |s.clients| && s.clients[t].shared.TokenTerminal?
    ensures t < |After(s, events).clients| && After(s, events).clients[t].shared.TokenTerminal?
    decreases |events|
  {
    if events != [] {
      TokenStep(s, events[0], t);
      TerminalIsAbsorbing(Next(s, events[0]), events[1..], t);
    }
  }

  /** At most one `Cancel` is ever sent per token. */
  lemma OneCancelPerToken(s: Sys, t: Token)
    requires Reachable(s)
    ensures multiset(s.log)[Cancel(t)] <= 1
  {
    ReachableOk(s);
    CountOnce(s.log, Cancel(t));
  }

  /** The token was cancelled before the actor accepted it. */
  ghost predicate CancelledEarly(s: Sys, t: Token) {
    && t < |s.clients|
    && (s.clients[t].shared.TokenCancelled? || s.clients[t].shared.TokenTerminal?)
    && HasNoJob(s, t)
    && s.pc != Accepted(t)
  }

  lemma EnqueueMakesJobs(s: Sys, e: Event)
    requires Enabled(s, e) && OfEnqueue(e)
    ensures Next(s, e).jobOf
      == if e.AdmitStep? && e.admission.Admit? then s.jobOf[s.actor.nextJob := s.pc.token] else s.jobOf
  {
  }

  lemma ClientMakesNoJob(s: Sys, t: Token, step: ClientStep)
    requires Enabled(s, ClientEvent(t, step))
    ensures ClientNext(s, t, step).jobOf == s.jobOf && ClientNext(s, t, step).pc == s.pc
  {
  }

  lemma HeadMakesNoJob(s: Sys, onward: ActorPc)
    requires s.queue != []
    ensures HandleHead(s, onward).jobOf == s.jobOf
    ensures HandleHead(s, onward).pc == onward || HandleHead(s, onward).pc.Stopping?
  {
  }

  /** Only an admission makes a job. */
  lemma JobsComeFromAcceptance(s: Sys, e: Event)
    requires Enabled(s, e)
    ensures Next(s, e).jobOf
      == if e.AdmitStep? && e.admission.Admit? then s.jobOf[s.actor.nextJob := s.pc.token] else s.jobOf
  {
    if OfEnqueue(e) {
      EnqueueMakesJobs(s, e);
    } else {
      match e
      case ClientEvent(t, step) => ClientMakesNoJob(s, t, step);
      case Drain => HeadMakesNoJob(s, Draining(s.pc.n + 1));
      case TakeLifecycle => HeadMakesNoJob(s, Draining(0));
      case _ =>
    }
  }

  lemma TakeAcceptsPending(s: Sys)
    requires Enabled(s, TakeEnqueue) && TakeEnqueueStep(s).pc.Accepted?
    ensures TakeEnqueueStep(s).pc.token < |s.clients|
    ensures s.clients[TakeEnqueueStep(s).pc.token].shared.TokenPending?
  {
  }

  /** Only a pending token is accepted. */
  lemma AcceptedWasPending(s: Sys, e: Event)
    requires Enabled(s, e) && Next(s, e).pc.Accepted?
    ensures Next(s, e).pc == s.pc
      || (Next(s, e).pc.token < |s.clients| && s.clients[Next(s, e).pc.token].shared.TokenPending?)
  {
    match e
    case TakeEnqueue => TakeAcceptsPending(s);
    case ClientEvent(t, step) => ClientMakesNoJob(s, t, step);
    case _ =>
  }

  lemma CancelledEarlyStep(s: Sys, e: Event, t: Token)
    requires Enabled(s, e) && CancelledEarly(s, t)
    ensures CancelledEarly(Next(s, e), t)
  {
    TokenStep(s, e, t);
    JobsComeFromAcceptance(s, e);
    if Next(s, e).pc.Accepted? {
      AcceptedWasPending(s, e);
    }
  }

  lemma {:induction false} CancelledEarlyThroughout(s: Sys, events: seq<Event>, t: Token)
    requires IsRun(s, events) && CancelledEarly(s, t)
    ensures CancelledEarly(After(s, events), t)
    decreases |events|
  {
    if events != [] {
      CancelledEarlyStep(s, events[0], t);
      CancelledEarlyThroughout(Next(s, events[0]), events[1..], t);
    }
  }

  /**
   A request cancelled before the acceptance compare-and-swap never reaches the scheduler, in any
   continuation: it gets no job, and the actor is never replacing another job on its behalf, so it cannot
   supersede its predecessor.
   */
  lemma CancelledEarlyNeverScheduled(s: Sys, events: seq<Event>, t: Token)
    requires Reachable(s) && IsRun(s, events) && CancelledEarly(s, t)
    ensures
      var final := After(s, events);
      && HasNoJob(final, t)
      && (final.pc.Superseding? || final.pc.Forgetting? || final.pc.Replying? || final.pc.Accepted? ==>
        final.pc.token != t)
  {
    CancelledEarlyThroughout(s, events, t);
    ReachableAfter(s, events);
    ReachableOk(After(s, events));
  }

  // --- the loop ---

  /** At every wait point an admission pass has run since the last handled command. */
  lemma ParkedIsClean(s: Sys)
    requires Reachable(s) && s.pc.Parked?
    ensures !s.dirty && s.owed == []
  {
    ReachableOk(s);
  }

  /** The completion has been applied, or it is among the commands due before the next pass. */
  ghost predicate CompletionDue(s: Sys, j: JobId, t: Token) {
    j !in s.actor.inFlight || Complete(j, t) in s.owed
  }

  /** Handling the head applies a completion or leaves it owed. */
  lemma HeadKeepsDue(s: Sys, onward: ActorPc, j: JobId, t: Token)
    requires s.queue != [] && s.owed <= s.queue && CompletionDue(s, j, t)
    ensures CompletionDue(HandleHead(s, onward), j, t)
  {
    if s.owed != [] {
      assert s.owed[0] == s.queue[0];
      assert s.owed == [s.owed[0]] + s.owed[1..];
    }
  }

  lemma ClientKeepsDue(s: Sys, t: Token, step: ClientStep)
    requires Enabled(s, ClientEvent(t, step))
    ensures ClientNext(s, t, step).actor == s.actor && ClientNext(s, t, step).owed == s.owed
  {
  }

  lemma AdmitKeepsDue(s: Sys, admission: Admission)
    requires Enabled(s, AdmitStep(admission))
    ensures AdmitNext(s, admission).actor.inFlight == s.actor.inFlight && AdmitNext(s, admission).owed == s.owed
  {
  }

  lemma EnqueueKeepsDue(s: Sys, e: Event)
    requires Enabled(s, e) && OfEnqueue(e) && !e.TakeEnqueue?
    ensures Next(s, e).actor.inFlight == s.actor.inFlight && Next(s, e).owed == s.owed
  {
    if e.AdmitStep? {
      AdmitKeepsDue(s, e.admission);
    }
  }

  lemma OtherKeepsDue(s: Sys, e: Event)
    requires Enabled(s, e) && !e.Pass? && !e.Drain? && !e.TakeLifecycle? && !OfEnqueue(e)
    ensures Next(s, e).actor.inFlight == s.actor.inFlight && Next(s, e).owed == s.owed
  {
    if e.ClientEvent? {
      ClientKeepsDue(s, e.t, e.step);
    }
  }

  lemma CompletionStaysDue(s: Sys, e: Event, j: JobId, t: Token)
    requires LoopOk(s) && Enabled(s, e) && !e.Pass? && CompletionDue(s, j, t)
    ensures CompletionDue(Next(s, e), j, t)
  {
    match e
    case Drain => HeadKeepsDue(s, Draining(s.pc.n + 1), j, t);
    case TakeLifecycle => HeadKeepsDue(s, Draining(0), j, t);
    case TakeEnqueue =>
    case _ => if OfEnqueue(e) { EnqueueKeepsDue(s, e); } else { OtherKeepsDue(s, e); }
  }

  lemma {:induction false} CompletionDueThroughout(s: Sys, events: seq<Event>, j: JobId, t: Token)
    requires Inv(s) && IsRun(s, events) && CompletionDue(s, j, t)
    requires forall i :: 0 <= i < |events| ==> !events[i].Pass?
    ensures CompletionDue(After(s, events), j, t)
    decreases |events|
  {
    if events != [] {
      NextKeepsInv(s, events[0]);
      CompletionStaysDue(s, events[0], j, t);
      CompletionDueThroughout(Next(s, events[0]), events[1..], j, t);
    }
  }

  lemma TakeMarksDue(s: Sys, i: nat)
    requires Enabled(s, TakeEnqueue) && i < LIFECYCLE_DRAIN_BATCH && i < |s.queue| && s.queue[i].Complete?
    ensures CompletionDue(Next(s, TakeEnqueue), s.queue[i].job, s.queue[i].token)
  {
    assert Next(s, TakeEnqueue).owed[i] == s.queue[i];
  }

  lemma ReachableNext(s: Sys, e: Event)
    requires Reachable(s) && Enabled(s, e)
    ensures Inv(Next(s, e))
  {
    ReachableOk(s);
    NextKeepsInv(s, e);
  }

  /** A pass starts only when nothing is owed. */
  lemma PassOwesNothing(s: Sys, grants: seq<JobId>)
    requires LoopOk(s) && Enabled(s, Pass(grants))
    ensures s.owed == []
  {
  }

  /**
   Loop ordering. A completion among the first 64 queued commands when the actor takes an enqueue is
   applied before the next admission pass, hence before the new job can be granted.
   */
  lemma CompletionsPrecedeGrant(s: Sys, events: seq<Event>, grants: seq<JobId>, i: nat)
    requires Reachable(s) && Enabled(s, TakeEnqueue) && IsRun(Next(s, TakeEnqueue), events)
    requires i < 64 && i < |s.queue| && s.queue[i].Complete?
    requires forall k :: 0 <= k < |events| ==> !events[k].Pass?
    requires Enabled(After(Next(s, TakeEnqueue), events), Pass(grants))
    ensures s.queue[i].job !in After(Next(s, TakeEnqueue), events).actor.inFlight
  {
    ReachableNext(s, TakeEnqueue);
    TakeMarksDue(s, i);
    CompletionDueThroughout(Next(s, TakeEnqueue), events, s.queue[i].job, s.queue[i].token);
    RunKeepsInv(Next(s, TakeEnqueue), events);
    PassOwesNothing(After(Next(s, TakeEnqueue), events), grants);
  }
}
