/**
 How things end: the atomic of a request that was refused, or whose job is over, is TERMINAL; and an actor
 that is told to stop, or has lost its last handle, tells every waiter and stops.
 */
module ActorEndings {
  import opened Basics
  import opened ActorModel
  import opened ActorProtocol
  import opened ActorInvariant
  import opened ActorClients
  import opened ActorSteps
  import opened ActorFrames
  import opened ActorEnqueueSteps
  import opened ActorReplySteps
  import opened ActorLifecycleSteps
  import opened ActorGrantSteps
  import opened ActorTheorems
  import opened ActorAnswers

  // --- atomics ---

  /** The actor still holds the job's atomic, or is about to. */
  predicate Kept(s: Sys, j: JobId) {
    j in s.actor.jobTokens || Unmapped(s.pc, j)
  }

  ghost predicate EndedOk(s: Sys, h: map<Token, QueueError>, t: Token)
    requires t < |s.clients|
  {
    && (t in h && s.clients[t].sent ==> s.clients[t].shared.TokenTerminal?)
    && (forall j :: JobIs(s, j, t) && !Kept(s, j) ==> s.clients[t].shared.TokenTerminal?)
  }

  /** A job that the actor lets go has its atomic ended in the same step. */
  ghost predicate LetsGoWell(s: Sys, s': Sys) {
    forall j :: j in s'.jobOf && !Kept(s', j) ==>
      || (j in s.jobOf && s.jobOf[j] == s'.jobOf[j] && !Kept(s, j))
      || (s'.jobOf[j] < |s'.clients| && s'.clients[s'.jobOf[j]].shared.TokenTerminal?)
  }

  lemma ClientLetsGo(s: Sys, t: Token, step: ClientStep)
    requires Enabled(s, ClientEvent(t, step))
    ensures LetsGoWell(s, ClientNext(s, t, step))
  {
  }

  lemma CancelLetsGo(s: Sys, onward: ActorPc)
    requires IndexesOk(s) && JobsOk(s) && Follows(s, onward) && Cancels(s)
    ensures LetsGoWell(s, HandleHead(s, onward))
  {
    assert JobOk(s, s.actor.pendingTokens[s.queue[0].token]);
    CancelTouches(s, onward);
  }

  lemma CompleteLetsGo(s: Sys, onward: ActorPc)
    requires CompletesOk(s) && Follows(s, onward)
    ensures LetsGoWell(s, HandleHead(s, onward))
  {
    CompleteTouches(s, onward);
  }

  lemma HeadLetsGo(s: Sys, onward: ActorPc)
    requires IndexesOk(s) && JobsOk(s) && LogOk(s) && Follows(s, onward)
    ensures LetsGoWell(s, HandleHead(s, onward))
  {
    if Cancels(s) {
      CancelLetsGo(s, onward);
    } else if s.queue[0].Complete? {
      HeadCompletes(s);
      CompleteLetsGo(s, onward);
    } else {
      IdleTouches(s, onward);
    }
  }

  lemma AdmitLetsGo(s: Sys, prior: Option<JobId>)
    requires s.pc.Accepted? && IndexesOk(s) && CanAdmit(s.actor, Admit(prior))
    ensures LetsGoWell(s, AdmitNext(s, Admit(prior)))
  {
    AdmitTouches(s, prior);
  }

  lemma ForgetLetsGo(s: Sys)
    requires s.pc.Forgetting? && PcOk(s) && IndexesOk(s) && JobsOk(s)
    ensures LetsGoWell(s, ForgetNext(s))
  {
    assert JobOk(s, s.pc.prior) && JobOk(s, s.pc.job);
    ForgetTouches(s);
  }

  lemma AdmittedLetsGo(s: Sys)
    requires s.pc.Replying? && s.pc.token < |s.clients| && s.clients[s.pc.token].reply.Open?
    ensures LetsGoWell(s, ReplyNext(s))
  {
    AdmittedTouches(s);
  }

  lemma WithdrawnLetsGo(s: Sys)
    requires s.pc.Replying? && PcOk(s) && s.pc.token < |s.clients| && !s.clients[s.pc.token].reply.Open?
    requires JobOk(s, s.pc.job)
    ensures LetsGoWell(s, ReplyNext(s))
  {
    WithdrawnTouches(s);
  }

  lemma ReplyLetsGo(s: Sys)
    requires s.pc.Replying? && PcOk(s) && JobsOk(s) && s.pc.token < |s.clients|
    ensures LetsGoWell(s, ReplyNext(s))
  {
    assert JobOk(s, s.pc.job);
    if s.clients[s.pc.token].reply.Open? { AdmittedLetsGo(s); } else { WithdrawnLetsGo(s); }
  }

  /** The other steps let nothing go. */
  lemma OtherLetsGo(s: Sys, e: Event)
    requires Enabled(s, e) && !e.ClientEvent? && !e.Drain? && !e.TakeLifecycle? && !e.ForgetStep? && !e.ReplyStep?
    requires e.AdmitStep? ==> e.admission.Deny?
    ensures LetsGoWell(s, Next(s, e))
  {
  }

  lemma NextLetsGo(s: Sys, e: Event)
    requires ActorOk(s) && Enabled(s, e)
    ensures LetsGoWell(s, Next(s, e))
  {
    match e
    case ClientEvent(t, step) => ClientLetsGo(s, t, step);
    case Drain => HeadLetsGo(s, Draining(s.pc.n + 1));
    case TakeLifecycle => HeadLetsGo(s, Draining(0));
    case AdmitStep(Admit(prior)) => AdmitLetsGo(s, prior);
    case ForgetStep => ForgetLetsGo(s);
    case ReplyStep => ReplyLetsGo(s);
    case _ => OtherLetsGo(s, e);
  }

  lemma SentStaysInEnqueue(s: Sys, e: Event, t: Token)
    requires Enabled(s, e) && t < |s.clients| && OfEnqueue(e)
    ensures t < |Next(s, e).clients| && Next(s, e).clients[t].sent == s.clients[t].sent
  {
  }

  lemma SentStaysInLoop(s: Sys, e: Event, t: Token)
    requires Enabled(s, e) && t < |s.clients| && !OfEnqueue(e) && !e.ClientEvent? && !e.Drain? && !e.TakeLifecycle?
    ensures t < |Next(s, e).clients| && Next(s, e).clients[t].sent == s.clients[t].sent
  {
  }

  lemma SentStaysForHead(s: Sys, onward: ActorPc, t: Token)
    requires s.queue != [] && t < |s.clients|
    ensures t < |HandleHead(s, onward).clients| && HandleHead(s, onward).clients[t].sent == s.clients[t].sent
  {
  }

  /** What a client was made with stays: whether its command entered the ingress. */
  lemma SentStays(s: Sys, e: Event, t: Token)
    requires Enabled(s, e) && t < |s.clients| && (e.ClientEvent? && e.t == t ==> ShapeOk(s.clients[t]))
    ensures t < |Next(s, e).clients| && Next(s, e).clients[t].sent == s.clients[t].sent
  {
    if e.ClientEvent? {
      ClientTouches(s, e.t, e.step);
      if e.t == t {
        TakeFacts(s.clients[t], t, e.step);
      }
    } else if e.Drain? {
      SentStaysForHead(s, Draining(s.pc.n + 1), t);
    } else if e.TakeLifecycle? {
      SentStaysForHead(s, Draining(0), t);
    } else if OfEnqueue(e) {
      SentStaysInEnqueue(s, e, t);
    } else {
      SentStaysInLoop(s, e, t);
    }
  }

  /** A refusal after the acceptance has been tried ends the atomic. */
  lemma RefusalEnds(s: Sys, e: Event, t: Token)
    requires Enabled(s, e) && t in Refused(s, e) && t < |Next(s, e).clients|
    requires s.pc.Accepted? ==> s.pc.token < |s.clients|
    ensures Next(s, e).clients[t].sent ==> Next(s, e).clients[t].shared.TokenTerminal?
  {
    if e.AdmitStep? {
      StoreOne(s.clients, t);
    }
  }

  lemma OldEnding(s: Sys, h: map<Token, QueueError>, e: Event, t: Token)
    requires Enabled(s, e) && LetsGoWell(s, Next(s, e)) && PcOk(s)
    requires t < |s.clients| && ShapeOk(s.clients[t]) && EndedOk(s, h, t)
    ensures t < |Next(s, e).clients| && EndedOk(Next(s, e), h + Refused(s, e), t)
  {
    TokenStep(s, e, t);
    SentStays(s, e, t);
    if t in Refused(s, e) {
      RefusalEnds(s, e, t);
    }
    forall j | JobIs(Next(s, e), j, t) && !Kept(Next(s, e), j) ensures Next(s, e).clients[t].shared.TokenTerminal? {
      if JobIs(s, j, t) && !Kept(s, j) {
        assert s.clients[t].shared.TokenTerminal?;
      }
    }
  }

  /** A new token has no job. */
  lemma NewEnding(s: Sys, h: map<Token, QueueError>)
    requires PcOk(s) && JobsOk(s) && HistoryOk(s, h)
    ensures EndedOk(MintStep(s), h + Refused(s, Mint), |s.clients|)
  {
    forall j | j in s.jobOf ensures s.jobOf[j] < |s.clients| {
      assert JobOk(s, j);
    }
  }

  ghost predicate EndingsOk(s: Sys, h: map<Token, QueueError>) {
    forall t: Token :: t < |s.clients| ==> EndedOk(s, h, t)
  }

  lemma NextKeepsEndings(s: Sys, h: map<Token, QueueError>, e: Event)
    requires Inv(s) && HistoryOk(s, h) && EndingsOk(s, h) && Enabled(s, e)
    ensures EndingsOk(Next(s, e), h + Refused(s, e))
  {
    NextLetsGo(s, e);
    ClientsStay(s, e);
    forall t: Token | t < |Next(s, e).clients| ensures EndedOk(Next(s, e), h + Refused(s, e), t) {
      if t < |s.clients| {
        assert TokenOk(s, t) && EndedOk(s, h, t);
        OldEnding(s, h, e, t);
      } else {
        NewEnding(s, h);
      }
    }
  }

  lemma {:induction false} RunKeepsEndings(s: Sys, h: map<Token, QueueError>, events: seq<Event>)
    requires Inv(s) && AnswersOk(s, h) && EndingsOk(s, h) && IsRun(s, events)
    ensures EndingsOk(After(s, events), h + Refusals(s, events))
    decreases |events|
  {
    if events == [] {
      MapsJoin(h, h, h);
    } else {
      var s', refused := Next(s, events[0]), Refused(s, events[0]);
      NextKeepsInv(s, events[0]);
      NextKeepsAnswers(s, h, events[0]);
      NextKeepsEndings(s, h, events[0]);
      RunKeepsEndings(s', h + refused, events[1..]);
      RefusalsFirst(s, events);
      MapsJoin(h, refused, Refusals(s', events[1..]));
    }
  }

  lemma EndingsAfter(capacity: pos, events: seq<Event>)
    requires IsRun(Initial(capacity), events)
    ensures EndingsOk(After(Initial(capacity), events), Refusals(Initial(capacity), events))
  {
    var refusals := Refusals(Initial(capacity), events);
    InitialOk(capacity);
    RunKeepsEndings(Initial(capacity), map[], events);
    MapsJoin(refusals, refusals, refusals);
  }

  /**
   Between commands an atomic tells how far its request is: PENDING or CANCELLED in the ingress, ACCEPTED or
   CANCELLED while its job is pending, TERMINAL when it was refused or its job is neither pending nor in
   flight.
   */
  lemma AtomicTellsProgress(capacity: pos, events: seq<Event>, t: Token)
    requires IsRun(Initial(capacity), events)
    requires var s := After(Initial(capacity), events); Ready(s.pc) && t < |s.clients| && s.clients[t].sent
    ensures
      var s, h := After(Initial(capacity), events), Refusals(Initial(capacity), events);
      var atomic := s.clients[t].shared;
      && (t in s.ingress ==> atomic.TokenPending? || atomic.TokenCancelled?)
      && (t in h ==> atomic.TokenTerminal?)
      && (forall j :: JobIs(s, j, t) && j in s.actor.pending ==> atomic.TokenAccepted? || atomic.TokenCancelled?)
      && (forall j :: JobIs(s, j, t) && j !in s.actor.pending && j !in s.actor.inFlight ==> atomic.TokenTerminal?)
  {
    var s, h := After(Initial(capacity), events), Refusals(Initial(capacity), events);
    EndingsAfter(capacity, events);
    InitialOk(capacity);
    RunKeepsInv(Initial(capacity), events);
    assert TokenOk(s, t) && EndedOk(s, h, t);
    forall j | JobIs(s, j, t)
      ensures j in s.actor.pending ==> s.clients[t].shared.TokenAccepted? || s.clients[t].shared.TokenCancelled?
      ensures j !in s.actor.pending && j !in s.actor.inFlight ==> !Kept(s, j)
    {
      assert JobOk(s, j);
    }
  }

  // --- stopping ---

  /** From the moment it is stopping, the actor tells its waiters one after the other, and stops. */
  lemma {:induction false} StoppingStops(s: Sys) returns (events: seq<Event>)
    requires s.pc.Stopping?
    ensures IsRun(s, events) && After(s, events).pc.Stopped? && After(s, events).ingress == []
    ensures |events| == |s.actor.waiters| + 1
    ensures forall i :: 0 <= i < |events| - 1 ==> events[i].CloseWaiter? && events[i].job in s.actor.waiters
    decreases |s.actor.waiters|
  {
    if s.actor.waiters == map[] {
      events := [Stop];
      assert events[1..] == [];
    } else {
      var job :| job in s.actor.waiters;
      var s' := Next(s, CloseWaiter(job));
      assert s'.actor.waiters.Keys == s.actor.waiters.Keys - {job};
      var rest := StoppingStops(s');
      events := [CloseWaiter(job)] + rest;
      assert events[1..] == rest;
    }
  }

  /** A shutdown command or the loss of the last handle: the actor ends, and no other way of going on is left. */
  lemma ToldToStop(s: Sys, e: Event) returns (events: seq<Event>)
    requires Enabled(s, e)
    requires e.IngressClosed? || ((e.Drain? || e.TakeLifecycle?) && s.queue[0].Shutdown?)
    ensures IsRun(s, [e] + events) && After(s, [e] + events).pc.Stopped?
    ensures |events| == |s.actor.waiters| + 1
    ensures forall later :: Enabled(Next(s, e), later) ==> OfOutside(later) || later.CloseWaiter? || later.Stop?
  {
    events := StoppingStops(Next(s, e));
    assert ([e] + events)[1..] == events;
  }

  /** Everything else that wakes the actor leads back to the drain, with the whole batch before it. */
  lemma WakesToDrain(s: Sys, e: Event)
    requires Enabled(s, e) && (e.Wake? || e.ReplyStep? || e.RefuseStep? || e.TakeLifecycle?)
    requires e.TakeLifecycle? ==> !s.queue[0].Shutdown?
    ensures Next(s, e).pc == Draining(0)
    ensures Next(s, e).queue != [] ==> Enabled(Next(s, e), Drain)
    ensures Next(s, e).queue == [] ==> forall grants :: Grantable(Next(s, e).actor, grants) ==>
      Enabled(Next(s, e), Pass(grants))
  {
  }
}
