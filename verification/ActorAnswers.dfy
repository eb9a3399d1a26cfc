/**
 What an acquire is told and why. A history of the refusals is kept beside the protocol: which tokens were
 refused for which reason, by the scheduler, by the acceptance, or by the bounded ingress. Every outcome has
 its cause in it or in the fate of the acquire's job, and every cause reaches a future that is still polled.
 */
module ActorAnswers {
  import opened Basics
  import opened ActorModel
  import opened ActorProtocol
  import opened ActorInvariant
  import opened ActorClients
  import opened ActorClientSteps
  import opened ActorSteps
  import opened ActorFrames
  import opened ActorEnqueueSteps
  import opened ActorReplySteps
  import opened ActorLifecycleSteps
  import opened ActorGrantSteps
  import opened ActorTheorems

  // --- refusals ---

  /**
   What an event refuses: the scheduler's own reason for the accepted token; a closed queue for one that
   was cancelled before the acceptance; a full queue for one that found no room in the ingress.
   */
  function Refused(s: Sys, e: Event): map<Token, QueueError> {
    match e
    case AdmitStep(Deny(error)) => if s.pc.Accepted? then map[s.pc.token := error] else map[]
    case TakeEnqueue =>
      if s.ingress != [] && s.ingress[0] < |s.clients| && !s.clients[s.ingress[0]].shared.TokenPending?
      then map[s.ingress[0] := QueueClosed] else map[]
    case Mint =>
      if !s.pc.Stopped? && |s.ingress| >= s.capacity then map[|s.clients| := QueueFull] else map[]
    case _ => map[]
  }

  /** The refusals of a whole run. */
  ghost function Refusals(s: Sys, events: seq<Event>): map<Token, QueueError>
    requires IsRun(s, events)
    decreases |events|
  {
    if events == [] then map[] else Refused(s, events[0]) + Refusals(Next(s, events[0]), events[1..])
  }

  // --- the invariant ---

  /** The future has not resolved and was not dropped. */
  predicate Undecided(pc: ClientPc) {
    pc.Enqueuing? || pc.Waiting?
  }

  /** The token's job, if it has one, was neither granted nor replaced. */
  ghost predicate Unfated(s: Sys, t: Token) {
    forall j :: JobIs(s, j, t) ==> j !in s.granted && j !in s.superseded
  }

  /** A refused token is out of the actor's hands, and its future has or will get the reason. */
  ghost predicate RefusalOk(s: Sys, h: map<Token, QueueError>, t: Token)
    requires t < |s.clients|
  {
    var c := s.clients[t];
    && (t in h ==>
         && t !in s.ingress && s.pc != Accepted(t) && HasNoJob(s, t) && !c.reply.SenderGone?
         && (c.pc.Enqueuing? ==> c.reply == Sent(Denied(h[t])) || (c.reply.Open? && s.pc == Refusing(t, h[t]))))
    && (c.reply.Sent? && c.reply.value.Denied? ==> t in h && h[t] == c.reply.value.error)
  }

  /** Lost senders and closed waiters mean that the actor is stopping. */
  ghost predicate ClosingOk(s: Sys, t: Token)
    requires t < |s.clients|
  {
    var c := s.clients[t];
    && (c.reply.SenderGone? ==> Ending(s.pc))
    && (c.granted == Sent(Closed) ==> Ending(s.pc) && Unfated(s, t))
    && (c.granted.SenderGone? ==> !c.pc.Waiting? && !(c.pc.Enqueuing? && c.reply.Sent? && c.reply.value.Admitted?))
  }

  /** The future of a job is told that it was admitted, and what became of it. */
  ghost predicate ToldOk(s: Sys, c: Client, t: Token, j: JobId) {
    && Complete(j, t) !in s.log
    && (j in s.superseded ==> c.granted == Sent(Superseded(j)))
    && (c.pc.Enqueuing? ==> c.reply == Sent(Admitted(j)) || (c.reply.Open? && BusyJob(s.pc, j)))
  }

  ghost predicate AnswerOk(s: Sys, h: map<Token, QueueError>, t: Token)
    requires t < |s.clients|
  {
    && RefusalOk(s, h, t)
    && ClosingOk(s, t)
    && forall j :: JobIs(s, j, t) && Undecided(s.clients[t].pc) ==> ToldOk(s, s.clients[t], t, j)
  }

  ghost predicate OutcomeOk(s: Sys, h: map<Token, QueueError>, r: Resolution) {
    && (r.outcome.GotDenied? ==> r.token in h && h[r.token] == r.outcome.error)
    && (r.outcome.GotClosed? ==> Ending(s.pc) && r.token !in h && Unfated(s, r.token))
  }

  ghost predicate HistoryOk(s: Sys, h: map<Token, QueueError>) {
    && (forall t :: t in h ==> t < |s.clients|)
    && (s.pc.Refusing? ==> s.pc.token in h && h[s.pc.token] == s.pc.error)
    && forall i :: 0 <= i < |s.results| ==> OutcomeOk(s, h, s.results[i])
  }

  ghost predicate AnswersOk(s: Sys, h: map<Token, QueueError>) {
    HistoryOk(s, h) && forall t: Token :: t < |s.clients| ==> AnswerOk(s, h, t)
  }

  // --- what a step does not notice ---

  /** The channels of the client are as they were, and the actor is as far with it. */
  ghost predicate SameCells(s: Sys, s': Sys, u: Token)
    requires u < |s.clients|
  {
    && u < |s'.clients|
    && s'.clients[u].reply == s.clients[u].reply && s'.clients[u].granted == s.clients[u].granted
    && s'.clients[u].pc == s.clients[u].pc
    && (u in s'.ingress ==> u in s.ingress)
    && (s'.pc == Accepted(u) ==> s.pc == Accepted(u))
    && (s.pc.Refusing? && s.pc.token == u ==> s'.pc == s.pc)
    && (Ending(s.pc) ==> Ending(s'.pc))
  }

  /** So are its jobs. */
  ghost predicate SameFates(s: Sys, s': Sys, u: Token) {
    && (forall j :: JobIs(s', j, u) <==> JobIs(s, j, u))
    && (forall j :: JobIs(s, j, u) ==>
         && (j in s'.superseded ==> j in s.superseded)
         && (Ending(s.pc) && j in s'.granted ==> j in s.granted)
         && (Complete(j, u) in s'.log ==> Complete(j, u) in s.log)
         && (BusyJob(s.pc, j) ==> BusyJob(s'.pc, j)))
  }

  predicate SameRefusal(h: map<Token, QueueError>, h': map<Token, QueueError>, u: Token) {
    (u in h' <==> u in h) && (u in h ==> h'[u] == h[u])
  }

  lemma AnswerFrame(s: Sys, s': Sys, h: map<Token, QueueError>, h': map<Token, QueueError>, u: Token)
    requires u < |s.clients| && AnswerOk(s, h, u)
    requires SameCells(s, s', u) && SameFates(s, s', u) && SameRefusal(h, h', u)
    ensures AnswerOk(s', h', u)
  {
    if u in h {
      assert HasNoJob(s', u) by {
        forall j | j in s'.jobOf ensures s'.jobOf[j] != u {
          assert JobIs(s', j, u) ==> JobIs(s, j, u);
        }
      }
    }
  }

  // --- the loop and the outside ---

  lemma LoopAnswers(s: Sys, h: map<Token, QueueError>, e: Event, u: Token)
    requires Enabled(s, e) && u < |s.clients| && AnswerOk(s, h, u)
    requires e.Park? || e.Wake? || e.IngressClosed? || e.OtherCommand? || e.Pass?
    ensures u < |Next(s, e).clients| && AnswerOk(Next(s, e), h, u)
  {
    AnswerFrame(s, Next(s, e), h, h, u);
  }

  lemma MintOldAnswer(s: Sys, h: map<Token, QueueError>, u: Token)
    requires u < |s.clients| && AnswerOk(s, h, u)
    ensures AnswerOk(MintStep(s), h + Refused(s, Mint), u)
  {
    AnswerFrame(s, MintStep(s), h, h + Refused(s, Mint), u);
  }

  /** A new acquire has no job, and a refusal only if there was no room. */
  lemma MintNewAnswer(s: Sys, h: map<Token, QueueError>)
    requires PcOk(s) && IngressOk(s) && JobsOk(s) && HistoryOk(s, h)
    ensures AnswerOk(MintStep(s), h + Refused(s, Mint), |s.clients|)
  {
    forall j | j in s.jobOf ensures s.jobOf[j] < |s.clients| {
      assert JobOk(s, j);
    }
  }

  lemma MintAnswers(s: Sys, h: map<Token, QueueError>, u: Token)
    requires PcOk(s) && IngressOk(s) && JobsOk(s) && AnswersOk(s, h) && u < |MintStep(s).clients|
    ensures AnswerOk(MintStep(s), h + Refused(s, Mint), u)
  {
    if u < |s.clients| { MintOldAnswer(s, h, u); } else { MintNewAnswer(s, h); }
  }

  // --- clients ---

  /** A future never comes back to life, reads nothing that was not sent, and completes nothing while it lives. */
  lemma TakeTells(c: Client, t: Token, step: ClientStep)
    requires ShapeOk(c) && CanTake(c, step)
    ensures
      var f := Take(c, t, step);
      && (Undecided(f.client.pc) ==>
           && f.client.pc.Waiting? && c.pc.Enqueuing? && c.reply == Sent(Admitted(f.client.pc.job))
           && f.client.granted == c.granted && f.command.None?)
      && OnlyReads(c.reply, f.client.reply) && OnlyReads(c.granted, f.client.granted)
      && (f.client.granted.SenderGone? ==> c.granted.SenderGone?)
      && (f.outcome.Some? ==>
           match f.outcome.value
           case GotDenied(error) => c.pc.Enqueuing? && c.reply == Sent(Denied(error))
           case GotClosed => (c.pc.Enqueuing? && c.reply.SenderGone?)
             || (c.pc.Waiting? && (c.granted == Sent(Closed) || c.granted.SenderGone?))
           case _ => true)
  {
  }

  /** What a client step leaves to everyone else. */
  lemma ClientTouches(s: Sys, t: Token, step: ClientStep)
    requires Enabled(s, ClientEvent(t, step))
    ensures
      var s', f := ClientNext(s, t, step), Take(s.clients[t], t, step);
      && s'.clients == s.clients[t := f.client]
      && s'.log == (if f.command.Some? then s.log + [f.command.value] else s.log)
      && s'.pc == s.pc && s'.ingress == s.ingress && s'.jobOf == s.jobOf
      && s'.granted == s.granted && s'.superseded == s.superseded
      && s'.results == (if f.outcome.Some? then s.results + [Resolution(t, f.outcome.value)] else s.results)
  {
  }

  lemma OwnClientAnswer(s: Sys, h: map<Token, QueueError>, t: Token, step: ClientStep)
    requires Enabled(s, ClientEvent(t, step)) && ShapeOk(s.clients[t]) && AnswerOk(s, h, t)
    ensures t < |ClientNext(s, t, step).clients| && AnswerOk(ClientNext(s, t, step), h, t)
  {
    ClientTouches(s, t, step);
    TakeTells(s.clients[t], t, step);
    var s' := ClientNext(s, t, step);
    assert Unfated(s, t) ==> Unfated(s', t);
    forall j | JobIs(s', j, t) && Undecided(s'.clients[t].pc) ensures ToldOk(s', s'.clients[t], t, j) {
      assert JobIs(s, j, t) && ToldOk(s, s.clients[t], t, j);
    }
  }

  lemma OtherClientAnswer(s: Sys, h: map<Token, QueueError>, t: Token, step: ClientStep, u: Token)
    requires Enabled(s, ClientEvent(t, step)) && TokenOk(s, t) && u < |s.clients| && u != t && AnswerOk(s, h, u)
    ensures u < |ClientNext(s, t, step).clients| && AnswerOk(ClientNext(s, t, step), h, u)
  {
    ClientTouches(s, t, step);
    TakeFacts(s.clients[t], t, step);
    if Take(s.clients[t], t, step).command.Some? {
      CommandIsOwn(s, t, Take(s.clients[t], t, step));
    }
    AnswerFrame(s, ClientNext(s, t, step), h, h, u);
  }

  // --- lifecycle commands ---

  lemma HeadCells(s: Sys, onward: ActorPc, u: Token)
    requires s.queue != [] && u < |s.clients|
    ensures
      var s' := HandleHead(s, onward);
      && |s'.clients| == |s.clients| && s'.ingress == s.ingress && s'.jobOf == s.jobOf && s'.log == s.log
      && s'.granted == s.granted && s'.superseded == s.superseded && s'.results == s.results
      && (s'.pc == onward || s'.pc.Stopping?)
      && s'.clients[u].reply == s.clients[u].reply && s'.clients[u].pc == s.clients[u].pc
      && (s'.clients[u].granted == s.clients[u].granted
          || (u in Abandoned(s.actor, s.queue[0]) && s'.clients[u].granted == DropSender(s.clients[u].granted)))
  {
  }

  /** A command drops the sender of its own token only. */
  lemma AbandonedIsCancelled(s: Sys, c: Command, u: Token)
    requires IndexesOk(s) && JobsOk(s) && u in Abandoned(s.actor, c)
    ensures c == Cancel(u)
  {
    assert JobOk(s, s.actor.pendingTokens[c.token]);
  }

  lemma CancelledAnswer(s: Sys, h: map<Token, QueueError>, onward: ActorPc, u: Token)
    requires s.queue != [] && Ready(s.pc) && onward.Draining? && u < |s.clients| && AnswerOk(s, h, u)
    requires Late(s.clients[u].pc)
    ensures u < |HandleHead(s, onward).clients| && AnswerOk(HandleHead(s, onward), h, u)
  {
    var s' := HandleHead(s, onward);
    HeadCells(s, onward, u);
    assert !Undecided(s'.clients[u].pc) && s'.jobOf == s.jobOf;
    assert RefusalOk(s', h, u) && ClosingOk(s', u);
  }

  lemma OtherHeadAnswer(s: Sys, h: map<Token, QueueError>, onward: ActorPc, u: Token)
    requires s.queue != [] && Ready(s.pc) && onward.Draining? && u < |s.clients| && AnswerOk(s, h, u)
    requires u !in Abandoned(s.actor, s.queue[0])
    ensures u < |HandleHead(s, onward).clients| && AnswerOk(HandleHead(s, onward), h, u)
  {
    HeadCells(s, onward, u);
    AnswerFrame(s, HandleHead(s, onward), h, h, u);
  }

  lemma HeadAnswers(s: Sys, h: map<Token, QueueError>, onward: ActorPc, u: Token)
    requires IndexesOk(s) && JobsOk(s) && LogOk(s) && s.queue != [] && Ready(s.pc) && onward.Draining?
    requires u < |s.clients| && TokenOk(s, u) && AnswerOk(s, h, u)
    ensures u < |HandleHead(s, onward).clients| && AnswerOk(HandleHead(s, onward), h, u)
  {
    if u in Abandoned(s.actor, s.queue[0]) {
      AbandonedIsCancelled(s, s.queue[0], u);
      assert Cancel(u) in s.log;
      CancelledAnswer(s, h, onward, u);
    } else {
      OtherHeadAnswer(s, h, onward, u);
    }
  }

  // --- delivery ---

  /** The waiter of the head grant gets its permit, or has gone and will never look. */
  lemma DeliveredAnswer(s: Sys, h: map<Token, QueueError>)
    requires GrantOk(s) && IndexesOk(s) && TokenOk(s, s.jobOf[s.pc.grants[0]])
    requires AnswerOk(s, h, s.jobOf[s.pc.grants[0]])
    ensures s.jobOf[s.pc.grants[0]] < |DeliverStep(s).clients|
    ensures AnswerOk(DeliverStep(s), h, s.jobOf[s.pc.grants[0]])
  {
    var j, s' := s.pc.grants[0], DeliverStep(s);
    var t := s.jobOf[j];
    DeliverTouches(s);
    GrantMints(s);
    assert j in Remaining(s.pc) && j !in s.superseded;
    assert JobIs(s, j, t) && t !in h;
    forall k | JobIs(s', k, t) && Undecided(s'.clients[t].pc) ensures ToldOk(s', s'.clients[t], t, k) {
      assert k == j && ToldOk(s, s.clients[t], t, j);
    }
  }

  lemma UndeliveredAnswer(s: Sys, h: map<Token, QueueError>, u: Token)
    requires GrantOk(s) && u < |s.clients| && u != s.jobOf[s.pc.grants[0]] && AnswerOk(s, h, u)
    ensures u < |DeliverStep(s).clients| && AnswerOk(DeliverStep(s), h, u)
  {
    DeliverTouches(s);
    AnswerFrame(s, DeliverStep(s), h, h, u);
  }

  lemma DeliverAnswers(s: Sys, h: map<Token, QueueError>, u: Token)
    requires IndexesOk(s) && IngressOk(s) && JobsOk(s) && Enabled(s, Deliver)
    requires u < |s.clients| && TokenOk(s, u) && AnswerOk(s, h, u)
    ensures u < |DeliverStep(s).clients| && AnswerOk(DeliverStep(s), h, u)
  {
    HeadGrantOk(s);
    if u == s.jobOf[s.pc.grants[0]] {
      DeliveredAnswer(s, h);
    } else {
      UndeliveredAnswer(s, h, u);
    }
  }

  // --- enqueue ---

  lemma TakenAnswer(s: Sys, h: map<Token, QueueError>)
    requires Enabled(s, TakeEnqueue) && IngressOk(s) && TokenOk(s, s.ingress[0]) && AnswerOk(s, h, s.ingress[0])
    ensures AnswerOk(TakeEnqueueStep(s), h + Refused(s, TakeEnqueue), s.ingress[0])
  {
    TakenLeavesIngress(s);
    assert HasNoJob(TakeEnqueueStep(s), s.ingress[0]);
  }

  lemma TakeAnswers(s: Sys, h: map<Token, QueueError>, u: Token)
    requires Enabled(s, TakeEnqueue) && IngressOk(s) && u < |s.clients| && TokenOk(s, u) && AnswerOk(s, h, u)
    ensures AnswerOk(TakeEnqueueStep(s), h + Refused(s, TakeEnqueue), u)
  {
    if u == s.ingress[0] {
      TakenAnswer(s, h);
    } else {
      TakenLeavesIngress(s);
      AnswerFrame(s, TakeEnqueueStep(s), h, h + Refused(s, TakeEnqueue), u);
    }
  }

  lemma DeniedAnswer(s: Sys, h: map<Token, QueueError>, error: QueueError)
    requires s.pc.Accepted? && PcOk(s) && TokenOk(s, s.pc.token) && AnswerOk(s, h, s.pc.token)
    ensures AnswerOk(AdmitNext(s, Deny(error)), h[s.pc.token := error], s.pc.token)
  {
    StoreOne(s.clients, s.pc.token);
    assert HasNoJob(AdmitNext(s, Deny(error)), s.pc.token);
  }

  lemma DenyAnswers(s: Sys, h: map<Token, QueueError>, error: QueueError, u: Token)
    requires Enabled(s, AdmitStep(Deny(error))) && PcOk(s) && u < |s.clients| && TokenOk(s, u) && AnswerOk(s, h, u)
    ensures u < |AdmitNext(s, Deny(error)).clients|
    ensures AnswerOk(AdmitNext(s, Deny(error)), h + Refused(s, AdmitStep(Deny(error))), u)
  {
    assert h + Refused(s, AdmitStep(Deny(error))) == h[s.pc.token := error];
    if u == s.pc.token {
      DeniedAnswer(s, h, error);
    } else {
      AnswerFrame(s, AdmitNext(s, Deny(error)), h, h[s.pc.token := error], u);
    }
  }

  /** The new job is not granted, replaced or completed yet, and its reply is the actor's next care. */
  lemma AdmittedAnswer(s: Sys, h: map<Token, QueueError>, prior: Option<JobId>)
    requires s.pc.Accepted? && PcOk(s) && IndexesOk(s) && LogOk(s) && CanAdmit(s.actor, Admit(prior))
    requires TokenOk(s, s.pc.token) && AnswerOk(s, h, s.pc.token)
    ensures s.pc.token < |AdmitNext(s, Admit(prior)).clients|
    ensures AnswerOk(AdmitNext(s, Admit(prior)), h, s.pc.token)
  {
    var s', t := AdmitNext(s, Admit(prior)), s.pc.token;
    AdmitTouches(s, prior);
    assert t !in h && !Ending(s.pc);
    forall j | JobIs(s', j, t) && Undecided(s'.clients[t].pc) ensures ToldOk(s', s'.clients[t], t, j) {
      assert j == s.actor.nextJob;
    }
  }

  lemma AdmitAnswers(s: Sys, h: map<Token, QueueError>, prior: Option<JobId>, u: Token)
    requires s.pc.Accepted? && PcOk(s) && IndexesOk(s) && LogOk(s) && CanAdmit(s.actor, Admit(prior))
    requires u < |s.clients| && TokenOk(s, u) && AnswerOk(s, h, u)
    ensures u < |AdmitNext(s, Admit(prior)).clients| && AnswerOk(AdmitNext(s, Admit(prior)), h, u)
  {
    AdmitTouches(s, prior);
    if u == s.pc.token {
      AdmittedAnswer(s, h, prior);
    } else {
      AnswerFrame(s, AdmitNext(s, Admit(prior)), h, h, u);
    }
  }

  /** The replaced waiter learns of it, if it still listens. */
  lemma SupersededAnswer(s: Sys, h: map<Token, QueueError>)
    requires s.pc.Superseding? && PcOk(s) && IndexesOk(s) && s.pc.prior in s.jobOf && JobOk(s, s.pc.prior)
    requires TokenOk(s, s.jobOf[s.pc.prior]) && AnswerOk(s, h, s.jobOf[s.pc.prior])
    ensures s.jobOf[s.pc.prior] < |SupersedeNext(s).clients|
    ensures AnswerOk(SupersedeNext(s), h, s.jobOf[s.pc.prior])
  {
    var s', t := SupersedeNext(s), s.jobOf[s.pc.prior];
    SupersedeTouches(s);
    assert JobIs(s, s.pc.prior, t) && t !in h;
    forall j | JobIs(s', j, t) && Undecided(s'.clients[t].pc) ensures ToldOk(s', s'.clients[t], t, j) {
      assert j == s.pc.prior && ToldOk(s, s.clients[t], t, j);
    }
  }

  lemma UnsupersededAnswer(s: Sys, h: map<Token, QueueError>, u: Token)
    requires s.pc.Superseding? && PcOk(s) && s.pc.prior in s.jobOf && JobOk(s, s.pc.prior)
    requires u < |s.clients| && u != s.jobOf[s.pc.prior] && AnswerOk(s, h, u)
    ensures u < |SupersedeNext(s).clients| && AnswerOk(SupersedeNext(s), h, u)
  {
    SupersedeTouches(s);
    AnswerFrame(s, SupersedeNext(s), h, h, u);
  }

  lemma SupersedeAnswers(s: Sys, h: map<Token, QueueError>, u: Token)
    requires s.pc.Superseding? && PcOk(s) && IndexesOk(s) && JobsOk(s)
    requires u < |s.clients| && TokenOk(s, u) && AnswerOk(s, h, u)
    ensures u < |SupersedeNext(s).clients| && AnswerOk(SupersedeNext(s), h, u)
  {
    assert s.pc.prior in s.jobOf && JobOk(s, s.pc.prior);
    if u == s.jobOf[s.pc.prior] {
      SupersededAnswer(s, h);
    } else {
      UnsupersededAnswer(s, h, u);
    }
  }

  lemma ForgetCells(s: Sys, u: Token)
    requires s.pc.Forgetting? && u < |s.clients|
    ensures
      var s' := ForgetNext(s);
      && |s'.clients| == |s.clients| && s'.clients[u].reply == s.clients[u].reply
      && s'.clients[u].granted == s.clients[u].granted && s'.clients[u].pc == s.clients[u].pc
      && s'.ingress == s.ingress && s'.jobOf == s.jobOf && s'.log == s.log
      && s'.granted == s.granted && s'.superseded == s.superseded && s'.pc == Replying(s.pc.token, s.pc.job)
  {
  }

  lemma ForgetAnswers(s: Sys, h: map<Token, QueueError>, u: Token)
    requires s.pc.Forgetting? && u < |s.clients| && AnswerOk(s, h, u)
    ensures u < |ForgetNext(s).clients| && AnswerOk(ForgetNext(s), h, u)
  {
    ForgetCells(s, u);
    AnswerFrame(s, ForgetNext(s), h, h, u);
  }

  /** The admitted caller is told its job; a withdrawn one has gone. */
  lemma RepliedAnswer(s: Sys, h: map<Token, QueueError>)
    requires s.pc.Replying? && PcOk(s) && IndexesOk(s) && JobOk(s, s.pc.job) && s.pc.token < |s.clients|
    requires TokenOk(s, s.pc.token) && AnswerOk(s, h, s.pc.token)
    ensures s.pc.token < |ReplyNext(s).clients| && AnswerOk(ReplyNext(s), h, s.pc.token)
  {
    var s', t, job := ReplyNext(s), s.pc.token, s.pc.job;
    if s.clients[t].reply.Open? { AdmittedTouches(s); } else { WithdrawnTouches(s); }
    assert JobIs(s, job, t) && t !in h;
    forall j | JobIs(s', j, t) && Undecided(s'.clients[t].pc) ensures ToldOk(s', s'.clients[t], t, j) {
      assert j == job && ToldOk(s, s.clients[t], t, j);
    }
  }

  lemma UnrepliedAnswer(s: Sys, h: map<Token, QueueError>, u: Token)
    requires s.pc.Replying? && PcOk(s) && JobOk(s, s.pc.job) && s.pc.token < |s.clients|
    requires u < |s.clients| && u != s.pc.token && AnswerOk(s, h, u)
    ensures u < |ReplyNext(s).clients| && AnswerOk(ReplyNext(s), h, u)
  {
    if s.clients[s.pc.token].reply.Open? { AdmittedTouches(s); } else { WithdrawnTouches(s); }
    assert forall j :: JobIs(s, j, u) ==> !BusyJob(s.pc, j);
    AnswerFrame(s, ReplyNext(s), h, h, u);
  }

  lemma ReplyAnswers(s: Sys, h: map<Token, QueueError>, u: Token)
    requires s.pc.Replying? && PcOk(s) && IndexesOk(s) && JobsOk(s) && s.pc.token < |s.clients|
    requires u < |s.clients| && TokenOk(s, u) && AnswerOk(s, h, u)
    ensures u < |ReplyNext(s).clients| && AnswerOk(ReplyNext(s), h, u)
  {
    assert JobOk(s, s.pc.job);
    if u == s.pc.token { RepliedAnswer(s, h); } else { UnrepliedAnswer(s, h, u); }
  }

  lemma RefusedAnswer(s: Sys, h: map<Token, QueueError>)
    requires s.pc.Refusing? && PcOk(s) && HistoryOk(s, h) && TokenOk(s, s.pc.token) && AnswerOk(s, h, s.pc.token)
    ensures AnswerOk(RefuseNext(s), h, s.pc.token)
  {
    assert HasNoJob(RefuseNext(s), s.pc.token);
  }

  lemma RefuseAnswers(s: Sys, h: map<Token, QueueError>, u: Token)
    requires s.pc.Refusing? && PcOk(s) && HistoryOk(s, h) && u < |s.clients| && TokenOk(s, u) && AnswerOk(s, h, u)
    ensures u < |RefuseNext(s).clients| && AnswerOk(RefuseNext(s), h, u)
  {
    if u == s.pc.token {
      RefusedAnswer(s, h);
    } else {
      AnswerFrame(s, RefuseNext(s), h, h, u);
    }
  }

  // --- shutdown ---

  /** A closed waiter's job was pending to the last. */
  lemma ClosedAnswer(s: Sys, h: map<Token, QueueError>, job: JobId)
    requires s.pc.Stopping? && IndexesOk(s) && job in s.actor.waiters && job in s.jobOf && JobOk(s, job)
    requires TokenOk(s, s.jobOf[job]) && AnswerOk(s, h, s.jobOf[job])
    ensures s.jobOf[job] < |CloseNext(s, job).clients| && AnswerOk(CloseNext(s, job), h, s.jobOf[job])
  {
    var s', t := CloseNext(s, job), s.jobOf[job];
    CloseTouches(s, job);
    assert JobIs(s, job, t) && t !in h && Unfated(s', t);
    forall j | JobIs(s', j, t) && Undecided(s'.clients[t].pc) ensures ToldOk(s', s'.clients[t], t, j) {
      assert j == job && ToldOk(s, s.clients[t], t, j);
    }
  }

  lemma CloseAnswers(s: Sys, h: map<Token, QueueError>, job: JobId, u: Token)
    requires Enabled(s, CloseWaiter(job)) && IndexesOk(s) && JobsOk(s)
    requires u < |s.clients| && TokenOk(s, u) && AnswerOk(s, h, u)
    ensures u < |CloseNext(s, job).clients| && AnswerOk(CloseNext(s, job), h, u)
  {
    assert JobOk(s, job);
    CloseTouches(s, job);
    if u == s.jobOf[job] {
      ClosedAnswer(s, h, job);
    } else {
      AnswerFrame(s, CloseNext(s, job), h, h, u);
    }
  }

  /** A command left in the ingress has no job. */
  lemma LeftAnswer(s: Sys, h: map<Token, QueueError>, u: Token)
    requires s.pc.Stopping? && u in s.ingress && u < |s.clients| && TokenOk(s, u) && AnswerOk(s, h, u)
    ensures AnswerOk(StopNext(s), h, u)
  {
    assert HasNoJob(StopNext(s), u);
  }

  lemma StopAnswers(s: Sys, h: map<Token, QueueError>, u: Token)
    requires s.pc.Stopping? && u < |s.clients| && TokenOk(s, u) && AnswerOk(s, h, u)
    ensures AnswerOk(StopNext(s), h, u)
  {
    if u in s.ingress {
      LeftAnswer(s, h, u);
    } else {
      AnswerFrame(s, StopNext(s), h, h, u);
    }
  }

  // --- every event ---

  /** Everything about the actor itself that the invariant says. */
  ghost predicate ActorOk(s: Sys) {
    IndexesOk(s) && PcOk(s) && IngressOk(s) && JobsOk(s) && LogOk(s)
  }

  lemma AdmissionAnswers(s: Sys, h: map<Token, QueueError>, e: Event, u: Token)
    requires ActorOk(s) && Enabled(s, e) && (e.TakeEnqueue? || e.AdmitStep?)
    requires u < |s.clients| && TokenOk(s, u) && AnswerOk(s, h, u)
    ensures u < |Next(s, e).clients| && AnswerOk(Next(s, e), h + Refused(s, e), u)
  {
    match e
    case TakeEnqueue => TakeAnswers(s, h, u);
    case AdmitStep(Admit(prior)) =>
      assert h + Refused(s, e) == h;
      AdmitAnswers(s, h, prior, u);
    case AdmitStep(Deny(error)) => DenyAnswers(s, h, error, u);
  }

  lemma ReplyingAnswers(s: Sys, h: map<Token, QueueError>, e: Event, u: Token)
    requires ActorOk(s) && HistoryOk(s, h) && Enabled(s, e)
    requires e.SupersedeStep? || e.ForgetStep? || e.ReplyStep? || e.RefuseStep?
    requires u < |s.clients| && TokenOk(s, u) && AnswerOk(s, h, u)
    ensures u < |Next(s, e).clients| && AnswerOk(Next(s, e), h, u)
  {
    match e
    case SupersedeStep => SupersedeAnswers(s, h, u);
    case ForgetStep => ForgetAnswers(s, h, u);
    case ReplyStep => ReplyAnswers(s, h, u);
    case RefuseStep => RefuseAnswers(s, h, u);
  }

  lemma ClientAnswers(s: Sys, h: map<Token, QueueError>, t: Token, step: ClientStep, u: Token)
    requires Enabled(s, ClientEvent(t, step)) && TokenOk(s, t)
    requires u < |s.clients| && TokenOk(s, u) && AnswerOk(s, h, u)
    ensures u < |ClientNext(s, t, step).clients| && AnswerOk(ClientNext(s, t, step), h, u)
  {
    if u == t { OwnClientAnswer(s, h, t, step); } else { OtherClientAnswer(s, h, t, step, u); }
  }

  lemma CommandAnswers(s: Sys, h: map<Token, QueueError>, e: Event, u: Token)
    requires IndexesOk(s) && JobsOk(s) && LogOk(s) && Enabled(s, e) && (e.Drain? || e.TakeLifecycle?)
    requires u < |s.clients| && TokenOk(s, u) && AnswerOk(s, h, u)
    ensures u < |Next(s, e).clients| && AnswerOk(Next(s, e), h, u)
  {
    if e.Drain? { HeadAnswers(s, h, Draining(s.pc.n + 1), u); } else { HeadAnswers(s, h, Draining(0), u); }
  }

  lemma ClosingAnswers(s: Sys, h: map<Token, QueueError>, e: Event, u: Token)
    requires IndexesOk(s) && JobsOk(s) && Enabled(s, e) && (e.CloseWaiter? || e.Stop?)
    requires u < |s.clients| && TokenOk(s, u) && AnswerOk(s, h, u)
    ensures u < |Next(s, e).clients| && AnswerOk(Next(s, e), h, u)
  {
    if e.CloseWaiter? { CloseAnswers(s, h, e.job, u); } else { StopAnswers(s, h, u); }
  }

  lemma LoopingAnswers(s: Sys, h: map<Token, QueueError>, e: Event, u: Token)
    requires ActorOk(s) && Enabled(s, e) && !OfEnqueue(e) && !e.Mint? && !e.ClientEvent?
    requires u < |s.clients| && TokenOk(s, u) && AnswerOk(s, h, u)
    ensures u < |Next(s, e).clients| && AnswerOk(Next(s, e), h, u)
  {
    if e.Drain? || e.TakeLifecycle? {
      CommandAnswers(s, h, e, u);
    } else if e.CloseWaiter? || e.Stop? {
      ClosingAnswers(s, h, e, u);
    } else if e.Deliver? {
      DeliverAnswers(s, h, u);
    } else {
      LoopAnswers(s, h, e, u);
    }
  }

  lemma OldAnswer(s: Sys, h: map<Token, QueueError>, e: Event, u: Token)
    requires ActorOk(s) && TokensOk(s) && HistoryOk(s, h) && Enabled(s, e) && !e.Mint?
    requires u < |s.clients| && AnswerOk(s, h, u)
    ensures u < |Next(s, e).clients| && AnswerOk(Next(s, e), h + Refused(s, e), u)
  {
    assert TokenOk(s, u);
    if e.TakeEnqueue? || e.AdmitStep? {
      AdmissionAnswers(s, h, e, u);
    } else {
      assert h + Refused(s, e) == h;
      if OfEnqueue(e) {
        ReplyingAnswers(s, h, e, u);
      } else if e.ClientEvent? {
        ClientAnswers(s, h, e.t, e.step, u);
      } else {
        LoopingAnswers(s, h, e, u);
      }
    }
  }

  // --- the history ---

  /** Nobody is refused twice. */
  lemma RefusedIsNew(s: Sys, h: map<Token, QueueError>, e: Event, t: Token)
    requires Enabled(s, e) && AnswersOk(s, h) && PcOk(s) && t in Refused(s, e)
    ensures t !in h && t < |Next(s, e).clients|
  {
    if t < |s.clients| {
      assert AnswerOk(s, h, t);
    }
  }

  lemma ClientsStay(s: Sys, e: Event)
    requires Enabled(s, e)
    ensures |s.clients| <= |Next(s, e).clients| && (!e.Mint? ==> |Next(s, e).clients| == |s.clients|)
  {
    match e
    case ClientEvent(t, step) => ClientTouches(s, t, step);
    case _ =>
  }

  /** A refusal in progress is in the history. */
  lemma RefusingIsKnown(s: Sys, h: map<Token, QueueError>, e: Event)
    requires Enabled(s, e) && HistoryOk(s, h) && Next(s, e).pc.Refusing?
    ensures
      var pc, h' := Next(s, e).pc, h + Refused(s, e);
      pc.token in Refused(s, e) || (pc == s.pc && !e.AdmitStep? && !e.TakeEnqueue?)
    ensures Next(s, e).pc.token in Refused(s, e) ==> Refused(s, e)[Next(s, e).pc.token] == Next(s, e).pc.error
  {
    match e
    case ClientEvent(t, step) => ClientTouches(s, t, step);
    case _ =>
  }

  /** A stopping actor admits, grants and replaces nothing more. */
  lemma EndingStays(s: Sys, e: Event)
    requires Enabled(s, e) && Ending(s.pc)
    ensures
      var s' := Next(s, e);
      && Ending(s'.pc) && s'.jobOf == s.jobOf && s'.granted == s.granted && s'.superseded == s.superseded
      && (e.Mint? || Refused(s, e) == map[])
  {
    match e
    case ClientEvent(t, step) => ClientTouches(s, t, step);
    case _ =>
  }

  lemma OutcomePersists(s: Sys, h: map<Token, QueueError>, e: Event, r: Resolution)
    requires Enabled(s, e) && AnswersOk(s, h) && PcOk(s) && r.token < |s.clients| && OutcomeOk(s, h, r)
    ensures OutcomeOk(Next(s, e), h + Refused(s, e), r)
  {
    if r.token in Refused(s, e) {
      RefusedIsNew(s, h, e, r.token);
    }
    if r.outcome.GotClosed? {
      EndingStays(s, e);
      assert Unfated(Next(s, e), r.token);
    }
  }

  /** What a client has just been told is true. */
  lemma NewOutcome(s: Sys, h: map<Token, QueueError>, t: Token, step: ClientStep)
    requires Enabled(s, ClientEvent(t, step)) && TokenOk(s, t) && AnswerOk(s, h, t)
    requires Take(s.clients[t], t, step).outcome.Some?
    ensures OutcomeOk(ClientNext(s, t, step), h, Resolution(t, Take(s.clients[t], t, step).outcome.value))
  {
    var s', c := ClientNext(s, t, step), s.clients[t];
    ClientTouches(s, t, step);
    TakeTells(c, t, step);
    if Take(c, t, step).outcome.value.GotClosed? {
      if c.pc.Waiting? {
        assert JobIs(s, c.pc.job, t) && t !in h;
      } else {
        assert HasNoJob(s, t) && Unfated(s, t);
      }
      assert Unfated(s, t) && Unfated(s', t);
    }
  }

  lemma OtherResults(s: Sys, e: Event)
    requires Enabled(s, e) && !e.ClientEvent?
    ensures Next(s, e).results == s.results
  {
  }

  lemma OldOutcomes(s: Sys, h: map<Token, QueueError>, e: Event)
    requires PcOk(s) && ResultsOk(s) && AnswersOk(s, h) && Enabled(s, e)
    ensures forall i :: 0 <= i < |s.results| ==> OutcomeOk(Next(s, e), h + Refused(s, e), s.results[i])
  {
    forall i | 0 <= i < |s.results| ensures OutcomeOk(Next(s, e), h + Refused(s, e), s.results[i]) {
      assert ResultOk(s, s.results[i]) && OutcomeOk(s, h, s.results[i]);
      OutcomePersists(s, h, e, s.results[i]);
    }
  }

  lemma OutcomesAfterClient(s: Sys, h: map<Token, QueueError>, t: Token, step: ClientStep)
    requires PcOk(s) && ResultsOk(s) && TokensOk(s) && AnswersOk(s, h) && Enabled(s, ClientEvent(t, step))
    ensures
      var s' := ClientNext(s, t, step);
      forall i :: 0 <= i < |s'.results| ==> OutcomeOk(s', h, s'.results[i])
  {
    OldOutcomes(s, h, ClientEvent(t, step));
    assert h + Refused(s, ClientEvent(t, step)) == h;
    ClientTouches(s, t, step);
    if Take(s.clients[t], t, step).outcome.Some? {
      assert TokenOk(s, t) && AnswerOk(s, h, t);
      NewOutcome(s, h, t, step);
    }
  }

  lemma NextKeepsOutcomes(s: Sys, h: map<Token, QueueError>, e: Event)
    requires PcOk(s) && ResultsOk(s) && TokensOk(s) && AnswersOk(s, h) && Enabled(s, e)
    ensures
      var s' := Next(s, e);
      forall i :: 0 <= i < |s'.results| ==> OutcomeOk(s', h + Refused(s, e), s'.results[i])
  {
    if e.ClientEvent? {
      assert h + Refused(s, e) == h;
      OutcomesAfterClient(s, h, e.t, e.step);
    } else {
      OldOutcomes(s, h, e);
      OtherResults(s, e);
    }
  }

  lemma NextKeepsHistory(s: Sys, h: map<Token, QueueError>, e: Event)
    requires PcOk(s) && ResultsOk(s) && TokensOk(s) && AnswersOk(s, h) && Enabled(s, e)
    ensures HistoryOk(Next(s, e), h + Refused(s, e))
  {
    ClientsStay(s, e);
    forall t | t in h + Refused(s, e) ensures t < |Next(s, e).clients| {
      if t in Refused(s, e) {
        RefusedIsNew(s, h, e, t);
      }
    }
    if Next(s, e).pc.Refusing? {
      RefusingIsKnown(s, h, e);
    }
    NextKeepsOutcomes(s, h, e);
  }

  lemma NextKeepsAnswers(s: Sys, h: map<Token, QueueError>, e: Event)
    requires Inv(s) && AnswersOk(s, h) && Enabled(s, e)
    ensures AnswersOk(Next(s, e), h + Refused(s, e))
  {
    NextKeepsHistory(s, h, e);
    ClientsStay(s, e);
    forall u: Token | u < |Next(s, e).clients| ensures AnswerOk(Next(s, e), h + Refused(s, e), u) {
      if e.Mint? {
        MintAnswers(s, h, u);
      } else {
        assert AnswerOk(s, h, u);
        OldAnswer(s, h, e, u);
      }
    }
  }

  lemma MapsJoin<K, V>(a: map<K, V>, b: map<K, V>, c: map<K, V>)
    ensures a + map[] == a && map[] + a == a && (a + b) + c == a + (b + c)
  {
  }

  lemma RefusalsFirst(s: Sys, events: seq<Event>)
    requires IsRun(s, events) && events != []
    ensures Refusals(s, events) == Refused(s, events[0]) + Refusals(Next(s, events[0]), events[1..])
    ensures After(s, events) == After(Next(s, events[0]), events[1..])
  {
  }

  lemma {:induction false} RunKeepsAnswers(s: Sys, h: map<Token, QueueError>, events: seq<Event>)
    requires Inv(s) && AnswersOk(s, h) && IsRun(s, events)
    ensures AnswersOk(After(s, events), h + Refusals(s, events))
    decreases |events|
  {
    if events == [] {
      MapsJoin(h, h, h);
    } else {
      var s', refused := Next(s, events[0]), Refused(s, events[0]);
      NextKeepsInv(s, events[0]);
      NextKeepsAnswers(s, h, events[0]);
      RunKeepsAnswers(s', h + refused, events[1..]);
      RefusalsFirst(s, events);
      MapsJoin(h, refused, Refusals(s', events[1..]));
    }
  }

  // --- what acquires are told ---

  lemma AnswersAfter(capacity: pos, events: seq<Event>)
    requires IsRun(Initial(capacity), events)
    ensures Inv(After(Initial(capacity), events))
    ensures AnswersOk(After(Initial(capacity), events), Refusals(Initial(capacity), events))
  {
    var refusals := Refusals(Initial(capacity), events);
    InitialOk(capacity);
    RunKeepsInv(Initial(capacity), events);
    RunKeepsAnswers(Initial(capacity), map[], events);
    MapsJoin(refusals, refusals, refusals);
  }

  /**
   An outcome is decided by what happened to the acquire, over any run: the reason it was refused for, if
   it was; otherwise the permit of its job, if that was granted, or its replacement, if it was replaced;
   and a closed queue only when the actor is stopping and none of these happened.
   */
  lemma OutcomeIsDecided(capacity: pos, events: seq<Event>, i: nat)
    requires IsRun(Initial(capacity), events) && i < |After(Initial(capacity), events).results|
    ensures
      var s, h := After(Initial(capacity), events), Refusals(Initial(capacity), events);
      var t, outcome := s.results[i].token, s.results[i].outcome;
      && (t in h ==> outcome == GotDenied(h[t]) && HasNoJob(s, t))
      && (forall j :: JobIs(s, j, t) && j in s.granted ==> outcome == GotPermit(j))
      && (forall j :: JobIs(s, j, t) && j in s.superseded ==> outcome == GotSuperseded(j))
      && (t !in h && Unfated(s, t) ==> outcome == GotClosed && Ending(s.pc))
  {
    var s, h := After(Initial(capacity), events), Refusals(Initial(capacity), events);
    AnswersAfter(capacity, events);
    var r := s.results[i];
    assert ResultOk(s, r) && OutcomeOk(s, h, r) && AnswerOk(s, h, r.token);
    forall j | JobIs(s, j, r.token) ensures !(j in s.granted && j in s.superseded) {
      assert JobOk(s, j);
    }
  }

  /** The permit of a granted job is where its future will find it. */
  lemma PermitIsBuffered(s: Sys, h: map<Token, QueueError>, t: Token, j: JobId)
    requires Inv(s) && t < |s.clients| && AnswerOk(s, h, t) && Undecided(s.clients[t].pc)
    requires JobIs(s, j, t) && j in s.granted && j !in Remaining(s.pc)
    ensures s.clients[t].granted == Sent(Granted(j))
  {
    assert TokenOk(s, t) && JobOk(s, j) && ToldOk(s, s.clients[t], t, j);
    assert j in s.actor.inFlight && Complete(j, t) !in s.queue;
  }

  /** A job that waits, or a command still in the ingress, has nothing to read. */
  lemma NothingIsBuffered(s: Sys, t: Token)
    requires Inv(s) && t < |s.clients| && Undecided(s.clients[t].pc) && !Ending(s.pc) && !Busy(s.pc, t)
    requires t in s.ingress || exists j :: JobIs(s, j, t) && j in s.actor.pending
    ensures Settled(s.clients[t], t).None?
  {
    assert TokenOk(s, t);
    if t !in s.ingress {
      var j :| JobIs(s, j, t) && j in s.actor.pending;
      assert JobOk(s, j);
    }
  }

  lemma SupersessionIsBuffered(s: Sys, h: map<Token, QueueError>, t: Token, j: JobId)
    requires t < |s.clients| && AnswerOk(s, h, t) && TokenOk(s, t) && Undecided(s.clients[t].pc) && !Busy(s.pc, t)
    requires JobIs(s, j, t) && j in s.superseded
    ensures Settled(s.clients[t], t) == Some(GotSuperseded(j))
  {
    assert ToldOk(s, s.clients[t], t, j);
  }

  lemma PermitIsTold(s: Sys, h: map<Token, QueueError>, t: Token, j: JobId)
    requires t < |s.clients| && AnswerOk(s, h, t) && TokenOk(s, t) && Undecided(s.clients[t].pc) && !Busy(s.pc, t)
    requires JobIs(s, j, t) && s.clients[t].granted == Sent(Granted(j))
    ensures Settled(s.clients[t], t) == Some(GotPermit(j))
  {
    assert ToldOk(s, s.clients[t], t, j);
  }

  /**
   And it is what a future that is still polled will get, whenever the actor is not busy with it: the
   reason it was refused for, the permit of its granted job, the news of its replacement, or nothing yet.
   */
  lemma AnswerReachesCaller(capacity: pos, events: seq<Event>, t: Token)
    requires IsRun(Initial(capacity), events)
    requires var s := After(Initial(capacity), events);
      t < |s.clients| && Undecided(s.clients[t].pc) && !Busy(s.pc, t)
    ensures
      var s, h := After(Initial(capacity), events), Refusals(Initial(capacity), events);
      var told := Settled(s.clients[t], t);
      && (t in h ==> told == Some(GotDenied(h[t])))
      && (forall j :: JobIs(s, j, t) && j in s.granted && j !in Remaining(s.pc) ==> told == Some(GotPermit(j)))
      && (forall j :: JobIs(s, j, t) && j in s.superseded ==> told == Some(GotSuperseded(j)))
      && (!Ending(s.pc) && (t in s.ingress || exists j :: JobIs(s, j, t) && j in s.actor.pending) ==> told.None?)
  {
    var s, h := After(Initial(capacity), events), Refusals(Initial(capacity), events);
    AnswersAfter(capacity, events);
    assert AnswerOk(s, h, t) && TokenOk(s, t);
    forall j | JobIs(s, j, t) && j in s.granted && j !in Remaining(s.pc)
      ensures Settled(s.clients[t], t) == Some(GotPermit(j))
    {
      PermitIsBuffered(s, h, t, j);
      PermitIsTold(s, h, t, j);
    }
    forall j | JobIs(s, j, t) && j in s.superseded ensures Settled(s.clients[t], t) == Some(GotSuperseded(j)) {
      SupersessionIsBuffered(s, h, t, j);
    }
    if !Ending(s.pc) && (t in s.ingress || exists j :: JobIs(s, j, t) && j in s.actor.pending) {
      NothingIsBuffered(s, t);
    }
  }
}
