/** The steps of a client keep the protocol invariant. */
module ActorClientSteps {
  import opened Basics
  import opened ActorModel
  import opened ActorProtocol
  import opened ActorInvariant
  import opened ActorClients
  import opened ActorFrames

  /** The system after a client effect, without the recorded outcome. */
  function Stepped(s: Sys, t: Token, f: Effect): Sys
    requires t < |s.clients|
  {
    var s1 := s.(clients := s.clients[t := f.client]);
    if f.command.Some? then Issue(s1, f.command.value) else s1
  }

  /** A client issues commands about its own token and its own permit only. */
  lemma CommandIsOwn(s: Sys, t: Token, f: Effect)
    requires t < |s.clients| && TokenOk(s, t) && TakeOk(s.clients[t], t, f) && f.command.Some?
    ensures
      match f.command.value
      case Cancel(u) => u == t
      case Complete(j, u) => u == t && JobIs(s, j, t)
      case Start(j) => JobIs(s, j, t)
      case _ => false
  {
  }

  lemma OtherToken(s: Sys, t: Token, f: Effect, u: Token)
    requires t < |s.clients| && u < |s.clients| && u != t
    requires TokenOk(s, t) && TokenOk(s, u) && TakeOk(s.clients[t], t, f)
    ensures TokenOk(Stepped(s, t, f), u)
  {
    var s' := Stepped(s, t, f);
    if f.command.Some? {
      CommandIsOwn(s, t, f);
    }
    assert SameJobs(s, s', u);
    TokenFrame(s, s', u);
  }

  lemma OwnMessages(s: Sys, t: Token, f: Effect)
    requires t < |s.clients| && TokenOk(s, t) && TakeOk(s.clients[t], t, f)
    ensures MessagesOk(Stepped(s, t, f), f.client, t) && SendersOk(Stepped(s, t, f), f.client, t)
  {
    assert HasNoJob(s, t) ==> HasNoJob(Stepped(s, t, f), t);
  }

  lemma OwnPermit(s: Sys, t: Token, f: Effect)
    requires t < |s.clients| && PermitOk(s, s.clients[t], t) && PermitSteps(s.clients[t], t, f)
    ensures PermitOk(Stepped(s, t, f), f.client, t)
  {
  }

  lemma OwnIngress(s: Sys, t: Token, f: Effect)
    requires t < |s.clients| && t in s.ingress && TokenOk(s, t) && TakeOk(s.clients[t], t, f)
    ensures InIngressOk(Stepped(s, t, f), f.client, t)
  {
    assert HasNoJob(Stepped(s, t, f), t);
  }

  lemma OwnToken(s: Sys, t: Token, f: Effect)
    requires t < |s.clients| && TokenOk(s, t) && TakeOk(s.clients[t], t, f)
    ensures TokenOk(Stepped(s, t, f), t)
  {
    OwnMessages(s, t, f);
    OwnPermit(s, t, f);
    if t in s.ingress { OwnIngress(s, t, f); }
  }

  lemma OwnPending(s: Sys, t: Token, f: Effect, j: JobId)
    requires t < |s.clients| && PendingOk(s, j, t)
    requires f.client.shared.TokenAccepted? || f.client.shared.TokenCancelled?
    requires !Ending(s.pc) ==> Owned(f.client, j, Cancel(t) in s.queue || f.command == Some(Cancel(t)))
    ensures PendingOk(Stepped(s, t, f), j, t)
  {
  }

  lemma OwnInFlight(s: Sys, t: Token, f: Effect, j: JobId)
    requires t < |s.clients| && InFlightOk(s, j, t) && PermitSteps(s.clients[t], t, f)
    ensures InFlightOk(Stepped(s, t, f), j, t)
  {
  }

  lemma OwnWaiter(s: Sys, t: Token, f: Effect, j: JobId)
    requires t < |s.clients| && j in s.actor.waiters && WaiterOk(s, j, t)
    requires OnlyReads(s.clients[t].reply, f.client.reply) && OnlyReads(s.clients[t].granted, f.client.granted)
    ensures WaiterOk(Stepped(s, t, f), j, t)
  {
  }

  lemma OwnCommands(s: Sys, t: Token, f: Effect, j: JobId)
    requires t < |s.clients| && TokenOk(s, t) && TakeOk(s.clients[t], t, f) && j in Remaining(s.pc)
    ensures Complete(j, t) in Stepped(s, t, f).log ==> Complete(j, t) in s.log
    ensures Start(j) in Stepped(s, t, f).log ==> Start(j) in s.log
  {
  }

  /** What the client of job `j` does keeps the job accounted for. */
  lemma OwnJob(s: Sys, t: Token, f: Effect, j: JobId)
    requires t < |s.clients| && TokenOk(s, t) && TakeOk(s.clients[t], t, f)
    requires JobIs(s, j, t) && JobOk(s, j)
    requires j in s.actor.pending ==> f.client.shared.TokenAccepted? || f.client.shared.TokenCancelled?
    requires j in s.actor.pending && !Ending(s.pc) ==>
      Owned(f.client, j, Cancel(t) in s.queue || f.command == Some(Cancel(t)))
    ensures JobOk(Stepped(s, t, f), j)
  {
    if j in s.actor.pending { OwnPending(s, t, f, j); }
    if j in s.actor.inFlight { OwnInFlight(s, t, f, j); }
    if j in s.actor.waiters { OwnWaiter(s, t, f, j); }
    if j in Remaining(s.pc) { OwnCommands(s, t, f, j); }
  }

  lemma OtherJob(s: Sys, t: Token, f: Effect, j: JobId)
    requires t < |s.clients| && TokenOk(s, t) && TakeOk(s.clients[t], t, f)
    requires j in s.jobOf && s.jobOf[j] != t && JobOk(s, j)
    ensures JobOk(Stepped(s, t, f), j)
  {
    var s' := Stepped(s, t, f);
    if f.command.Some? {
      CommandIsOwn(s, t, f);
    }
    assert SameOwner(s, s', j) && SameCommands(s, s', j, s.jobOf[j]);
    JobFrame(s, s', j);
  }

  lemma OwnJobOfStep(s: Sys, t: Token, step: ClientStep, j: JobId)
    requires t < |s.clients| && CanTake(s.clients[t], step) && TokenOk(s, t)
    requires JobIs(s, j, t) && JobOk(s, j) && (j in s.actor.pending ==> PermitOf(s.clients[t]).None?)
    ensures JobOk(Stepped(s, t, Take(s.clients[t], t, step)), j)
  {
    var f := Take(s.clients[t], t, step);
    TakeFacts(s.clients[t], t, step);
    if j in s.actor.pending && !Ending(s.pc) {
      OwnerPersists(s.clients[t], t, step, j, Cancel(t) in s.queue);
    }
    OwnJob(s, t, f, j);
  }

  lemma IndexesAfterClient(s: Sys, t: Token, f: Effect)
    requires t < |s.clients| && IndexesOk(s) && IngressOk(s) && LoopOk(s)
    ensures IndexesOk(Stepped(s, t, f)) && IngressOk(Stepped(s, t, f)) && LoopOk(Stepped(s, t, f))
  {
  }

  lemma PcAfterClient(s: Sys, t: Token, step: ClientStep)
    requires t < |s.clients| && CanTake(s.clients[t], step) && TokenOk(s, t) && PcOk(s)
    ensures PcOk(Stepped(s, t, Take(s.clients[t], t, step)))
  {
    var f := Take(s.clients[t], t, step);
    TakeFacts(s.clients[t], t, step);
    var s' := Stepped(s, t, f);
    assert forall u :: HasNoJob(s, u) ==> HasNoJob(s', u);
    if s.pc == Accepted(t) {
      OwnerPersists(s.clients[t], t, step, s.actor.nextJob, Cancel(t) in s.queue);
    }
  }

  /** Issuing a command that may be issued now. */
  lemma AppendToLog(s: Sys, c: Command)
    requires LogOk(s)
    requires Repeatable(c) || c !in s.log
    requires c.Complete? ==> JobIs(s, c.job, c.token) && c.job in s.granted
    requires c.Start? ==> c.job in s.granted && forall u: Token :: Complete(c.job, u) !in s.log
    requires c.Cancel? ==> c.token < |s.clients|
    ensures LogOk(Issue(s, c))
  {
    var s' := Issue(s, c);
    assert forall i :: 0 <= i < |s.log| ==> s.log[i] in s.log;
    assert forall i :: 0 <= i < |s.log| ==> s'.log[i] == s.log[i];
    assert forall i :: 0 <= i < |s'.log| && i >= |s.log| ==> s'.log[i] == c;
  }

  /** A client never repeats a command, and starts a permit only before completing it. */
  lemma LogAfterClient(s: Sys, t: Token, f: Effect)
    requires t < |s.clients| && TokenOk(s, t) && TakeOk(s.clients[t], t, f) && LogOk(s) && JobsOk(s)
    ensures LogOk(Stepped(s, t, f))
  {
    var s1 := s.(clients := s.clients[t := f.client]);
    assert LogOk(s1);
    if f.command.Some? {
      if PermitOf(s.clients[t]).Some? {
        assert JobOk(s, PermitOf(s.clients[t]).value);
      }
      AppendToLog(s1, f.command.value);
    }
  }

  lemma OldResults(s: Sys, t: Token, f: Effect)
    requires t < |s.clients| && TokenOk(s, t) && TakeOk(s.clients[t], t, f) && ResultsOk(s)
    ensures ResultsOk(Stepped(s, t, f))
  {
    var s' := Stepped(s, t, f);
    forall i | 0 <= i < |s.results| ensures ResultOk(s', s.results[i]) {
      assert ResultOk(s, s.results[i]);
    }
  }

  lemma NewResult(s: Sys, t: Token, f: Effect)
    requires t < |s.clients| && TokenOk(s, t) && TakeOk(s.clients[t], t, f) && JobsOk(s) && f.outcome.Some?
    ensures ResultOk(Stepped(s, t, f), Resolution(t, f.outcome.value))
  {
    if PermitOf(s.clients[t]).Some? {
      assert JobOk(s, PermitOf(s.clients[t]).value);
    }
  }

  lemma FirstResult(s: Sys, t: Token)
    requires ResultsOk(s) && t < |s.clients| && (s.clients[t].pc.Enqueuing? || s.clients[t].pc.Waiting?)
    ensures forall i :: 0 <= i < |s.results| ==> s.results[i].token != t
  {
    forall i | 0 <= i < |s.results| ensures s.results[i].token != t {
      assert ResultOk(s, s.results[i]);
    }
  }

  lemma RecordResult(s: Sys, r: Resolution)
    requires ResultsOk(s) && ResultOk(s, r) && forall i :: 0 <= i < |s.results| ==> s.results[i].token != r.token
    ensures ResultsOk(s.(results := s.results + [r]))
  {
    var s' := s.(results := s.results + [r]);
    forall i | 0 <= i < |s'.results| ensures ResultOk(s', s'.results[i]) {
      assert ResultOk(s, if i < |s.results| then s.results[i] else r);
    }
  }

  /** Recording the outcome: the acquire had not resolved before. */
  lemma ResultsAfterClient(s: Sys, t: Token, f: Effect)
    requires t < |s.clients| && TokenOk(s, t) && TakeOk(s.clients[t], t, f) && ResultsOk(s) && JobsOk(s)
    ensures
      var s' := Stepped(s, t, f);
      ResultsOk(if f.outcome.Some? then s'.(results := s'.results + [Resolution(t, f.outcome.value)]) else s')
  {
    OldResults(s, t, f);
    if f.outcome.Some? {
      var r := Resolution(t, f.outcome.value);
      NewResult(s, t, f);
      FirstResult(s, t);
      RecordResult(Stepped(s, t, f), r);
    }
  }

  lemma OutcomesHideNoToken(s: Sys, s': Sys)
    requires s' == s.(results := s'.results) && TokensOk(s)
    ensures TokensOk(s')
  {
    forall u: Token | u < |s'.clients| ensures TokenOk(s', u) {
      assert TokenOk(s, u) && SameJobs(s, s', u);
      TokenFrame(s, s', u);
    }
  }

  lemma OutcomesHideNoJob(s: Sys, s': Sys)
    requires s' == s.(results := s'.results) && JobsOk(s)
    ensures JobsOk(s')
  {
    forall j | j in s'.jobOf ensures JobOk(s', j) {
      assert JobOk(s, j);
      JobFrame(s, s', j);
    }
  }

  lemma OutcomesHideNothing(s: Sys, s': Sys)
    requires s' == s.(results := s'.results)
    requires IndexesOk(s) && PcOk(s) && IngressOk(s) && LogOk(s) && LoopOk(s)
    ensures IndexesOk(s') && PcOk(s') && IngressOk(s') && LogOk(s') && LoopOk(s')
  {
    assert forall u :: HasNoJob(s, u) ==> HasNoJob(s', u);
  }

  /** The recorded outcomes matter to `ResultsOk` alone. */
  lemma OutcomesAreHistory(s: Sys, s': Sys)
    requires s' == s.(results := s'.results)
    requires IndexesOk(s) && PcOk(s) && IngressOk(s) && TokensOk(s) && JobsOk(s) && LogOk(s) && LoopOk(s)
    requires ResultsOk(s')
    ensures Inv(s')
  {
    OutcomesHideNoToken(s, s');
    OutcomesHideNoJob(s, s');
    OutcomesHideNothing(s, s');
  }

  lemma TokensAfterClient(s: Sys, t: Token, f: Effect)
    requires t < |s.clients| && TokensOk(s) && TakeOk(s.clients[t], t, f)
    ensures TokensOk(Stepped(s, t, f))
  {
    assert TokenOk(s, t);
    forall u: Token | u < |s.clients| ensures TokenOk(Stepped(s, t, f), u) {
      if u == t { OwnToken(s, t, f); } else { assert TokenOk(s, u); OtherToken(s, t, f, u); }
    }
  }

  lemma JobsAfterClient(s: Sys, t: Token, step: ClientStep)
    requires t < |s.clients| && CanTake(s.clients[t], step) && IndexesOk(s) && TokensOk(s) && JobsOk(s)
    ensures JobsOk(Stepped(s, t, Take(s.clients[t], t, step)))
  {
    var f := Take(s.clients[t], t, step);
    assert TokenOk(s, t);
    TakeFacts(s.clients[t], t, step);
    forall j | j in s.jobOf ensures JobOk(Stepped(s, t, f), j) {
      assert JobOk(s, j);
      if s.jobOf[j] == t {
        if j in s.actor.pending { PendingHasNoPermit(s, j); }
        OwnJobOfStep(s, t, step, j);
      } else {
        OtherJob(s, t, f, j);
      }
    }
  }

  lemma ClientEventKeepsInv(s: Sys, t: Token, step: ClientStep)
    requires Inv(s) && Enabled(s, ClientEvent(t, step))
    ensures Inv(Next(s, ClientEvent(t, step)))
  {
    var f := Take(s.clients[t], t, step);
    assert TokenOk(s, t);
    TakeFacts(s.clients[t], t, step);
    IndexesAfterClient(s, t, f);
    PcAfterClient(s, t, step);
    LogAfterClient(s, t, f);
    ResultsAfterClient(s, t, f);
    TokensAfterClient(s, t, f);
    JobsAfterClient(s, t, step);
    OutcomesAreHistory(Stepped(s, t, f), Next(s, ClientEvent(t, step)));
  }

  /** A pending job is not in flight, so no permit for it exists. */
  lemma PendingHasNoPermit(s: Sys, j: JobId)
    requires IndexesOk(s) && TokensOk(s) && JobsOk(s) && j in s.actor.pending
    ensures s.jobOf[j] < |s.clients| && PermitOf(s.clients[s.jobOf[j]]).None?
  {
    assert JobOk(s, j);
    assert TokenOk(s, s.jobOf[j]);
    assert j !in s.actor.inFlight;
  }
}
