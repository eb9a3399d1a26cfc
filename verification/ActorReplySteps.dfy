/** The end of an enqueue: the replaced waiter, the replaced mapping, and the reply. */
module ActorReplySteps {
  import opened Basics
  import opened ActorModel
  import opened ActorProtocol
  import opened ActorInvariant
  import opened ActorSteps
  import opened ActorFrames
  import opened ActorEnqueueSteps

  // --- resolving the replaced waiter ---

  lemma SupersedeTouches(s: Sys)
    requires s.pc.Superseding? && PcOk(s) && s.pc.prior in s.jobOf && JobOk(s, s.pc.prior)
    ensures
      var s', prior := SupersedeNext(s), s.pc.prior;
      var t := s.jobOf[prior];
      && s.actor.waiters[prior] == t && t < |s.clients| && Unsent(s.clients[t].granted) && s.clients[t].sent
      && s'.actor == DropWaiter(s.actor, prior)
      && s'.clients == s.clients[t := s.clients[t].(granted := Send(s.clients[t].granted, Superseded(prior)))]
      && s'.ingress == s.ingress && s'.queue == s.queue && s'.log == s.log && s'.results == s.results
      && s'.jobOf == s.jobOf && s'.granted == s.granted && s'.superseded == s.superseded + {prior}
      && s'.owed == s.owed && s'.capacity == s.capacity
      && s'.pc == Forgetting(s.pc.token, s.pc.job, prior)
  {
  }

  lemma SupersededClient(s: Sys)
    requires s.pc.Superseding? && PcOk(s) && IndexesOk(s) && s.pc.prior in s.jobOf && JobOk(s, s.pc.prior)
    requires TokenOk(s, s.jobOf[s.pc.prior])
    ensures TokenOk(SupersedeNext(s), s.jobOf[s.pc.prior])
  {
    SupersedeTouches(s);
    assert !HasNoJob(s, s.jobOf[s.pc.prior]);
  }

  lemma WaiterKept(a: Actor, j: JobId, t: Token, u: Token)
    requires j in a.waiters ==> a.waiters[j] == t
    requires u != t && HasWaiter(a, u)
    ensures HasWaiter(DropWaiter(a, j), u)
  {
    var k :| k in a.waiters && a.waiters[k] == u;
    assert k in DropWaiter(a, j).waiters && DropWaiter(a, j).waiters[k] == u;
  }

  lemma SupersedeToken(s: Sys, u: Token)
    requires s.pc.Superseding? && PcOk(s) && s.pc.prior in s.jobOf && JobOk(s, s.pc.prior)
    requires u < |s.clients| && u != s.jobOf[s.pc.prior] && TokenOk(s, u)
    ensures TokenOk(SupersedeNext(s), u)
  {
    SupersedeTouches(s);
    assert SameJobs(s, SupersedeNext(s), u);
    if HasWaiter(s.actor, u) {
      WaiterKept(s.actor, s.pc.prior, s.jobOf[s.pc.prior], u);
    }
    TokenFrame(s, SupersedeNext(s), u);
  }

  lemma SupersededJob(s: Sys)
    requires s.pc.Superseding? && PcOk(s) && IndexesOk(s) && s.pc.prior in s.jobOf && JobOk(s, s.pc.prior)
    ensures JobOk(SupersedeNext(s), s.pc.prior)
  {
    SupersedeTouches(s);
  }

  lemma SupersedeJob(s: Sys, j: JobId)
    requires s.pc.Superseding? && PcOk(s) && IndexesOk(s) && s.pc.prior in s.jobOf && JobOk(s, s.pc.prior)
    requires j in s.jobOf && j != s.pc.prior && JobOk(s, j)
    ensures JobOk(SupersedeNext(s), j)
  {
    SupersedeTouches(s);
    assert s.jobOf[j] != s.jobOf[s.pc.prior];
    JobFrame(s, SupersedeNext(s), j);
  }

  lemma SupersedeTokens(s: Sys)
    requires s.pc.Superseding? && PcOk(s) && IndexesOk(s) && TokensOk(s)
    requires s.pc.prior in s.jobOf && JobOk(s, s.pc.prior)
    ensures TokensOk(SupersedeNext(s))
  {
    SupersedeTouches(s);
    forall u: Token | u < |s.clients| ensures TokenOk(SupersedeNext(s), u) {
      assert TokenOk(s, u);
      if u == s.jobOf[s.pc.prior] { SupersededClient(s); } else { SupersedeToken(s, u); }
    }
  }

  lemma SupersedeJobs(s: Sys)
    requires s.pc.Superseding? && PcOk(s) && IndexesOk(s) && JobsOk(s) && s.pc.prior in s.jobOf
    ensures JobsOk(SupersedeNext(s))
  {
    assert JobOk(s, s.pc.prior);
    forall j | j in s.jobOf ensures JobOk(SupersedeNext(s), j) {
      assert JobOk(s, j);
      if j == s.pc.prior { SupersededJob(s); } else { SupersedeJob(s, j); }
    }
  }

  lemma SupersedeRest(s: Sys)
    requires s.pc.Superseding? && PcOk(s) && IngressOk(s) && LoopOk(s)
    requires s.pc.prior in s.jobOf && JobOk(s, s.pc.prior)
    ensures
      var s' := SupersedeNext(s);
      PcOk(s') && IngressOk(s') && LoopOk(s')
  {
    SupersedeTouches(s);
  }

  lemma SupersedeIndexes(s: Sys)
    requires s.pc.Superseding? && PcOk(s) && IndexesOk(s) && s.pc.prior in s.jobOf && JobOk(s, s.pc.prior)
    ensures IndexesOk(SupersedeNext(s))
  {
    SupersedeTouches(s);
  }

  lemma SupersedeHistory(s: Sys)
    requires s.pc.Superseding? && PcOk(s) && LogOk(s) && ResultsOk(s)
    requires s.pc.prior in s.jobOf && JobOk(s, s.pc.prior)
    ensures LogOk(SupersedeNext(s)) && ResultsOk(SupersedeNext(s))
  {
    SupersedeTouches(s);
    LogFrame(s, SupersedeNext(s));
    ResultsFrame(s, SupersedeNext(s));
  }

  lemma SupersedeKeepsInv(s: Sys)
    requires Inv(s) && s.pc.Superseding?
    ensures Inv(SupersedeNext(s))
  {
    assert JobOk(s, s.pc.prior);
    SupersedeRest(s);
    SupersedeIndexes(s);
    SupersedeHistory(s);
    SupersedeTokens(s);
    SupersedeJobs(s);
  }

  // --- forgetting the replaced job, mapping the new one ---

  lemma ForgottenClient(s: Sys)
    requires s.pc.Forgetting? && PcOk(s) && s.pc.prior in s.jobOf && JobOk(s, s.pc.prior)
    requires TokenOk(s, s.jobOf[s.pc.prior])
    ensures TokenOk(ForgetNext(s), s.jobOf[s.pc.prior])
  {
    assert !HasNoJob(s, s.jobOf[s.pc.prior]);
    assert Forgotten(s.actor, s.pc.prior) == Some(s.jobOf[s.pc.prior]);
  }

  lemma ForgetToken(s: Sys, u: Token)
    requires s.pc.Forgetting? && PcOk(s) && s.pc.prior in s.jobOf && JobOk(s, s.pc.prior)
    requires u < |s.clients| && u != s.jobOf[s.pc.prior] && TokenOk(s, u)
    ensures TokenOk(ForgetNext(s), u)
  {
    assert Forgotten(s.actor, s.pc.prior) == Some(s.jobOf[s.pc.prior]);
    assert SameJobs(s, ForgetNext(s), u) && ForgetNext(s).actor.waiters == s.actor.waiters;
    TokenFrame(s, ForgetNext(s), u);
  }

  lemma ForgetTouches(s: Sys)
    requires s.pc.Forgetting? && PcOk(s) && IndexesOk(s) && s.pc.prior in s.jobOf
    requires JobOk(s, s.pc.prior) && JobOk(s, s.pc.job)
    ensures
      var s', prior, t, u := ForgetNext(s), s.pc.prior, s.pc.token, s.jobOf[s.pc.prior];
      && Forgotten(s.actor, prior) == Some(u) && s.actor.jobTokens[prior] == u != t && u < |s.clients|
      && s'.actor.jobTokens == (s.actor.jobTokens - {prior})[s.pc.job := t]
      && s'.actor.pendingTokens == (s.actor.pendingTokens - {u})[t := s.pc.job]
      && s'.actor.tokenStates == s.actor.tokenStates - {u} + {t}
      && s'.actor.waiters == s.actor.waiters && s'.actor.pending == s.actor.pending
      && s'.actor.inFlight == s.actor.inFlight && s'.actor.nextJob == s.actor.nextJob
      && s'.clients == s.clients[u := s.clients[u].(shared := TokenTerminal)]
      && s'.ingress == s.ingress && s'.queue == s.queue && s'.log == s.log && s'.results == s.results
      && s'.jobOf == s.jobOf && s'.granted == s.granted && s'.superseded == s.superseded
      && s'.owed == s.owed && s'.capacity == s.capacity && s'.pc == Replying(t, s.pc.job)
    ensures s.pc.prior !in s.actor.waiters && s.pc.prior !in s.actor.pending && s.pc.prior !in s.actor.inFlight
  {
  }

  lemma ForgetMisses(s: Sys, j: JobId)
    requires s.pc.Forgetting? && PcOk(s) && IndexesOk(s) && s.pc.prior in s.jobOf
    requires JobOk(s, s.pc.prior) && JobOk(s, s.pc.job)
    requires j in s.jobOf && JobOk(s, j) && j != s.pc.prior && j != s.pc.job
    ensures SameJob(s, ForgetNext(s), j)
  {
    ForgetTouches(s);
    assert s.jobOf[j] != s.jobOf[s.pc.prior] && s.jobOf[j] != s.pc.token;
    assert SameOwner(s, ForgetNext(s), j) && SameIndexes(s.actor, ForgetNext(s).actor, j, s.jobOf[j]);
  }

  lemma ForgetOtherJob(s: Sys, j: JobId)
    requires s.pc.Forgetting? && PcOk(s) && IndexesOk(s) && s.pc.prior in s.jobOf
    requires JobOk(s, s.pc.prior) && JobOk(s, s.pc.job)
    requires j in s.jobOf && JobOk(s, j) && j != s.pc.prior && j != s.pc.job
    ensures JobOk(ForgetNext(s), j)
  {
    ForgetMisses(s, j);
    JobFrame(s, ForgetNext(s), j);
  }

  lemma ForgetPriorJob(s: Sys)
    requires s.pc.Forgetting? && PcOk(s) && IndexesOk(s) && s.pc.prior in s.jobOf
    requires JobOk(s, s.pc.prior) && JobOk(s, s.pc.job)
    ensures JobOk(ForgetNext(s), s.pc.prior) && JobOk(ForgetNext(s), s.pc.job)
  {
    ForgetTouches(s);
    assert ForgetNext(s).clients[s.pc.token] == s.clients[s.pc.token];
  }

  lemma ForgetIndexes(s: Sys)
    requires s.pc.Forgetting? && PcOk(s) && IndexesOk(s) && s.pc.prior in s.jobOf
    requires JobOk(s, s.pc.prior) && JobOk(s, s.pc.job) && s.pc.token !in s.actor.pendingTokens
    ensures IndexesOk(ForgetNext(s))
  {
    var b := Forget(s.actor, s.pc.prior);
    UnmapIndexes(s.actor, s.pc.prior);
    MapTokenIndexes(b, s.pc.token, s.pc.job);
    TokenIndexesFrame(s, ForgetNext(s));
  }

  /** Only the token indexes moved, and they are inverse to each other. */
  lemma TokenIndexesFrame(s: Sys, s': Sys)
    requires IndexesOk(s) && s'.jobOf == s.jobOf && s'.granted == s.granted && s'.superseded == s.superseded
    requires s'.actor.nextJob == s.actor.nextJob && s'.actor.inFlight <= s.actor.inFlight
    requires s'.actor.pending <= s.actor.pending && s'.actor.waiters.Keys <= s.actor.waiters.Keys
    requires s'.actor.jobTokens.Keys <= s.jobOf.Keys
    requires s'.actor.tokenStates == s'.actor.pendingTokens.Keys
    requires forall u :: u in s'.actor.pendingTokens ==>
      s'.actor.pendingTokens[u] in s'.actor.jobTokens && s'.actor.jobTokens[s'.actor.pendingTokens[u]] == u
    requires Remaining(s'.pc) == []
    ensures IndexesOk(s')
  {
  }

  /** The token of an unmapped job is in no index either. */
  lemma UnmappedToken(s: Sys)
    requires s.pc.Forgetting? && PcOk(s) && IndexesOk(s) && JobsOk(s)
    ensures s.pc.token !in s.actor.pendingTokens
  {
    forall u | u in s.actor.pendingTokens ensures u != s.pc.token {
      assert JobOk(s, s.actor.pendingTokens[u]);
    }
  }

  /** Forgetting a mapped job keeps the two token indexes inverse to each other. */
  lemma UnmapIndexes(a: Actor, j: JobId)
    requires j in a.jobTokens && a.jobTokens[j] in a.pendingTokens && a.pendingTokens[a.jobTokens[j]] == j
    requires a.tokenStates == a.pendingTokens.Keys
    requires forall u :: u in a.pendingTokens ==>
      a.pendingTokens[u] in a.jobTokens && a.jobTokens[a.pendingTokens[u]] == u
    ensures
      var b := Forget(a, j);
      && b.tokenStates == b.pendingTokens.Keys
      && forall u :: u in b.pendingTokens ==> b.pendingTokens[u] in b.jobTokens && b.jobTokens[b.pendingTokens[u]] == u
  {
  }

  lemma ForgetRest(s: Sys)
    requires s.pc.Forgetting? && PcOk(s) && IngressOk(s) && LoopOk(s) && s.pc.prior in s.jobOf && JobOk(s, s.pc.prior)
    ensures PcOk(ForgetNext(s)) && IngressOk(ForgetNext(s)) && LoopOk(ForgetNext(s))
  {
  }

  lemma ForgetHistory(s: Sys)
    requires s.pc.Forgetting? && LogOk(s) && ResultsOk(s)
    ensures LogOk(ForgetNext(s)) && ResultsOk(ForgetNext(s))
  {
    LogFrame(s, ForgetNext(s));
    ResultsFrame(s, ForgetNext(s));
  }

  lemma ForgetTokens(s: Sys)
    requires s.pc.Forgetting? && PcOk(s) && TokensOk(s) && s.pc.prior in s.jobOf && JobOk(s, s.pc.prior)
    ensures TokensOk(ForgetNext(s))
  {
    forall u: Token | u < |ForgetNext(s).clients| ensures TokenOk(ForgetNext(s), u) {
      assert TokenOk(s, u);
      if u == s.jobOf[s.pc.prior] { ForgottenClient(s); } else { ForgetToken(s, u); }
    }
  }

  lemma ForgetJobs(s: Sys)
    requires s.pc.Forgetting? && PcOk(s) && IndexesOk(s) && JobsOk(s) && s.pc.prior in s.jobOf && s.pc.job in s.jobOf
    ensures JobsOk(ForgetNext(s))
  {
    assert JobOk(s, s.pc.prior) && JobOk(s, s.pc.job);
    ForgetPriorJob(s);
    forall j | j in s.jobOf && j != s.pc.prior && j != s.pc.job ensures JobOk(ForgetNext(s), j) {
      assert JobOk(s, j);
      ForgetOtherJob(s, j);
    }
  }

  lemma ForgetKeepsInv(s: Sys)
    requires Inv(s) && s.pc.Forgetting?
    ensures Inv(ForgetNext(s))
  {
    assert JobOk(s, s.pc.prior) && JobOk(s, s.pc.job);
    ForgetHistory(s);
    ForgetRest(s);
    UnmappedToken(s);
    ForgetIndexes(s);
    ForgetTokens(s);
    ForgetJobs(s);
  }

  // --- replying ---

  lemma AdmittedTouches(s: Sys)
    requires s.pc.Replying? && s.pc.token < |s.clients| && s.clients[s.pc.token].reply.Open?
    ensures
      var s', t, job := ReplyNext(s), s.pc.token, s.pc.job;
      && s'.actor == AddWaiter(s.actor, t, job) && s'.pc == Draining(0)
      && s'.clients == s.clients[t := s.clients[t].(reply := Sent(Admitted(job)))]
      && s'.ingress == s.ingress && s'.queue == s.queue && s'.log == s.log && s'.results == s.results
      && s'.jobOf == s.jobOf && s'.granted == s.granted && s'.superseded == s.superseded
      && s'.owed == s.owed && s'.capacity == s.capacity
  {
  }

  lemma RepliedClient(s: Sys)
    requires s.pc.Replying? && PcOk(s) && s.pc.token < |s.clients| && s.clients[s.pc.token].reply.Open?
    requires TokenOk(s, s.pc.token) && JobOk(s, s.pc.job)
    ensures TokenOk(ReplyNext(s), s.pc.token)
  {
    AdmittedTouches(s);
    assert !HasNoJob(s, s.pc.token);
    assert ReplyNext(s).actor.waiters[s.pc.job] == s.pc.token;
  }

  lemma WaiterStays(a: Actor, t: Token, j: JobId, u: Token)
    requires j !in a.waiters && HasWaiter(a, u)
    ensures HasWaiter(AddWaiter(a, t, j), u)
  {
    var k :| k in a.waiters && a.waiters[k] == u;
    assert k in AddWaiter(a, t, j).waiters && AddWaiter(a, t, j).waiters[k] == u;
  }

  lemma AdmittedToken(s: Sys, u: Token)
    requires s.pc.Replying? && PcOk(s) && s.pc.token < |s.clients| && s.clients[s.pc.token].reply.Open?
    requires u < |s.clients| && u != s.pc.token && TokenOk(s, u) && JobOk(s, s.pc.job)
    ensures TokenOk(ReplyNext(s), u)
  {
    AdmittedTouches(s);
    assert SameJobs(s, ReplyNext(s), u);
    if HasWaiter(s.actor, u) {
      WaiterStays(s.actor, s.pc.token, s.pc.job, u);
    }
    TokenFrame(s, ReplyNext(s), u);
  }

  lemma AdmittedJob(s: Sys)
    requires s.pc.Replying? && PcOk(s) && IndexesOk(s) && s.pc.token < |s.clients| && s.clients[s.pc.token].reply.Open?
    requires TokenOk(s, s.pc.token) && JobOk(s, s.pc.job)
    ensures JobOk(ReplyNext(s), s.pc.job)
  {
    AdmittedTouches(s);
  }

  lemma AdmittedOtherJob(s: Sys, j: JobId)
    requires s.pc.Replying? && PcOk(s) && IndexesOk(s) && s.pc.token < |s.clients| && s.clients[s.pc.token].reply.Open?
    requires j in s.jobOf && j != s.pc.job && JobOk(s, j)
    ensures JobOk(ReplyNext(s), j)
  {
    AdmittedTouches(s);
    assert s.jobOf[j] != s.pc.token;
    JobFrame(s, ReplyNext(s), j);
  }

  lemma WithdrawnTouches(s: Sys)
    requires s.pc.Replying? && PcOk(s) && s.pc.token < |s.clients| && !s.clients[s.pc.token].reply.Open?
    requires JobOk(s, s.pc.job)
    ensures
      var s', t := ReplyNext(s), s.pc.token;
      && Forgotten(s.actor, s.pc.job) == Some(t)
      && s'.actor.pending == s.actor.pending - {s.pc.job}
      && s'.actor.jobTokens == s.actor.jobTokens - {s.pc.job}
      && s'.actor.pendingTokens == s.actor.pendingTokens - {t}
      && s'.actor.tokenStates == s.actor.tokenStates - {t}
      && s'.actor.waiters == s.actor.waiters && s'.actor.inFlight == s.actor.inFlight
      && s'.actor.nextJob == s.actor.nextJob && s'.pc == Draining(0)
      && |s'.clients| == |s.clients|
      && (forall u: Token :: u < |s.clients| && u != t ==> s'.clients[u] == s.clients[u])
      && s'.clients[t] == s.clients[t].(shared := TokenTerminal, granted := DropSender(s.clients[t].granted))
      && s'.ingress == s.ingress && s'.queue == s.queue && s'.log == s.log && s'.results == s.results
      && s'.jobOf == s.jobOf && s'.granted == s.granted && s'.superseded == s.superseded
      && s'.owed == s.owed && s'.capacity == s.capacity
    ensures s.pc.job !in s.actor.waiters
  {
  }

  lemma WithdrawnClient(s: Sys)
    requires s.pc.Replying? && PcOk(s) && s.pc.token < |s.clients| && !s.clients[s.pc.token].reply.Open?
    requires JobOk(s, s.pc.job) && TokenOk(s, s.pc.token)
    ensures TokenOk(ReplyNext(s), s.pc.token)
  {
    WithdrawnTouches(s);
    assert !HasNoJob(s, s.pc.token);
  }

  lemma WithdrawnToken(s: Sys, u: Token)
    requires s.pc.Replying? && PcOk(s) && s.pc.token < |s.clients| && !s.clients[s.pc.token].reply.Open?
    requires JobOk(s, s.pc.job) && u < |s.clients| && u != s.pc.token && TokenOk(s, u)
    ensures TokenOk(ReplyNext(s), u)
  {
    WithdrawnTouches(s);
    assert SameJobs(s, ReplyNext(s), u);
    TokenFrame(s, ReplyNext(s), u);
  }

  lemma WithdrawnJob(s: Sys)
    requires s.pc.Replying? && PcOk(s) && IndexesOk(s) && s.pc.token < |s.clients| && !s.clients[s.pc.token].reply.Open?
    requires JobOk(s, s.pc.job)
    ensures JobOk(ReplyNext(s), s.pc.job)
  {
    WithdrawnTouches(s);
  }

  lemma WithdrawnOtherJob(s: Sys, j: JobId)
    requires s.pc.Replying? && PcOk(s) && IndexesOk(s) && s.pc.token < |s.clients| && !s.clients[s.pc.token].reply.Open?
    requires JobOk(s, s.pc.job) && j in s.jobOf && j != s.pc.job && JobOk(s, j)
    ensures JobOk(ReplyNext(s), j)
  {
    WithdrawnTouches(s);
    assert s.jobOf[j] != s.pc.token;
    JobFrame(s, ReplyNext(s), j);
  }

  lemma ReplyIndexes(s: Sys)
    requires s.pc.Replying? && PcOk(s) && IndexesOk(s) && s.pc.token < |s.clients| && JobOk(s, s.pc.job)
    ensures IndexesOk(ReplyNext(s))
  {
    if !s.clients[s.pc.token].reply.Open? {
      WithdrawnTouches(s);
      UnmapIndexes(s.actor.(pending := s.actor.pending - {s.pc.job}), s.pc.job);
      TokenIndexesFrame(s, ReplyNext(s));
    }
  }

  lemma ReplyRest(s: Sys)
    requires Enabled(s, ReplyStep) && PcOk(s) && IngressOk(s) && LoopOk(s)
    ensures PcOk(ReplyNext(s)) && IngressOk(ReplyNext(s)) && LoopOk(ReplyNext(s))
  {
  }

  lemma ReplyHistory(s: Sys)
    requires Enabled(s, ReplyStep) && LogOk(s) && ResultsOk(s)
    ensures LogOk(ReplyNext(s)) && ResultsOk(ReplyNext(s))
  {
    LogFrame(s, ReplyNext(s));
    ResultsFrame(s, ReplyNext(s));
  }

  lemma ReplyTokens(s: Sys)
    requires Enabled(s, ReplyStep) && PcOk(s) && TokensOk(s) && JobOk(s, s.pc.job)
    ensures TokensOk(ReplyNext(s))
  {
    assert TokenOk(s, s.pc.token);
    var open := s.clients[s.pc.token].reply.Open?;
    assert |ReplyNext(s).clients| == |s.clients|;
    forall u: Token | u < |s.clients| ensures TokenOk(ReplyNext(s), u) {
      assert TokenOk(s, u);
      if u == s.pc.token {
        if open { RepliedClient(s); } else { WithdrawnClient(s); }
      } else {
        if open { AdmittedToken(s, u); } else { WithdrawnToken(s, u); }
      }
    }
  }

  lemma ReplyJob(s: Sys, j: JobId)
    requires Enabled(s, ReplyStep) && PcOk(s) && IndexesOk(s) && TokenOk(s, s.pc.token)
    requires s.pc.job in s.jobOf && JobOk(s, s.pc.job) && j in s.jobOf && JobOk(s, j)
    ensures j in ReplyNext(s).jobOf && JobOk(ReplyNext(s), j)
  {
    if s.clients[s.pc.token].reply.Open? {
      if j == s.pc.job { AdmittedJob(s); } else { AdmittedOtherJob(s, j); }
    } else {
      if j == s.pc.job { WithdrawnJob(s); } else { WithdrawnOtherJob(s, j); }
    }
  }

  lemma ReplyMakesNoJob(s: Sys)
    requires Enabled(s, ReplyStep)
    ensures ReplyNext(s).jobOf == s.jobOf
  {
  }

  lemma ReplyJobs(s: Sys)
    requires Enabled(s, ReplyStep) && PcOk(s) && IndexesOk(s) && JobsOk(s)
    requires TokenOk(s, s.pc.token) && s.pc.job in s.jobOf && JobOk(s, s.pc.job)
    ensures JobsOk(ReplyNext(s))
  {
    ReplyMakesNoJob(s);
    forall j | j in s.jobOf ensures JobOk(ReplyNext(s), j) {
      assert JobOk(s, j);
      ReplyJob(s, j);
    }
  }

  lemma ReplyKeepsInv(s: Sys)
    requires Inv(s) && Enabled(s, ReplyStep)
    ensures Inv(ReplyNext(s))
  {
    assert JobOk(s, s.pc.job);
    assert TokenOk(s, s.pc.token);
    ReplyRest(s);
    ReplyHistory(s);
    ReplyIndexes(s);
    ReplyTokens(s);
    ReplyJobs(s);
  }
}
