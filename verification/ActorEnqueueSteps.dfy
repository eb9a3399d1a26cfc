/** Taking an enqueue command, admitting or refusing it, replacing an older job, and replying. */
module ActorEnqueueSteps {
  import opened Basics
  import opened ActorModel
  import opened ActorProtocol
  import opened ActorInvariant
  import opened ActorSteps
  import opened ActorFrames

  // --- taking the command, with the acceptance compare-and-swap ---

  lemma TakenLeavesIngress(s: Sys)
    requires IngressOk(s) && s.ingress != []
    ensures s.ingress[0] !in s.ingress[1..]
    ensures forall u :: u in s.ingress <==> u == s.ingress[0] || u in s.ingress[1..]
  {
  }

  lemma TakenClient(s: Sys)
    requires s.pc.Parked? && IngressOk(s) && s.ingress != [] && s.ingress[0] < |s.clients|
    requires TokenOk(s, s.ingress[0])
    ensures TokenOk(TakeEnqueueStep(s), s.ingress[0])
  {
    TakenLeavesIngress(s);
    assert HasNoJob(TakeEnqueueStep(s), s.ingress[0]);
  }

  lemma TakeToken(s: Sys, u: Token)
    requires s.pc.Parked? && IngressOk(s) && s.ingress != [] && s.ingress[0] < |s.clients|
    requires u < |s.clients| && u != s.ingress[0] && TokenOk(s, u)
    ensures TokenOk(TakeEnqueueStep(s), u)
  {
    var s' := TakeEnqueueStep(s);
    TakenLeavesIngress(s);
    assert SameJobs(s, s', u);
    TokenFrame(s, s', u);
  }

  lemma TakeJob(s: Sys, j: JobId)
    requires s.pc.Parked? && IngressOk(s) && s.ingress != []
    requires s.ingress[0] < |s.clients| && TokenOk(s, s.ingress[0]) && j in s.jobOf && JobOk(s, j)
    ensures JobOk(TakeEnqueueStep(s), j)
  {
    TakenLeavesIngress(s);
    assert s.jobOf[j] != s.ingress[0];
    JobFrame(s, TakeEnqueueStep(s), j);
  }

  lemma TakeRest(s: Sys)
    requires s.pc.Parked? && IngressOk(s) && IndexesOk(s) && s.ingress != []
    requires s.ingress[0] < |s.clients| && TokenOk(s, s.ingress[0])
    ensures
      var s' := TakeEnqueueStep(s);
      IndexesOk(s') && PcOk(s') && IngressOk(s') && LoopOk(s')
  {
    TakenLeavesIngress(s);
    assert HasNoJob(s, s.ingress[0]) ==> HasNoJob(TakeEnqueueStep(s), s.ingress[0]);
  }

  lemma TakeTokens(s: Sys)
    requires s.pc.Parked? && IngressOk(s) && TokensOk(s) && s.ingress != [] && s.ingress[0] < |s.clients|
    ensures TokensOk(TakeEnqueueStep(s))
  {
    forall u: Token | u < |s.clients| ensures TokenOk(TakeEnqueueStep(s), u) {
      assert TokenOk(s, u);
      if u == s.ingress[0] { TakenClient(s); } else { TakeToken(s, u); }
    }
  }

  lemma TakeJobs(s: Sys)
    requires s.pc.Parked? && IngressOk(s) && JobsOk(s) && s.ingress != []
    requires s.ingress[0] < |s.clients| && TokenOk(s, s.ingress[0])
    ensures JobsOk(TakeEnqueueStep(s))
  {
    forall j | j in s.jobOf ensures JobOk(TakeEnqueueStep(s), j) {
      assert JobOk(s, j);
      TakeJob(s, j);
    }
  }

  lemma TakeHistory(s: Sys)
    requires s.ingress != [] && s.ingress[0] < |s.clients| && LogOk(s) && ResultsOk(s)
    ensures LogOk(TakeEnqueueStep(s)) && ResultsOk(TakeEnqueueStep(s))
  {
    LogFrame(s, TakeEnqueueStep(s));
    ResultsFrame(s, TakeEnqueueStep(s));
  }

  lemma TakeKeepsInv(s: Sys)
    requires Inv(s) && Enabled(s, TakeEnqueue)
    ensures Inv(TakeEnqueueStep(s))
  {
    assert TokenOk(s, s.ingress[0]);
    TakeRest(s);
    TakeHistory(s);
    TakeTokens(s);
    TakeJobs(s);
  }

  // --- refusing ---

  lemma RefusedClient(s: Sys)
    requires s.pc.Refusing? && PcOk(s) && TokenOk(s, s.pc.token)
    ensures TokenOk(RefuseNext(s), s.pc.token)
  {
    assert HasNoJob(RefuseNext(s), s.pc.token);
  }

  lemma RefuseToken(s: Sys, u: Token)
    requires s.pc.Refusing? && u < |s.clients| && u != s.pc.token && TokenOk(s, u)
    ensures TokenOk(RefuseNext(s), u)
  {
    assert SameJobs(s, RefuseNext(s), u);
    TokenFrame(s, RefuseNext(s), u);
  }

  lemma RefuseJob(s: Sys, j: JobId)
    requires s.pc.Refusing? && PcOk(s) && j in s.jobOf && JobOk(s, j)
    ensures JobOk(RefuseNext(s), j)
  {
    assert s.jobOf[j] != s.pc.token;
    JobFrame(s, RefuseNext(s), j);
  }

  lemma RefuseTokens(s: Sys)
    requires s.pc.Refusing? && PcOk(s) && TokensOk(s)
    ensures TokensOk(RefuseNext(s))
  {
    forall u: Token | u < |s.clients| ensures TokenOk(RefuseNext(s), u) {
      assert TokenOk(s, u);
      if u == s.pc.token { RefusedClient(s); } else { RefuseToken(s, u); }
    }
  }

  lemma RefuseJobs(s: Sys)
    requires s.pc.Refusing? && PcOk(s) && JobsOk(s)
    ensures JobsOk(RefuseNext(s))
  {
    forall j | j in s.jobOf ensures JobOk(RefuseNext(s), j) {
      assert JobOk(s, j);
      RefuseJob(s, j);
    }
  }

  lemma RefuseRest(s: Sys)
    requires s.pc.Refusing? && IndexesOk(s) && PcOk(s) && IngressOk(s) && LogOk(s) && ResultsOk(s) && LoopOk(s)
    ensures
      var s' := RefuseNext(s);
      IndexesOk(s') && PcOk(s') && IngressOk(s') && LogOk(s') && ResultsOk(s') && LoopOk(s')
  {
    LogFrame(s, RefuseNext(s));
    ResultsFrame(s, RefuseNext(s));
  }

  lemma RefuseKeepsInv(s: Sys)
    requires Inv(s) && s.pc.Refusing?
    ensures Inv(RefuseNext(s))
  {
    RefuseRest(s);
    RefuseTokens(s);
    RefuseJobs(s);
  }

  // --- admitting ---

  lemma DeniedClient(s: Sys, error: QueueError)
    requires s.pc.Accepted? && PcOk(s) && TokenOk(s, s.pc.token)
    ensures TokenOk(AdmitNext(s, Deny(error)), s.pc.token)
  {
    assert HasNoJob(AdmitNext(s, Deny(error)), s.pc.token);
  }

  lemma DenyToken(s: Sys, error: QueueError, u: Token)
    requires s.pc.Accepted? && u < |s.clients| && u != s.pc.token && TokenOk(s, u)
    ensures TokenOk(AdmitNext(s, Deny(error)), u)
  {
    assert SameJobs(s, AdmitNext(s, Deny(error)), u);
    TokenFrame(s, AdmitNext(s, Deny(error)), u);
  }

  lemma DenyJob(s: Sys, error: QueueError, j: JobId)
    requires s.pc.Accepted? && PcOk(s) && j in s.jobOf && JobOk(s, j)
    ensures JobOk(AdmitNext(s, Deny(error)), j)
  {
    assert s.jobOf[j] != s.pc.token;
    JobFrame(s, AdmitNext(s, Deny(error)), j);
  }

  lemma DenyTokens(s: Sys, error: QueueError)
    requires s.pc.Accepted? && PcOk(s) && TokensOk(s)
    ensures TokensOk(AdmitNext(s, Deny(error)))
  {
    forall u: Token | u < |s.clients| ensures TokenOk(AdmitNext(s, Deny(error)), u) {
      assert TokenOk(s, u);
      if u == s.pc.token { DeniedClient(s, error); } else { DenyToken(s, error, u); }
    }
  }

  lemma DenyJobs(s: Sys, error: QueueError)
    requires s.pc.Accepted? && PcOk(s) && JobsOk(s)
    ensures JobsOk(AdmitNext(s, Deny(error)))
  {
    forall j | j in s.jobOf ensures JobOk(AdmitNext(s, Deny(error)), j) {
      assert JobOk(s, j);
      DenyJob(s, error, j);
    }
  }

  lemma DenyRest(s: Sys, error: QueueError)
    requires s.pc.Accepted? && IndexesOk(s) && PcOk(s) && IngressOk(s) && LogOk(s) && ResultsOk(s) && LoopOk(s)
    ensures
      var s' := AdmitNext(s, Deny(error));
      IndexesOk(s') && PcOk(s') && IngressOk(s') && LogOk(s') && ResultsOk(s') && LoopOk(s')
  {
    var s' := AdmitNext(s, Deny(error));
    LogFrame(s, s');
    ResultsFrame(s, s');
    assert HasNoJob(s', s.pc.token);
  }

  lemma DenyKeepsInv(s: Sys, error: QueueError)
    requires Inv(s) && s.pc.Accepted?
    ensures Inv(AdmitNext(s, Deny(error)))
  {
    DenyRest(s, error);
    DenyTokens(s, error);
    DenyJobs(s, error);
  }

  lemma AdmitTouches(s: Sys, prior: Option<JobId>)
    requires s.pc.Accepted? && IndexesOk(s) && CanAdmit(s.actor, Admit(prior))
    ensures
      var s', job := AdmitNext(s, Admit(prior)), s.actor.nextJob;
      && job !in s.jobOf && s'.jobOf == s.jobOf[job := s.pc.token] && s'.actor.nextJob == job + 1
      && s'.clients == s.clients && s'.ingress == s.ingress && s'.queue == s.queue && s'.log == s.log
      && s'.results == s.results && s'.granted == s.granted && s'.superseded == s.superseded
      && s'.actor.waiters == s.actor.waiters && s'.actor.inFlight == s.actor.inFlight
      && s'.actor.pending == Scheduled(s.actor, prior).pending
      && s'.pc == (if prior.Some? then Superseding(s.pc.token, job, prior.value) else Replying(s.pc.token, job))
      && s'.actor.jobTokens == (if prior.Some? then s.actor.jobTokens else s.actor.jobTokens[job := s.pc.token])
      && s'.actor.pendingTokens
        == (if prior.Some? then s.actor.pendingTokens else s.actor.pendingTokens[s.pc.token := job])
      && s'.actor.tokenStates == (if prior.Some? then s.actor.tokenStates else s.actor.tokenStates + {s.pc.token})
  {
  }

  /** The new job is the token's first and only one. */
  lemma AdmittedClient(s: Sys, prior: Option<JobId>)
    requires s.pc.Accepted? && PcOk(s) && IndexesOk(s) && CanAdmit(s.actor, Admit(prior)) && TokenOk(s, s.pc.token)
    ensures TokenOk(AdmitNext(s, Admit(prior)), s.pc.token)
  {
    AdmitTouches(s, prior);
  }

  lemma AdmitToken(s: Sys, prior: Option<JobId>, u: Token)
    requires s.pc.Accepted? && IndexesOk(s) && CanAdmit(s.actor, Admit(prior))
    requires u < |s.clients| && u != s.pc.token && TokenOk(s, u)
    ensures TokenOk(AdmitNext(s, Admit(prior)), u)
  {
    AdmitTouches(s, prior);
    assert SameJobs(s, AdmitNext(s, Admit(prior)), u);
    TokenFrame(s, AdmitNext(s, Admit(prior)), u);
  }

  /** The job that is about to be replaced leaves the pending set, but not yet the indexes. */
  lemma AdmitPriorJob(s: Sys, prior: JobId)
    requires s.pc.Accepted? && PcOk(s) && IndexesOk(s) && CanAdmit(s.actor, Admit(Some(prior))) && JobOk(s, prior)
    ensures JobOk(AdmitNext(s, Admit(Some(prior))), prior)
  {
    AdmitTouches(s, Some(prior));
  }

  lemma AdmitOldJob(s: Sys, prior: Option<JobId>, j: JobId)
    requires s.pc.Accepted? && PcOk(s) && IndexesOk(s) && CanAdmit(s.actor, Admit(prior))
    requires j in s.jobOf && JobOk(s, j) && prior != Some(j)
    ensures JobOk(AdmitNext(s, Admit(prior)), j)
  {
    AdmitTouches(s, prior);
    assert s.jobOf[j] != s.pc.token;
    JobFrame(s, AdmitNext(s, Admit(prior)), j);
  }

  lemma AdmitNewJob(s: Sys, prior: Option<JobId>)
    requires s.pc.Accepted? && PcOk(s) && IndexesOk(s) && LogOk(s)
    requires CanAdmit(s.actor, Admit(prior)) && TokenOk(s, s.pc.token)
    ensures JobOk(AdmitNext(s, Admit(prior)), s.actor.nextJob)
  {
    AdmitTouches(s, prior);
  }

  lemma AdmitRest(s: Sys, prior: Option<JobId>)
    requires s.pc.Accepted? && IndexesOk(s) && IngressOk(s) && LoopOk(s)
    requires CanAdmit(s.actor, Admit(prior)) && (prior.Some? ==> JobOk(s, prior.value))
    ensures
      var s' := AdmitNext(s, Admit(prior));
      PcOk(s') && IngressOk(s') && LoopOk(s')
  {
    AdmitTouches(s, prior);
  }

  /** A token without a job is in no index. */
  lemma FreshTokenUnmapped(s: Sys, t: Token)
    requires IndexesOk(s) && JobsOk(s) && HasNoJob(s, t)
    ensures t !in s.actor.pendingTokens
  {
    forall u | u in s.actor.pendingTokens ensures u != t {
      assert JobOk(s, s.actor.pendingTokens[u]);
    }
  }

  /** The new job is known to the history before any index has it. */
  lemma ScheduledIndexes(s: Sys, prior: Option<JobId>, t: Token)
    requires IndexesOk(s) && HasNoJob(s, t) && CanAdmit(s.actor, Admit(prior)) && Remaining(s.pc) == []
    ensures IndexesOk(s.(actor := Scheduled(s.actor, prior), jobOf := s.jobOf[s.actor.nextJob := t]))
  {
  }

  lemma MappedIndexes(s: Sys, s': Sys, t: Token, j: JobId)
    requires IndexesOk(s) && j in s.jobOf && t !in s.actor.pendingTokens && j !in s.actor.jobTokens
    requires s' == s.(actor := MapToken(s.actor, t, j), pc := s'.pc) && Remaining(s'.pc) == []
    ensures IndexesOk(s')
  {
    MapTokenIndexes(s.actor, t, j);
  }

  lemma PcKeepsIndexes(s: Sys, s': Sys)
    requires IndexesOk(s) && s' == s.(pc := s'.pc) && Remaining(s'.pc) == []
    ensures IndexesOk(s')
  {
  }

  lemma AdmitIndexes(s: Sys, prior: Option<JobId>)
    requires s.pc.Accepted? && PcOk(s) && IndexesOk(s) && JobsOk(s) && CanAdmit(s.actor, Admit(prior))
    ensures IndexesOk(AdmitNext(s, Admit(prior)))
  {
    var t, job := s.pc.token, s.actor.nextJob;
    var s1 := s.(actor := Scheduled(s.actor, prior), jobOf := s.jobOf[job := t]);
    assert t !in s.actor.pendingTokens && job !in s.actor.jobTokens by {
      FreshTokenUnmapped(s, t);
    }
    ScheduledIndexes(s, prior, t);
    if prior.Some? {
      PcKeepsIndexes(s1, AdmitNext(s, Admit(prior)));
    } else {
      MappedIndexes(s1, AdmitNext(s, Admit(prior)), t, job);
    }
  }

  /** Mapping a fresh token to a fresh job keeps the two token indexes inverse to each other. */
  lemma MapTokenIndexes(a: Actor, t: Token, j: JobId)
    requires t !in a.pendingTokens && j !in a.jobTokens
    requires a.tokenStates == a.pendingTokens.Keys
    requires forall u :: u in a.pendingTokens ==>
      a.pendingTokens[u] in a.jobTokens && a.jobTokens[a.pendingTokens[u]] == u
    ensures
      var b := MapToken(a, t, j);
      && b.tokenStates == b.pendingTokens.Keys
      && forall u :: u in b.pendingTokens ==> b.pendingTokens[u] in b.jobTokens && b.jobTokens[b.pendingTokens[u]] == u
  {
  }

  lemma AdmitTokens(s: Sys, prior: Option<JobId>)
    requires s.pc.Accepted? && PcOk(s) && IndexesOk(s) && TokensOk(s) && CanAdmit(s.actor, Admit(prior))
    ensures TokensOk(AdmitNext(s, Admit(prior)))
  {
    forall u: Token | u < |s.clients| ensures TokenOk(AdmitNext(s, Admit(prior)), u) {
      assert TokenOk(s, u);
      if u == s.pc.token { AdmittedClient(s, prior); } else { AdmitToken(s, prior, u); }
    }
    AdmitTouches(s, prior);
  }

  lemma AdmitJobs(s: Sys, prior: Option<JobId>)
    requires s.pc.Accepted? && PcOk(s) && IndexesOk(s) && LogOk(s) && JobsOk(s)
    requires CanAdmit(s.actor, Admit(prior)) && TokenOk(s, s.pc.token)
    ensures JobsOk(AdmitNext(s, Admit(prior)))
  {
    AdmitTouches(s, prior);
    AdmitNewJob(s, prior);
    forall j | j in s.jobOf ensures JobOk(AdmitNext(s, Admit(prior)), j) {
      assert JobOk(s, j);
      if prior == Some(j) { AdmitPriorJob(s, j); } else { AdmitOldJob(s, prior, j); }
    }
  }

  lemma AdmitHistory(s: Sys, prior: Option<JobId>)
    requires s.pc.Accepted? && IndexesOk(s) && LogOk(s) && ResultsOk(s) && CanAdmit(s.actor, Admit(prior))
    ensures LogOk(AdmitNext(s, Admit(prior))) && ResultsOk(AdmitNext(s, Admit(prior)))
  {
    AdmitTouches(s, prior);
    LogFrame(s, AdmitNext(s, Admit(prior)));
    ResultsFrame(s, AdmitNext(s, Admit(prior)));
  }

  lemma AdmitKeepsInv(s: Sys, prior: Option<JobId>)
    requires Inv(s) && s.pc.Accepted? && CanAdmit(s.actor, Admit(prior))
    ensures Inv(AdmitNext(s, Admit(prior)))
  {
    assert TokenOk(s, s.pc.token);
    if prior.Some? {
      assert JobOk(s, prior.value);
    }
    AdmitRest(s, prior);
    AdmitIndexes(s, prior);
    AdmitHistory(s, prior);
    AdmitTokens(s, prior);
    AdmitJobs(s, prior);
  }
}
