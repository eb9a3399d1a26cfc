/** The admission pass, the delivery of its grants, and the shutdown. */
module ActorGrantSteps {
  import opened Basics
  import opened ActorModel
  import opened ActorProtocol
  import opened ActorInvariant
  import opened ActorClientSteps
  import opened ActorSteps
  import opened ActorFrames
  import opened ActorReplySteps

  // --- admission ---

  lemma PassToken(s: Sys, grants: seq<JobId>, u: Token)
    requires s.pc.Draining? && Grantable(s.actor, grants) && u < |s.clients| && TokenOk(s, u)
    requires forall j :: j in s.actor.inFlight ==> j !in s.actor.pending
    ensures TokenOk(PassStep(s, grants), u)
  {
    assert HasNoJob(s, u) ==> HasNoJob(PassStep(s, grants), u);
  }

  lemma PassJob(s: Sys, grants: seq<JobId>, j: JobId)
    requires s.pc.Draining? && Grantable(s.actor, grants) && LogOk(s) && j in s.jobOf && JobOk(s, j)
    ensures JobOk(PassStep(s, grants), j)
  {
  }

  lemma PassRest(s: Sys, grants: seq<JobId>)
    requires Enabled(s, Pass(grants)) && IndexesOk(s) && PcOk(s) && IngressOk(s) && LoopOk(s)
    ensures
      var s' := PassStep(s, grants);
      IndexesOk(s') && PcOk(s') && IngressOk(s') && LoopOk(s')
  {
  }

  lemma PassTokens(s: Sys, grants: seq<JobId>)
    requires s.pc.Draining? && Grantable(s.actor, grants) && TokensOk(s) && JobsOk(s) && IndexesOk(s)
    ensures TokensOk(PassStep(s, grants))
  {
    forall j | j in s.actor.inFlight ensures j !in s.actor.pending {
      assert JobOk(s, j);
    }
    forall u: Token | u < |s.clients| ensures TokenOk(PassStep(s, grants), u) {
      assert TokenOk(s, u);
      PassToken(s, grants, u);
    }
  }

  lemma PassJobs(s: Sys, grants: seq<JobId>)
    requires s.pc.Draining? && Grantable(s.actor, grants) && LogOk(s) && JobsOk(s)
    ensures JobsOk(PassStep(s, grants))
  {
    forall j | j in s.jobOf ensures JobOk(PassStep(s, grants), j) {
      assert JobOk(s, j);
      PassJob(s, grants, j);
    }
  }

  lemma PassKeepsInv(s: Sys, grants: seq<JobId>)
    requires Inv(s) && Enabled(s, Pass(grants))
    ensures Inv(PassStep(s, grants))
  {
    LogFrame(s, PassStep(s, grants));
    ResultsFrame(s, PassStep(s, grants));
    PassRest(s, grants);
    PassTokens(s, grants);
    PassJobs(s, grants);
  }

  // --- delivery ---

  /** The grant at the head of the pass: the skip branches of `deliver_grants` are not taken. */
  ghost predicate GrantOk(s: Sys) {
    && s.pc.Delivering? && s.pc.grants != []
    && s.pc.grants[0] in s.jobOf && JobOk(s, s.pc.grants[0])
    && (forall i :: 0 < i < |s.pc.grants| ==> s.pc.grants[i] != s.pc.grants[0])
  }

  lemma GrantMints(s: Sys)
    requires GrantOk(s)
    ensures
      var j := s.pc.grants[0];
      var t := s.jobOf[j];
      && CanMint(s.actor, j) && j in s.actor.waiters && s.actor.waiters[j] == t == s.actor.jobTokens[j]
      && t < |s.clients| && Unsent(s.clients[t].granted)
      && Delivered(s.actor, j) == DropWaiter(s.actor, j)
      && j !in s.pc.grants[1..] && (forall k :: k in s.pc.grants <==> k == j || k in s.pc.grants[1..])
  {
  }

  lemma DeliverTouches(s: Sys)
    requires GrantOk(s)
    ensures
      var j, s' := s.pc.grants[0], DeliverStep(s);
      var t := s.jobOf[j];
      && s'.actor == DropWaiter(s.actor, j) && s'.pc == Delivering(s.pc.grants[1..])
      && s'.ingress == s.ingress && s'.jobOf == s.jobOf && s'.granted == s.granted && s'.superseded == s.superseded
      && |s'.clients| == |s.clients|
      && (forall u: Token :: u < |s.clients| && u != t ==> s'.clients[u] == s.clients[u])
      && if s.clients[t].granted.Open? then
           s'.clients[t] == s.clients[t].(granted := Sent(Granted(j))) && s'.log == s.log && s'.queue == s.queue
         else
           s'.clients[t] == s.clients[t] && s'.log == s.log + [Complete(j, t)] && s'.queue == s.queue + [Complete(j, t)]
  {
    GrantMints(s);
  }

  lemma DeliveredClient(s: Sys)
    requires GrantOk(s) && IndexesOk(s) && TokenOk(s, s.jobOf[s.pc.grants[0]])
    ensures TokenOk(DeliverStep(s), s.jobOf[s.pc.grants[0]])
  {
    DeliverTouches(s);
    GrantMints(s);
    assert !HasNoJob(s, s.jobOf[s.pc.grants[0]]);
  }

  lemma DeliverToken(s: Sys, u: Token)
    requires GrantOk(s) && IndexesOk(s) && u < |s.clients| && u != s.jobOf[s.pc.grants[0]] && TokenOk(s, u)
    ensures TokenOk(DeliverStep(s), u)
  {
    var j := s.pc.grants[0];
    GrantMints(s);
    DeliverTouches(s);
    assert SameJobs(s, DeliverStep(s), u);
    if HasWaiter(s.actor, u) {
      WaiterKept(s.actor, j, s.jobOf[j], u);
    }
    TokenFrame(s, DeliverStep(s), u);
  }

  lemma DeliveredJob(s: Sys)
    requires GrantOk(s) && IndexesOk(s) && TokenOk(s, s.jobOf[s.pc.grants[0]]) && s.pc.grants[0] in s.granted
    ensures JobOk(DeliverStep(s), s.pc.grants[0])
  {
    GrantMints(s);
    DeliverTouches(s);
  }

  lemma DeliverJob(s: Sys, k: JobId)
    requires GrantOk(s) && IndexesOk(s) && k in s.jobOf && k != s.pc.grants[0] && JobOk(s, k)
    ensures JobOk(DeliverStep(s), k)
  {
    GrantMints(s);
    DeliverTouches(s);
    assert s.jobOf[k] != s.jobOf[s.pc.grants[0]];
    JobFrame(s, DeliverStep(s), k);
  }

  lemma DeliverIndexes(s: Sys)
    requires GrantOk(s) && IndexesOk(s)
    ensures IndexesOk(DeliverStep(s))
  {
    GrantMints(s);
    DeliverTouches(s);
  }

  lemma DeliverRest(s: Sys)
    requires GrantOk(s) && PcOk(s) && IngressOk(s) && LoopOk(s)
    ensures
      var s' := DeliverStep(s);
      PcOk(s') && IngressOk(s') && LoopOk(s')
  {
    GrantMints(s);
    DeliverTouches(s);
  }

  lemma DeliverHistory(s: Sys)
    requires GrantOk(s) && LogOk(s) && ResultsOk(s) && s.pc.grants[0] in s.granted
    ensures LogOk(DeliverStep(s)) && ResultsOk(DeliverStep(s))
  {
    var j := s.pc.grants[0];
    GrantMints(s);
    var quiet := s.(pc := Delivering(s.pc.grants[1..]), actor := DropWaiter(s.actor, j));
    if s.clients[s.jobOf[j]].granted.Open? {
      LogFrame(s, DeliverStep(s));
      ResultsFrame(s, DeliverStep(s));
    } else {
      LogFrame(s, quiet);
      AppendToLog(quiet, Complete(j, s.jobOf[j]));
      forall i | 0 <= i < |s.results| ensures ResultOk(DeliverStep(s), s.results[i]) {
        assert ResultOk(s, s.results[i]);
      }
    }
  }

  lemma DeliverTokens(s: Sys)
    requires GrantOk(s) && IndexesOk(s) && TokensOk(s)
    ensures TokensOk(DeliverStep(s))
  {
    DeliverTouches(s);
    forall u: Token | u < |s.clients| ensures TokenOk(DeliverStep(s), u) {
      assert TokenOk(s, u);
      if u == s.jobOf[s.pc.grants[0]] { DeliveredClient(s); } else { DeliverToken(s, u); }
    }
  }

  lemma DeliverJobs(s: Sys)
    requires GrantOk(s) && IndexesOk(s) && JobsOk(s)
    requires TokenOk(s, s.jobOf[s.pc.grants[0]]) && s.pc.grants[0] in s.granted
    ensures JobsOk(DeliverStep(s))
  {
    DeliverTouches(s);
    forall k | k in s.jobOf ensures JobOk(DeliverStep(s), k) {
      assert JobOk(s, k);
      if k == s.pc.grants[0] { DeliveredJob(s); } else { DeliverJob(s, k); }
    }
  }

  lemma HeadGrantOk(s: Sys)
    requires Enabled(s, Deliver) && IndexesOk(s) && IngressOk(s) && JobsOk(s)
    ensures GrantOk(s) && s.pc.grants[0] in s.granted
  {
    assert s.pc.grants[0] in Remaining(s.pc);
    assert JobOk(s, s.pc.grants[0]);
  }

  lemma DeliverKeepsInv(s: Sys)
    requires Inv(s) && Enabled(s, Deliver)
    ensures Inv(DeliverStep(s))
  {
    HeadGrantOk(s);
    assert TokenOk(s, s.jobOf[s.pc.grants[0]]);
    DeliverRest(s);
    DeliverIndexes(s);
    DeliverHistory(s);
    DeliverTokens(s);
    DeliverJobs(s);
  }

  // --- shutdown ---

  function CloseNext(s: Sys, job: JobId): Sys
    requires job in s.actor.waiters
  {
    s.(clients := SendGrant(s.clients, s.actor.waiters[job], Closed), actor := DropWaiter(s.actor, job))
  }

  lemma CloseTouches(s: Sys, job: JobId)
    requires job in s.actor.waiters && job in s.jobOf && JobOk(s, job)
    ensures
      var s', t := CloseNext(s, job), s.jobOf[job];
      && t == s.actor.waiters[job] && t < |s.clients| && s.clients[t].sent
      && s'.actor == DropWaiter(s.actor, job)
      && s'.clients == s.clients[t := s.clients[t].(granted := Send(s.clients[t].granted, Closed))]
      && s' == s.(actor := s'.actor, clients := s'.clients)
  {
  }

  lemma ClosedClient(s: Sys, job: JobId)
    requires s.pc.Stopping? && job in s.actor.waiters && job in s.jobOf && JobOk(s, job) && TokenOk(s, s.jobOf[job])
    ensures TokenOk(CloseNext(s, job), s.jobOf[job])
  {
    CloseTouches(s, job);
    assert !HasNoJob(s, s.jobOf[job]);
  }

  lemma CloseToken(s: Sys, job: JobId, u: Token)
    requires s.pc.Stopping? && job in s.actor.waiters && job in s.jobOf && JobOk(s, job)
    requires u < |s.clients| && u != s.jobOf[job] && TokenOk(s, u)
    ensures TokenOk(CloseNext(s, job), u)
  {
    CloseTouches(s, job);
    assert SameJobs(s, CloseNext(s, job), u);
    if HasWaiter(s.actor, u) {
      WaiterKept(s.actor, job, s.jobOf[job], u);
    }
    TokenFrame(s, CloseNext(s, job), u);
  }

  lemma ClosedJob(s: Sys, job: JobId)
    requires s.pc.Stopping? && job in s.actor.waiters && job in s.jobOf && JobOk(s, job)
    ensures JobOk(CloseNext(s, job), job)
  {
    CloseTouches(s, job);
  }

  lemma CloseJob(s: Sys, job: JobId, k: JobId)
    requires s.pc.Stopping? && IndexesOk(s) && job in s.actor.waiters && job in s.jobOf && JobOk(s, job)
    requires k in s.jobOf && k != job && JobOk(s, k)
    ensures JobOk(CloseNext(s, job), k)
  {
    CloseTouches(s, job);
    assert s.jobOf[k] != s.jobOf[job];
    JobFrame(s, CloseNext(s, job), k);
  }

  lemma CloseTokens(s: Sys, job: JobId)
    requires s.pc.Stopping? && job in s.actor.waiters && job in s.jobOf && JobOk(s, job) && TokensOk(s)
    ensures TokensOk(CloseNext(s, job))
  {
    CloseTouches(s, job);
    forall u: Token | u < |s.clients| ensures TokenOk(CloseNext(s, job), u) {
      assert TokenOk(s, u);
      if u == s.jobOf[job] { ClosedClient(s, job); } else { CloseToken(s, job, u); }
    }
  }

  lemma CloseJobs(s: Sys, job: JobId)
    requires s.pc.Stopping? && IndexesOk(s) && JobsOk(s) && job in s.actor.waiters && job in s.jobOf
    ensures JobsOk(CloseNext(s, job))
  {
    assert JobOk(s, job);
    forall k | k in s.jobOf ensures JobOk(CloseNext(s, job), k) {
      assert JobOk(s, k);
      if k == job { ClosedJob(s, job); } else { CloseJob(s, job, k); }
    }
  }

  lemma CloseRest(s: Sys, job: JobId)
    requires s.pc.Stopping? && IndexesOk(s) && PcOk(s) && IngressOk(s) && LogOk(s) && ResultsOk(s) && LoopOk(s)
    requires job in s.actor.waiters && job in s.jobOf && JobOk(s, job)
    ensures
      var s' := CloseNext(s, job);
      IndexesOk(s') && PcOk(s') && IngressOk(s') && LogOk(s') && ResultsOk(s') && LoopOk(s')
  {
    CloseTouches(s, job);
    LogFrame(s, CloseNext(s, job));
    ResultsFrame(s, CloseNext(s, job));
  }

  lemma CloseKeepsInv(s: Sys, job: JobId)
    requires Inv(s) && s.pc.Stopping? && job in s.actor.waiters
    ensures Inv(CloseNext(s, job))
  {
    assert JobOk(s, job);
    CloseRest(s, job);
    CloseTokens(s, job);
    CloseJobs(s, job);
  }

  function StopNext(s: Sys): Sys {
    s.(clients := DropCommands(s.clients, s.ingress), ingress := [], pc := Stopped)
  }

  lemma StopToken(s: Sys, u: Token)
    requires s.pc.Stopping? && s.actor.waiters == map[] && u < |s.clients| && TokenOk(s, u)
    ensures TokenOk(StopNext(s), u)
  {
    assert HasNoJob(s, u) ==> HasNoJob(StopNext(s), u);
  }

  lemma StopTokens(s: Sys)
    requires s.pc.Stopping? && s.actor.waiters == map[] && TokensOk(s)
    ensures TokensOk(StopNext(s))
  {
    forall u: Token | u < |s.clients| ensures TokenOk(StopNext(s), u) {
      assert TokenOk(s, u);
      StopToken(s, u);
    }
  }

  lemma StopJobs(s: Sys)
    requires s.pc.Stopping? && JobsOk(s)
    ensures JobsOk(StopNext(s))
  {
    forall k | k in s.jobOf ensures JobOk(StopNext(s), k) {
      assert JobOk(s, k);
      JobFrame(s, StopNext(s), k);
    }
  }

  lemma StopRest(s: Sys)
    requires s.pc.Stopping? && s.actor.waiters == map[] && IndexesOk(s) && IngressOk(s) && LoopOk(s)
    ensures IndexesOk(StopNext(s)) && PcOk(StopNext(s)) && IngressOk(StopNext(s)) && LoopOk(StopNext(s))
  {
  }

  lemma StopHistory(s: Sys)
    requires LogOk(s) && ResultsOk(s)
    ensures LogOk(StopNext(s)) && ResultsOk(StopNext(s))
  {
    LogFrame(s, StopNext(s));
    ResultsFrame(s, StopNext(s));
  }

  lemma StopKeepsInv(s: Sys)
    requires Inv(s) && s.pc.Stopping? && s.actor.waiters == map[]
    ensures Inv(StopNext(s))
  {
    StopRest(s);
    StopHistory(s);
    StopTokens(s);
    StopJobs(s);
  }
}
