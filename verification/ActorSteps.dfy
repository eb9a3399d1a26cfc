/** Steps of the actor, commands from outside and minting keep the protocol invariant. */
module ActorSteps {
  import opened Basics
  import opened ActorModel
  import opened ActorProtocol
  import opened ActorInvariant
  import opened ActorClientSteps
  import opened ActorFrames

  // --- moves of the loop that touch no token and no job ---

  /** No enqueue is in progress and no grant is waiting for delivery. */
  predicate Quiet(pc: ActorPc) {
    pc.Draining? || pc.Parked? || pc.Stopping? || pc == Delivering([])
  }

  lemma QuietToken(s: Sys, s': Sys, u: Token)
    requires Quiet(s.pc) && Quiet(s'.pc) && s' == s.(pc := s'.pc, owed := s'.owed, dirty := s'.dirty)
    requires u < |s.clients| && TokenOk(s, u)
    ensures TokenOk(s', u)
  {
    assert SameJobs(s, s', u);
    TokenFrame(s, s', u);
  }

  lemma QuietJob(s: Sys, s': Sys, j: JobId)
    requires Quiet(s.pc) && Quiet(s'.pc) && !Ending(s.pc)
    requires s' == s.(pc := s'.pc, owed := s'.owed, dirty := s'.dirty)
    requires j in s.jobOf && JobOk(s, j)
    ensures JobOk(s', j)
  {
    JobFrame(s, s', j);
  }

  lemma QuietMove(s: Sys, s': Sys)
    requires Inv(s) && Quiet(s.pc) && Quiet(s'.pc) && !Ending(s.pc)
    requires s' == s.(pc := s'.pc, owed := s'.owed, dirty := s'.dirty)
    requires LoopOk(s')
    ensures Inv(s')
  {
    forall u: Token | u < |s'.clients| ensures TokenOk(s', u) {
      assert TokenOk(s, u);
      QuietToken(s, s', u);
    }
    forall j | j in s'.jobOf ensures JobOk(s', j) {
      assert JobOk(s, j);
      QuietJob(s, s', j);
    }
    LogFrame(s, s');
    ResultsFrame(s, s');
  }

  // --- commands from outside ---

  lemma IssueToken(s: Sys, c: Command, u: Token)
    requires u < |s.clients| && TokenOk(s, u) && Repeatable(c)
    ensures TokenOk(Issue(s, c), u)
  {
    assert SameJobs(s, Issue(s, c), u);
    TokenFrame(s, Issue(s, c), u);
  }

  lemma IssueJob(s: Sys, c: Command, j: JobId)
    requires j in s.jobOf && JobOk(s, j) && Repeatable(c)
    ensures JobOk(Issue(s, c), j)
  {
    JobFrame(s, Issue(s, c), j);
  }

  lemma IssueRest(s: Sys, c: Command)
    requires IndexesOk(s) && PcOk(s) && IngressOk(s) && ResultsOk(s) && LoopOk(s)
    ensures
      var s' := Issue(s, c);
      IndexesOk(s') && PcOk(s') && IngressOk(s') && ResultsOk(s') && LoopOk(s')
  {
    var s' := Issue(s, c);
    assert forall u :: HasNoJob(s, u) ==> HasNoJob(s', u);
    assert forall i :: 0 <= i < |s.results| ==> ResultOk(s, s.results[i]) ==> ResultOk(s', s.results[i]);
  }

  lemma OtherCommandKeepsInv(s: Sys, c: Command)
    requires Inv(s) && Repeatable(c)
    ensures Inv(Issue(s, c))
  {
    AppendToLog(s, c);
    IssueRest(s, c);
    forall u: Token | u < |s.clients| ensures TokenOk(Issue(s, c), u) {
      assert TokenOk(s, u);
      IssueToken(s, c, u);
    }
    forall j | j in s.jobOf ensures JobOk(Issue(s, c), j) {
      assert JobOk(s, j);
      IssueJob(s, c, j);
    }
  }

  // --- minting ---

  lemma MintOldToken(s: Sys, u: Token)
    requires u < |s.clients| && TokenOk(s, u)
    ensures TokenOk(MintStep(s), u)
  {
    assert SameJobs(s, MintStep(s), u);
    TokenFrame(s, MintStep(s), u);
  }

  lemma MintNewToken(s: Sys)
    requires PcOk(s) && IngressOk(s) && LogOk(s) && JobsOk(s)
    ensures TokenOk(MintStep(s), |s.clients|)
  {
    forall j | j in s.jobOf ensures s.jobOf[j] < |s.clients| {
      assert JobOk(s, j);
    }
    assert MintStep(s).clients[|s.clients|].pc.Enqueuing?;
  }

  lemma MintJob(s: Sys, j: JobId)
    requires j in s.jobOf && JobOk(s, j)
    ensures JobOk(MintStep(s), j)
  {
    JobFrame(s, MintStep(s), j);
  }

  lemma MintIngress(s: Sys)
    requires IngressOk(s)
    ensures IngressOk(MintStep(s))
  {
  }

  lemma MintHistory(s: Sys)
    requires LogOk(s) && ResultsOk(s)
    ensures LogOk(MintStep(s)) && ResultsOk(MintStep(s))
  {
    assert SameHistory(s, MintStep(s));
    LogFrame(s, MintStep(s));
    ResultsFrame(s, MintStep(s));
  }

  lemma MintRest(s: Sys)
    requires IndexesOk(s) && LoopOk(s)
    ensures IndexesOk(MintStep(s)) && LoopOk(MintStep(s))
  {
  }

  lemma MintPc(s: Sys)
    requires PcOk(s)
    ensures PcOk(MintStep(s))
  {
    var s' := MintStep(s);
    assert forall u: Token :: u < |s.clients| ==> s'.clients[u] == s.clients[u];
    assert forall u :: HasNoJob(s, u) ==> HasNoJob(s', u);
  }

  lemma MintTokens(s: Sys)
    requires TokensOk(s) && PcOk(s) && IngressOk(s) && LogOk(s) && JobsOk(s)
    ensures TokensOk(MintStep(s))
  {
    MintNewToken(s);
    forall u: Token | u < |s.clients| ensures TokenOk(MintStep(s), u) {
      assert TokenOk(s, u);
      MintOldToken(s, u);
    }
    assert |MintStep(s).clients| == |s.clients| + 1;
  }

  lemma MintJobs(s: Sys)
    requires JobsOk(s)
    ensures JobsOk(MintStep(s))
  {
    forall j | j in MintStep(s).jobOf ensures JobOk(MintStep(s), j) {
      assert JobOk(s, j);
      MintJob(s, j);
    }
  }

  lemma MintKeepsInv(s: Sys)
    requires Inv(s)
    ensures Inv(MintStep(s))
  {
    MintIngress(s);
    MintHistory(s);
    MintRest(s);
    MintPc(s);
    MintTokens(s);
    MintJobs(s);
  }
}
