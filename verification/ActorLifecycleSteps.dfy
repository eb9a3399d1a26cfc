/** Handling one lifecycle command. */
module ActorLifecycleSteps {
  import opened Basics
  import opened ActorModel
  import opened ActorProtocol
  import opened ActorInvariant
  import opened ActorSteps
  import opened ActorFrames
  import opened ActorReplySteps

  /** The actor is between two commands. */
  predicate Ready(pc: ActorPc) {
    pc.Draining? || pc.Parked?
  }

  predicate Follows(s: Sys, onward: ActorPc) {
    s.queue != [] && Ready(s.pc) && onward.Draining?
  }

  lemma TailKeeps(queue: seq<Command>, c: Command)
    requires queue != [] && c in queue && c != queue[0]
    ensures c in queue[1..]
  {
  }

  // --- commands that leave the indexes alone ---

  /** The head changes no index: a start, anything else, or the cancellation of a job already forgotten. */
  predicate Idle(s: Sys)
    requires s.queue != []
  {
    match s.queue[0]
    case Cancel(t) => t !in s.actor.pendingTokens
    case Complete(_, _) => false
    case _ => true
  }

  lemma IdleKeepsClients(s: Sys, onward: ActorPc)
    requires Follows(s, onward) && Idle(s)
    ensures HandleHead(s, onward).clients == s.clients && HandleHead(s, onward).actor == s.actor
  {
  }

  lemma IdleTouches(s: Sys, onward: ActorPc)
    requires Follows(s, onward) && Idle(s)
    ensures
      var s' := HandleHead(s, onward);
      && s' == s.(queue := s.queue[1..], owed := s'.owed, pc := s'.pc, dirty := s'.dirty)
      && (s'.pc == onward || s'.pc.Stopping?)
  {
    IdleKeepsClients(s, onward);
  }

  lemma IdleToken(s: Sys, onward: ActorPc, u: Token)
    requires Follows(s, onward) && Idle(s) && u < |s.clients| && TokenOk(s, u)
    ensures u < |HandleHead(s, onward).clients| && TokenOk(HandleHead(s, onward), u)
  {
    IdleTouches(s, onward);
    assert SameJobs(s, HandleHead(s, onward), u);
    TokenFrame(s, HandleHead(s, onward), u);
  }

  /** The commands about a job stay queued, except the one being handled. */
  lemma TailCommands(s: Sys, onward: ActorPc, j: JobId, t: Token)
    requires s.queue != [] && Cancel(t) != s.queue[0] && Complete(j, t) != s.queue[0]
    ensures SameCommands(s, HandleHead(s, onward), j, t)
  {
    if Cancel(t) in s.queue {
      TailKeeps(s.queue, Cancel(t));
    }
    if Complete(j, t) in s.queue {
      TailKeeps(s.queue, Complete(j, t));
    }
  }

  lemma IdleJob(s: Sys, onward: ActorPc, j: JobId)
    requires Follows(s, onward) && Idle(s) && j in s.jobOf && JobOk(s, j)
    requires s.queue[0] == Cancel(s.jobOf[j]) ==> j !in s.actor.pending
    ensures JobOk(HandleHead(s, onward), j)
  {
    var t := s.jobOf[j];
    IdleTouches(s, onward);
    if s.queue[0] == Cancel(t) {
      if Complete(j, t) in s.queue {
        TailKeeps(s.queue, Complete(j, t));
      }
    } else {
      TailCommands(s, onward, j, t);
      JobFrame(s, HandleHead(s, onward), j);
    }
  }

  /** The token of a pending job is mapped between commands, so its cancellation is not idle. */
  lemma IdleCancelMissesPending(s: Sys, j: JobId)
    requires s.queue != [] && Ready(s.pc) && Idle(s) && j in s.jobOf && JobOk(s, j)
    ensures s.queue[0] == Cancel(s.jobOf[j]) ==> j !in s.actor.pending
  {
  }

  // --- cancelling a mapped job ---

  predicate Cancels(s: Sys)
    requires s.queue != []
  {
    s.queue[0].Cancel? && s.queue[0].token in s.actor.pendingTokens
  }

  predicate SameLedger(s: Sys, s': Sys) {
    && s'.ingress == s.ingress && s'.log == s.log && s'.results == s.results
    && s'.jobOf == s.jobOf && s'.granted == s.granted && s'.superseded == s.superseded
  }

  lemma CancelTouches(s: Sys, onward: ActorPc)
    requires Follows(s, onward) && Cancels(s) && IndexesOk(s)
    requires var j := s.actor.pendingTokens[s.queue[0].token]; j in s.jobOf && JobOk(s, j)
    ensures
      var t, s' := s.queue[0].token, HandleHead(s, onward);
      var j := s.actor.pendingTokens[t];
      && s.jobOf[j] == t && t < |s.clients|
      && s'.actor.pending == s.actor.pending - {j}
      && s'.actor.inFlight == s.actor.inFlight && s'.actor.nextJob == s.actor.nextJob
      && s'.actor.waiters == s.actor.waiters - {j}
      && s'.actor.jobTokens == s.actor.jobTokens - {j}
      && s'.actor.pendingTokens == s.actor.pendingTokens - {t}
      && s'.actor.tokenStates == s.actor.tokenStates - {t}
      && |s'.clients| == |s.clients|
      && (forall u: Token :: u < |s.clients| && u != t ==> s'.clients[u] == s.clients[u])
      && s'.clients[t] == s.clients[t].(
           shared := TokenTerminal,
           granted := if j in s.actor.waiters then DropSender(s.clients[t].granted) else s.clients[t].granted)
      && SameLedger(s, s') && s'.queue == s.queue[1..] && s'.pc == onward
  {
  }

  /** A client whose atomic has ended and whose unused sender is gone. */
  function Ended(c: Client, drop: bool): Client {
    c.(shared := TokenTerminal, granted := if drop then DropSender(c.granted) else c.granted)
  }

  lemma EndedShape(c: Client, drop: bool)
    requires ShapeOk(c)
    ensures ShapeOk(Ended(c, drop)) && PermitOf(Ended(c, drop)) == PermitOf(c)
  {
  }

  /** With no other waiter of this token around, an open channel has its sender elsewhere. */
  lemma CancelledSenders(s: Sys, onward: ActorPc)
    requires Follows(s, onward) && Cancels(s) && IndexesOk(s)
    requires var j := s.actor.pendingTokens[s.queue[0].token]; j in s.jobOf && JobOk(s, j)
    requires s.queue[0].token < |s.clients| && SendersOk(s, s.clients[s.queue[0].token], s.queue[0].token)
    ensures
      var s', t := HandleHead(s, onward), s.queue[0].token;
      t < |s'.clients| && SendersOk(s', s'.clients[t], t)
  {
    var t := s.queue[0].token;
    var j := s.actor.pendingTokens[t];
    CancelTouches(s, onward);
    if HasWaiter(s.actor, t) && j !in s.actor.waiters {
      OnlyWaiter(s.actor, HandleHead(s, onward).actor, j, t);
    }
  }

  /** Dropping one waiter of a token leaves the others. */
  lemma OnlyWaiter(a: Actor, b: Actor, j: JobId, t: Token)
    requires b.waiters == a.waiters - {j} && HasWaiter(a, t) && j !in a.waiters
    ensures HasWaiter(b, t)
  {
    var k :| k in a.waiters && a.waiters[k] == t;
    assert k in b.waiters && b.waiters[k] == t;
  }

  lemma CancelledClient(s: Sys, onward: ActorPc)
    requires Follows(s, onward) && Cancels(s) && IndexesOk(s)
    requires var j := s.actor.pendingTokens[s.queue[0].token]; j in s.jobOf && JobOk(s, j)
    requires s.queue[0].token < |s.clients| && TokenOk(s, s.queue[0].token)
    ensures s.queue[0].token < |HandleHead(s, onward).clients| && TokenOk(HandleHead(s, onward), s.queue[0].token)
  {
    var t := s.queue[0].token;
    var j := s.actor.pendingTokens[t];
    CancelledSenders(s, onward);
    EndedShape(s.clients[t], j in s.actor.waiters);
    CancelTouches(s, onward);
    assert JobIs(s, j, t) && !HasNoJob(s, t);
  }

  lemma CancelToken(s: Sys, onward: ActorPc, u: Token)
    requires Follows(s, onward) && Cancels(s) && IndexesOk(s)
    requires var j := s.actor.pendingTokens[s.queue[0].token]; j in s.jobOf && JobOk(s, j)
    requires u < |s.clients| && u != s.queue[0].token && TokenOk(s, u)
    ensures u < |HandleHead(s, onward).clients| && TokenOk(HandleHead(s, onward), u)
  {
    var s', j := HandleHead(s, onward), s.actor.pendingTokens[s.queue[0].token];
    CancelTouches(s, onward);
    assert SameJobs(s, s', u);
    if HasWaiter(s.actor, u) {
      WaiterKept(s.actor, j, s.queue[0].token, u);
      assert s'.actor.waiters == DropWaiter(s.actor, j).waiters;
    }
    TokenFrame(s, s', u);
  }

  lemma CancelMisses(s: Sys, onward: ActorPc, k: JobId)
    requires Follows(s, onward) && Cancels(s) && IndexesOk(s)
    requires var j := s.actor.pendingTokens[s.queue[0].token]; j in s.jobOf && JobOk(s, j) && k != j
    requires k in s.jobOf && JobOk(s, k)
    ensures SameJob(s, HandleHead(s, onward), k)
  {
    CancelTouches(s, onward);
    assert s.jobOf[k] != s.queue[0].token;
    TailCommands(s, onward, k, s.jobOf[k]);
    assert SameOwner(s, HandleHead(s, onward), k);
  }

  lemma CancelOtherJob(s: Sys, onward: ActorPc, k: JobId)
    requires Follows(s, onward) && Cancels(s) && IndexesOk(s)
    requires var j := s.actor.pendingTokens[s.queue[0].token]; j in s.jobOf && JobOk(s, j) && k != j
    requires k in s.jobOf && JobOk(s, k)
    ensures JobOk(HandleHead(s, onward), k)
  {
    CancelMisses(s, onward, k);
    JobFrame(s, HandleHead(s, onward), k);
  }

  lemma CancelledJob(s: Sys, onward: ActorPc, j: JobId)
    requires Follows(s, onward) && Cancels(s) && IndexesOk(s)
    requires j == s.actor.pendingTokens[s.queue[0].token] && j in s.jobOf && JobOk(s, j)
    ensures JobOk(HandleHead(s, onward), j)
  {
    CancelTouches(s, onward);
    if Complete(j, s.jobOf[j]) in s.queue {
      TailKeeps(s.queue, Complete(j, s.jobOf[j]));
    }
  }

  lemma CancelJob(s: Sys, onward: ActorPc, k: JobId)
    requires Follows(s, onward) && Cancels(s) && IndexesOk(s)
    requires var j := s.actor.pendingTokens[s.queue[0].token]; j in s.jobOf && JobOk(s, j)
    requires k in s.jobOf && JobOk(s, k)
    ensures JobOk(HandleHead(s, onward), k)
  {
    if k == s.actor.pendingTokens[s.queue[0].token] {
      CancelledJob(s, onward, k);
    } else {
      CancelOtherJob(s, onward, k);
    }
  }

  // --- completing a job ---

  lemma CompleteActor(s: Sys)
    requires s.queue != [] && s.queue[0].Complete? && Ready(s.pc) && IndexesOk(s)
    requires JobIs(s, s.queue[0].job, s.queue[0].token) && JobOk(s, s.queue[0].job)
    requires s.queue[0].job in s.actor.jobTokens || s.queue[0].token !in s.actor.pendingTokens
    ensures
      var j, t, a := s.queue[0].job, s.queue[0].token, Handle(s.actor, s.queue[0]);
      && a.pending == s.actor.pending && a.waiters == s.actor.waiters
      && a.inFlight == s.actor.inFlight - {j} && a.nextJob == s.actor.nextJob
      && a.jobTokens == s.actor.jobTokens - {j}
      && a.pendingTokens == s.actor.pendingTokens - {t}
      && a.tokenStates == s.actor.tokenStates - {t}
      && Terminated(s.actor, s.queue[0]) == {t} && Abandoned(s.actor, s.queue[0]) == {}
  {
  }

  lemma CompleteTouches(s: Sys, onward: ActorPc)
    requires Follows(s, onward) && s.queue[0].Complete? && IndexesOk(s)
    requires JobIs(s, s.queue[0].job, s.queue[0].token) && JobOk(s, s.queue[0].job) && s.queue[0].job in s.granted
    requires s.queue[0].job in s.actor.jobTokens || s.queue[0].token !in s.actor.pendingTokens
    ensures
      var j, t, s' := s.queue[0].job, s.queue[0].token, HandleHead(s, onward);
      && t < |s.clients|
      && j !in s.actor.pending && j !in s.actor.waiters
      && s'.actor.pending == s.actor.pending
      && s'.actor.inFlight == s.actor.inFlight - {j} && s'.actor.nextJob == s.actor.nextJob
      && s'.actor.waiters == s.actor.waiters
      && s'.actor.jobTokens == s.actor.jobTokens - {j}
      && s'.actor.pendingTokens == s.actor.pendingTokens - {t}
      && s'.actor.tokenStates == s.actor.tokenStates - {t}
      && s'.clients == s.clients[t := s.clients[t].(shared := TokenTerminal)]
      && SameLedger(s, s') && s'.queue == s.queue[1..] && s'.pc == onward
  {
    CompleteActor(s);
    StoreOne(s.clients, s.queue[0].token);
    DropNothing(StoreTerminal(s.clients, {s.queue[0].token}));
  }

  /** A job without mapping leaves no token behind. */
  lemma UnmappedHasNoToken(s: Sys, j: JobId)
    requires IndexesOk(s) && JobsOk(s) && j in s.jobOf && j !in s.actor.jobTokens
    ensures s.jobOf[j] !in s.actor.pendingTokens
  {
    forall u | u in s.actor.pendingTokens ensures u != s.jobOf[j] {
      assert JobOk(s, s.actor.pendingTokens[u]);
    }
  }

  /** The job under completion: in flight or already gone, with its permit spent. */
  ghost predicate CompletesOk(s: Sys) {
    && s.queue != [] && s.queue[0].Complete? && IndexesOk(s)
    && JobIs(s, s.queue[0].job, s.queue[0].token) && JobOk(s, s.queue[0].job) && s.queue[0].job in s.granted
    && (s.queue[0].job in s.actor.jobTokens || s.queue[0].token !in s.actor.pendingTokens)
    && s.queue[0] in s.log
  }

  lemma CompletedClient(s: Sys, onward: ActorPc)
    requires Follows(s, onward) && CompletesOk(s) && s.queue[0].token < |s.clients| && TokenOk(s, s.queue[0].token)
    ensures s.queue[0].token < |HandleHead(s, onward).clients| && TokenOk(HandleHead(s, onward), s.queue[0].token)
  {
    CompleteTouches(s, onward);
    assert !HasNoJob(s, s.queue[0].token);
  }

  lemma CompleteToken(s: Sys, onward: ActorPc, u: Token)
    requires Follows(s, onward) && CompletesOk(s) && u < |s.clients| && u != s.queue[0].token && TokenOk(s, u)
    ensures u < |HandleHead(s, onward).clients| && TokenOk(HandleHead(s, onward), u)
  {
    CompleteTouches(s, onward);
    assert SameJobs(s, HandleHead(s, onward), u);
    TokenFrame(s, HandleHead(s, onward), u);
  }

  lemma CompletedJob(s: Sys, onward: ActorPc)
    requires Follows(s, onward) && CompletesOk(s)
    ensures JobOk(HandleHead(s, onward), s.queue[0].job)
  {
    CompleteTouches(s, onward);
  }

  lemma CompleteMisses(s: Sys, onward: ActorPc, k: JobId)
    requires Follows(s, onward) && CompletesOk(s) && k in s.jobOf && k != s.queue[0].job && JobOk(s, k)
    ensures SameJob(s, HandleHead(s, onward), k)
  {
    CompleteTouches(s, onward);
    assert s.jobOf[k] != s.queue[0].token;
    TailCommands(s, onward, k, s.jobOf[k]);
    assert SameOwner(s, HandleHead(s, onward), k);
  }

  lemma CompleteOtherJob(s: Sys, onward: ActorPc, k: JobId)
    requires Follows(s, onward) && CompletesOk(s) && k in s.jobOf && k != s.queue[0].job && JobOk(s, k)
    ensures JobOk(HandleHead(s, onward), k)
  {
    CompleteMisses(s, onward, k);
    JobFrame(s, HandleHead(s, onward), k);
  }

  lemma CompleteJob(s: Sys, onward: ActorPc, k: JobId)
    requires Follows(s, onward) && CompletesOk(s) && k in s.jobOf && JobOk(s, k)
    ensures JobOk(HandleHead(s, onward), k)
  {
    if k == s.queue[0].job {
      CompletedJob(s, onward);
    } else {
      CompleteOtherJob(s, onward, k);
    }
  }

  // --- any command ---

  lemma HeadHistory(s: Sys, onward: ActorPc)
    requires Follows(s, onward) && LogOk(s) && ResultsOk(s)
    ensures LogOk(HandleHead(s, onward)) && ResultsOk(HandleHead(s, onward))
  {
    LogFrame(s, HandleHead(s, onward));
    ResultsFrame(s, HandleHead(s, onward));
  }

  lemma CancelIndexes(s: Sys, onward: ActorPc)
    requires Follows(s, onward) && Cancels(s) && IndexesOk(s)
    requires var j := s.actor.pendingTokens[s.queue[0].token]; j in s.jobOf && JobOk(s, j)
    ensures IndexesOk(HandleHead(s, onward))
  {
    CancelTouches(s, onward);
    UnmapIndexes(s.actor, s.actor.pendingTokens[s.queue[0].token]);
    TokenIndexesFrame(s, HandleHead(s, onward));
  }

  lemma CompleteIndexes(s: Sys, onward: ActorPc)
    requires Follows(s, onward) && CompletesOk(s)
    ensures IndexesOk(HandleHead(s, onward))
  {
    CompleteTouches(s, onward);
    if s.queue[0].job in s.actor.jobTokens {
      UnmapIndexes(s.actor, s.queue[0].job);
    }
    TokenIndexesFrame(s, HandleHead(s, onward));
  }

  lemma IdleIndexes(s: Sys, onward: ActorPc)
    requires Follows(s, onward) && Idle(s) && IndexesOk(s)
    ensures IndexesOk(HandleHead(s, onward))
  {
    IdleTouches(s, onward);
  }

  lemma HeadIndexes(s: Sys, onward: ActorPc)
    requires Follows(s, onward) && IndexesOk(s) && JobsOk(s)
    requires s.queue[0].Complete? ==> CompletesOk(s)
    ensures IndexesOk(HandleHead(s, onward))
  {
    if Cancels(s) {
      assert JobOk(s, s.actor.pendingTokens[s.queue[0].token]);
      CancelIndexes(s, onward);
    } else if s.queue[0].Complete? {
      CompleteIndexes(s, onward);
    } else {
      IdleIndexes(s, onward);
    }
  }

  /** The bounded drain handles commands in the order of the channel, so what is owed comes first. */
  lemma HeadRest(s: Sys, onward: ActorPc)
    requires Follows(s, onward) && PcOk(s) && IngressOk(s) && LoopOk(s)
    requires onward.n == (if s.pc.Draining? then s.pc.n + 1 else 0)
    requires s.pc.Draining? ==> s.pc.n < LIFECYCLE_DRAIN_BATCH
    ensures PcOk(HandleHead(s, onward)) && IngressOk(HandleHead(s, onward)) && LoopOk(HandleHead(s, onward))
  {
  }

  lemma HeadToken(s: Sys, onward: ActorPc, u: Token)
    requires Follows(s, onward) && IndexesOk(s) && JobsOk(s) && LogOk(s) && u < |s.clients| && TokenOk(s, u)
    ensures u < |HandleHead(s, onward).clients| && TokenOk(HandleHead(s, onward), u)
  {
    if Cancels(s) {
      assert JobOk(s, s.actor.pendingTokens[s.queue[0].token]);
      if u == s.queue[0].token { CancelledClient(s, onward); } else { CancelToken(s, onward, u); }
    } else if s.queue[0].Complete? {
      HeadCompletes(s);
      if u == s.queue[0].token { CompletedClient(s, onward); } else { CompleteToken(s, onward, u); }
    } else {
      IdleToken(s, onward, u);
    }
  }

  lemma HeadJob(s: Sys, onward: ActorPc, k: JobId)
    requires Follows(s, onward) && IndexesOk(s) && JobsOk(s) && LogOk(s) && k in s.jobOf
    ensures JobOk(HandleHead(s, onward), k)
  {
    assert JobOk(s, k);
    if Cancels(s) {
      assert JobOk(s, s.actor.pendingTokens[s.queue[0].token]);
      CancelJob(s, onward, k);
    } else if s.queue[0].Complete? {
      HeadCompletes(s);
      CompleteJob(s, onward, k);
    } else {
      IdleCancelMissesPending(s, k);
      IdleJob(s, onward, k);
    }
  }

  lemma HeadCompletes(s: Sys)
    requires IndexesOk(s) && JobsOk(s) && LogOk(s) && s.queue != [] && s.queue[0].Complete?
    ensures CompletesOk(s)
  {
    assert s.queue[0] in s.log;
    assert s.queue[0] == Complete(s.queue[0].job, s.queue[0].token);
    assert JobOk(s, s.queue[0].job);
    if s.queue[0].job !in s.actor.jobTokens {
      UnmappedHasNoToken(s, s.queue[0].job);
    }
  }

  lemma HeadTokens(s: Sys, onward: ActorPc)
    requires Follows(s, onward) && IndexesOk(s) && TokensOk(s) && JobsOk(s) && LogOk(s)
    ensures TokensOk(HandleHead(s, onward))
  {
    assert |HandleHead(s, onward).clients| == |s.clients|;
    forall u: Token | u < |s.clients| ensures TokenOk(HandleHead(s, onward), u) {
      assert TokenOk(s, u);
      HeadToken(s, onward, u);
    }
  }

  lemma HeadJobs(s: Sys, onward: ActorPc)
    requires Follows(s, onward) && IndexesOk(s) && JobsOk(s) && LogOk(s)
    ensures JobsOk(HandleHead(s, onward))
  {
    assert HandleHead(s, onward).jobOf == s.jobOf;
    forall k | k in s.jobOf ensures JobOk(HandleHead(s, onward), k) {
      HeadJob(s, onward, k);
    }
  }

  lemma HandleKeepsInv(s: Sys, onward: ActorPc)
    requires Follows(s, onward) && Inv(s)
    requires onward.n == (if s.pc.Draining? then s.pc.n + 1 else 0)
    requires s.pc.Draining? ==> s.pc.n < LIFECYCLE_DRAIN_BATCH
    ensures Inv(HandleHead(s, onward))
  {
    if s.queue[0].Complete? { HeadCompletes(s); }
    HeadHistory(s, onward);
    HeadIndexes(s, onward);
    HeadRest(s, onward);
    HeadTokens(s, onward);
    HeadJobs(s, onward);
  }
}
