/** The inductive invariant of the queue protocol, token by token and job by job. */
module ActorInvariant {
  import opened Basics
  import opened ActorModel
  import opened ActorProtocol

  // --- vocabulary ---

  predicate JobIs(s: Sys, j: JobId, t: Token) {
    j in s.jobOf && s.jobOf[j] == t
  }

  ghost predicate HasNoJob(s: Sys, t: Token) {
    forall j :: j in s.jobOf ==> s.jobOf[j] != t
  }

  /** The actor is in the middle of this token's enqueue. */
  predicate Busy(pc: ActorPc, t: Token) {
    match pc
    case Accepted(token) => token == t
    case Refusing(token, _) => token == t
    case Superseding(token, _, _) => token == t
    case Forgetting(token, _, _) => token == t
    case Replying(token, _) => token == t
    case _ => false
  }

  predicate BusyJob(pc: ActorPc, j: JobId) {
    match pc
    case Superseding(_, job, _) => job == j
    case Forgetting(_, job, _) => job == j
    case Replying(_, job) => job == j
    case _ => false
  }

  /** The job is being replaced and still has its token mapping. */
  predicate PriorJob(pc: ActorPc, j: JobId) {
    match pc
    case Superseding(_, _, prior) => prior == j
    case Forgetting(_, _, prior) => prior == j
    case _ => false
  }

  predicate Unmapped(pc: ActorPc, j: JobId) {
    (pc.Superseding? || pc.Forgetting?) && pc.job == j
  }

  predicate Ending(pc: ActorPc) {
    pc.Stopping? || pc.Stopped?
  }

  /** The grants of the current pass that have not reached their waiters. */
  function Remaining(pc: ActorPc): seq<JobId> {
    if pc.Delivering? then pc.grants else []
  }

  /** The permit a client owns: held, completing, falling out of its channel, or buffered in it. */
  function PermitOf(c: Client): Option<JobId> {
    match c.pc
    case Holding(job, _) => Some(job)
    case Completing(job) => Some(job)
    case DroppingPermit(job) => Some(job)
    case _ => if c.granted.Sent? && c.granted.value.Granted? then Some(c.granted.value.job) else None
  }

  /** The permit has not been started. */
  predicate NotStarted(c: Client) {
    match c.pc
    case Holding(_, started) => !started
    case Completing(_) => false
    case _ => true
  }

  /** The future was dropped and its `Cancel` sent, if it had one to send. */
  predicate Late(pc: ClientPc) {
    pc.DroppingGrant? || pc.DroppingPermit? || pc.DroppingReply? || pc.Finished?
  }

  /** The client answers for the pending job `j`: its future is alive, or its drop has cancelled or will cancel it. */
  predicate Owned(c: Client, j: JobId, cancelQueued: bool) {
    match c.pc
    case Enqueuing => c.shared.TokenAccepted? && c.granted.Open? && (c.reply.Open? || c.reply == Sent(Admitted(j)))
    case Waiting(job) => job == j && c.shared.TokenAccepted? && c.granted.Open?
    case CancelSecond => c.shared.TokenAccepted?
    case CancelSending => c.shared.TokenCancelled?
    case DroppingGrant => c.shared.TokenCancelled? && cancelQueued
    case DroppingReply => c.shared.TokenCancelled? && cancelQueued
    case Finished => c.shared.TokenCancelled? && cancelQueued
    case _ => false
  }

  // --- the invariant ---

  predicate ShapeOk(c: Client) {
    && (c.reply.Sent? && c.reply.value.Admitted? ==> c.sent)
    && (c.granted.Sent? ==> c.sent)
    && match c.pc
       case Enqueuing => ReceiverAlive(c.reply) && ReceiverAlive(c.granted)
       case Waiting(_) => c.sent && c.reply.Received? && ReceiverAlive(c.granted)
       case Holding(_, _) => c.sent && c.reply.Received? && c.granted.Received?
       case Completing(_) => c.sent && c.reply.Received? && c.granted.Received?
       case CancelSecond => c.sent && ReceiverAlive(c.granted) && !c.reply.ReceiverGone?
       case CancelSending => c.sent && ReceiverAlive(c.granted) && !c.reply.ReceiverGone?
         && (c.shared.TokenCancelled? || c.shared.TokenTerminal?)
       case DroppingGrant => ReceiverAlive(c.granted) && !c.reply.ReceiverGone?
       case DroppingPermit(_) => c.granted.ReceiverGone? && !c.reply.ReceiverGone?
       case DroppingReply => c.granted.ReceiverGone? && !c.reply.ReceiverGone?
       case Finished => (c.granted.Received? || c.granted.ReceiverGone?) && (c.reply.Received? || c.reply.ReceiverGone?)
  }

  /** A command waiting in the ingress has an untouched token, or one its client already cancelled. */
  ghost predicate InIngressOk(s: Sys, c: Client, t: Token) {
    && c.sent
    && Unsent(c.reply) && Unsent(c.granted)
    && (c.shared.TokenPending? || c.shared.TokenCancelled?)
    && (c.shared.TokenPending? ==> c.pc.Enqueuing? && c.reply.Open? && c.granted.Open?)
    && !Busy(s.pc, t)
    && HasNoJob(s, t)
  }

  /** Where the senders of an empty oneshot are. */
  ghost predicate SendersOk(s: Sys, c: Client, t: Token) {
    && (c.reply.Open? ==> t in s.ingress || Busy(s.pc, t))
    && (c.granted.Open? ==>
         t in s.ingress || Busy(s.pc, t) || exists j :: j in s.actor.waiters && s.actor.waiters[j] == t)
  }

  ghost predicate MessagesOk(s: Sys, c: Client, t: Token) {
    && (c.reply.Sent? && c.reply.value.Admitted? ==> JobIs(s, c.reply.value.job, t))
    && (!c.sent || c.reply.SenderGone? || (c.reply.Sent? && c.reply.value.Denied?) ==> HasNoJob(s, t))
    && (c.pc.Waiting? ==> JobIs(s, c.pc.job, t))
    && (c.granted.Sent? && c.granted.value.Superseded? ==>
      JobIs(s, c.granted.value.job, t) && c.granted.value.job in s.superseded)
  }

  /** A permit exists for an in-flight job only, and only until its one completion is issued. */
  ghost predicate PermitOk(s: Sys, c: Client, t: Token) {
    PermitOf(c).Some? ==>
      var j := PermitOf(c).value;
      && JobIs(s, j, t)
      && j in s.actor.inFlight
      && Complete(j, t) !in s.log
      && j !in Remaining(s.pc)
      && (NotStarted(c) ==> Start(j) !in s.log)
  }

  ghost predicate TokenOk(s: Sys, t: Token)
    requires t < |s.clients|
  {
    var c := s.clients[t];
    && ShapeOk(c)
    && (t in s.ingress ==> InIngressOk(s, c, t))
    && (Busy(s.pc, t) ==> c.sent && Unsent(c.reply) && Unsent(c.granted))
    && SendersOk(s, c, t)
    && MessagesOk(s, c, t)
    && PermitOk(s, c, t)
    && (Cancel(t) in s.log ==> Late(c.pc) && (c.shared.TokenCancelled? || c.shared.TokenTerminal?))
  }

  ghost predicate PendingOk(s: Sys, j: JobId, t: Token)
    requires t < |s.clients|
  {
    && (s.clients[t].shared.TokenAccepted? || s.clients[t].shared.TokenCancelled?)
    && (Unmapped(s.pc, j) || j in s.actor.jobTokens)
    && (!Ending(s.pc) ==>
         && (BusyJob(s.pc, j) || j in s.actor.waiters)
         && Owned(s.clients[t], j, Cancel(t) in s.queue))
  }

  /** The slot of an in-flight job is accounted for. */
  ghost predicate InFlightOk(s: Sys, j: JobId, t: Token)
    requires t < |s.clients|
  {
    j in Remaining(s.pc) || PermitOf(s.clients[t]) == Some(j) || Complete(j, t) in s.queue
  }

  ghost predicate WaiterOk(s: Sys, j: JobId, t: Token)
    requires t < |s.clients| && j in s.actor.waiters
  {
    && s.actor.waiters[j] == t
    && Unsent(s.clients[t].granted) && !s.clients[t].reply.Open?
    && !BusyJob(s.pc, j)
    && (j in s.actor.pending || (s.pc.Superseding? && s.pc.prior == j) || j in Remaining(s.pc))
  }

  ghost predicate MappingOk(s: Sys, j: JobId, t: Token)
    requires j in s.actor.jobTokens
  {
    && s.actor.jobTokens[j] == t
    && t in s.actor.pendingTokens && s.actor.pendingTokens[t] == j
    && t in s.actor.tokenStates
    && (j in s.actor.pending || j in s.actor.inFlight || PriorJob(s.pc, j))
  }

  ghost predicate JobOk(s: Sys, j: JobId)
    requires j in s.jobOf
  {
    var t := s.jobOf[j];
    && t < |s.clients| && s.clients[t].sent && t !in s.ingress
    && (j in s.actor.pending ==> PendingOk(s, j, t) && j !in s.granted && j !in s.superseded && !PriorJob(s.pc, j))
    && (j in s.actor.inFlight ==> InFlightOk(s, j, t) && j in s.granted)
    && (j in s.actor.waiters ==> WaiterOk(s, j, t))
    && (j in s.actor.jobTokens ==> MappingOk(s, j, t))
    && (j in Remaining(s.pc) ==>
         && j in s.actor.inFlight && j in s.actor.jobTokens && j in s.actor.waiters
         && Complete(j, t) !in s.log && Start(j) !in s.log)
    && (j in s.granted ==>
         j !in s.superseded && !PriorJob(s.pc, j) && (j in s.actor.inFlight || Complete(j, t) in s.log))
  }

  ghost predicate IndexesOk(s: Sys) {
    && (forall j: JobId :: j in s.jobOf <==> j < s.actor.nextJob)
    && (forall i, j :: i in s.jobOf && j in s.jobOf && s.jobOf[i] == s.jobOf[j] ==> i == j)
    && s.actor.pending <= s.jobOf.Keys && s.actor.inFlight <= s.jobOf.Keys
    && s.actor.waiters.Keys <= s.jobOf.Keys && s.actor.jobTokens.Keys <= s.jobOf.Keys
    && s.granted <= s.jobOf.Keys && s.superseded <= s.jobOf.Keys
    && s.actor.tokenStates == s.actor.pendingTokens.Keys
    && (forall t :: t in s.actor.pendingTokens ==>
         s.actor.pendingTokens[t] in s.actor.jobTokens && s.actor.jobTokens[s.actor.pendingTokens[t]] == t)
    && (forall j :: j in Remaining(s.pc) ==> j in s.jobOf)
  }

  ghost predicate PcOk(s: Sys) {
    match s.pc
    case Accepted(t) => t < |s.clients| && t !in s.ingress && HasNoJob(s, t)
      && Owned(s.clients[t], s.actor.nextJob, Cancel(t) in s.queue)
    case Refusing(t, _) => t < |s.clients| && t !in s.ingress && HasNoJob(s, t)
    case Superseding(t, j, prior) =>
      JobIs(s, j, t) && j in s.actor.pending && j !in s.actor.jobTokens && prior in s.actor.jobTokens
        && prior in s.actor.waiters && prior != j
    case Forgetting(t, j, prior) =>
      JobIs(s, j, t) && j in s.actor.pending && j !in s.actor.jobTokens && prior in s.actor.jobTokens && prior != j
    case Replying(t, j) => JobIs(s, j, t) && j in s.actor.pending && j in s.actor.jobTokens
    case Stopped => s.ingress == [] && s.actor.waiters == map[]
    case _ => true
  }

  ghost predicate IngressOk(s: Sys) {
    && |s.ingress| <= s.capacity
    && (forall i :: 0 <= i < |s.ingress| ==> s.ingress[i] < |s.clients|)
    && (forall i, k :: 0 <= i < k < |s.ingress| ==> s.ingress[i] != s.ingress[k])
    && (forall i, k :: 0 <= i < k < |Remaining(s.pc)| ==> Remaining(s.pc)[i] != Remaining(s.pc)[k])
  }

  predicate Repeatable(c: Command) {
    c.Shutdown? || c.Other?
  }

  ghost predicate LogOk(s: Sys) {
    && (forall c :: c in s.queue ==> c in s.log)
    && (forall i, k :: 0 <= i < k < |s.log| && s.log[i] == s.log[k] ==> Repeatable(s.log[i]))
    && (forall j: JobId, t: Token :: Complete(j, t) in s.log ==> JobIs(s, j, t) && j in s.granted)
    && (forall j: JobId :: Start(j) in s.log ==> j in s.granted)
    && (forall t: Token :: Cancel(t) in s.log ==> t < |s.clients|)
    && (forall i, k :: 0 <= i < |s.log| && 0 <= k < |s.log| ==>
         s.log[i].Complete? && s.log[k].Start? && s.log[i].job == s.log[k].job ==> k < i)
  }

  /** Each acquire resolves at most once, with what happened to its job. */
  ghost predicate ResultsOk(s: Sys) {
    && (forall i :: 0 <= i < |s.results| ==> ResultOk(s, s.results[i]))
    && (forall i, k :: 0 <= i < k < |s.results| ==> s.results[i].token != s.results[k].token)
  }

  ghost predicate ResultOk(s: Sys, r: Resolution) {
    && r.token < |s.clients|
    && !s.clients[r.token].pc.Enqueuing? && !s.clients[r.token].pc.Waiting?
    && (r.outcome.GotPermit? ==> JobIs(s, r.outcome.job, r.token) && r.outcome.job in s.granted)
    && (r.outcome.GotSuperseded? ==> JobIs(s, r.outcome.job, r.token) && r.outcome.job in s.superseded)
  }

  /** The loop: what is still owed heads the channel, and a pass has run since the last handled command. */
  ghost predicate LoopOk(s: Sys) {
    && s.owed <= s.queue
    && match s.pc
       case Draining(n) => n + |s.owed| <= LIFECYCLE_DRAIN_BATCH
       case Delivering(_) => s.owed == [] && !s.dirty
       case Parked => s.owed == [] && !s.dirty
       case _ => |s.owed| <= LIFECYCLE_DRAIN_BATCH
  }

  ghost predicate TokensOk(s: Sys) {
    forall t: Token :: t < |s.clients| ==> TokenOk(s, t)
  }

  ghost predicate JobsOk(s: Sys) {
    forall j :: j in s.jobOf ==> JobOk(s, j)
  }

  ghost predicate Inv(s: Sys) {
    IndexesOk(s) && PcOk(s) && IngressOk(s) && TokensOk(s) && JobsOk(s) && LogOk(s) && ResultsOk(s) && LoopOk(s)
  }

  lemma InitialOk(capacity: pos)
    ensures Inv(Initial(capacity))
  {
  }
}
