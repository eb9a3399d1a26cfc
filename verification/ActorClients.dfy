/** What one step of a client can do, seen from its own record alone. */
module ActorClients {
  import opened Basics
  import opened ActorModel
  import opened ActorProtocol
  import opened ActorInvariant

  /** Messages are only consumed or thrown away on the client's side. */
  predicate OnlyReads<T(==)>(before: Oneshot<T>, after: Oneshot<T>) {
    || after == before
    || (ReceiverAlive(before) && after.ReceiverGone?)
    || ((before.Sent? || before.SenderGone?) && after.Received?)
  }

  /** A permit is never made here; it disappears exactly with its completion. */
  predicate PermitSteps(c: Client, t: Token, f: Effect) {
    && (PermitOf(f.client).Some? ==> PermitOf(f.client) == PermitOf(c) && (NotStarted(f.client) ==> NotStarted(c)))
    && (PermitOf(c).Some? && PermitOf(f.client).None? ==> f.command == Some(Complete(PermitOf(c).value, t)))
    && (f.command.Some? ==>
         match f.command.value
         case Complete(j, u) => u == t && PermitOf(c) == Some(j) && PermitOf(f.client).None?
         case Start(j) => PermitOf(c) == Some(j) == PermitOf(f.client) && NotStarted(c) && !NotStarted(f.client)
         case Cancel(u) => u == t && c.pc.CancelSending? && Late(f.client.pc)
         case _ => false)
  }

  predicate OutcomeSteps(c: Client, f: Effect) {
    && (f.client.pc.Enqueuing? || f.client.pc.Waiting? ==> f.outcome.None? && (c.pc.Enqueuing? || c.pc.Waiting?))
    && (f.outcome.Some? ==>
         && (c.pc.Enqueuing? || c.pc.Waiting?)
         && match f.outcome.value
            case GotPermit(j) => PermitOf(c) == Some(j)
            case GotSuperseded(j) => c.granted == Sent(Superseded(j))
            case _ => true)
  }

  predicate TakeOk(c: Client, t: Token, f: Effect) {
    && ShapeOk(f.client)
    && f.client.sent == c.sent
    && OnlyReads(c.reply, f.client.reply) && OnlyReads(c.granted, f.client.granted)
    && PermitSteps(c, t, f)
    && OutcomeSteps(c, f)
    && (Late(c.pc) ==> Late(f.client.pc))
    && (f.client.pc.Waiting? ==> c.pc == f.client.pc || c.reply == Sent(Admitted(f.client.pc.job)))
    && (f.client.shared == c.shared
        || (f.client.shared.TokenCancelled? && (c.shared.TokenPending? || c.shared.TokenAccepted?))
        || (f.client.shared.TokenTerminal? && PermitOf(c).Some?))
    && (c.sent && c.pc.Enqueuing? && c.reply.Open? ==> !f.client.shared.TokenPending?)
  }

  lemma TakeFacts(c: Client, t: Token, step: ClientStep)
    requires ShapeOk(c) && CanTake(c, step)
    ensures TakeOk(c, t, Take(c, t, step))
  {
  }

  /** Whoever answers for a pending job goes on doing so, if need be by the `Cancel` it has just sent. */
  lemma OwnerPersists(c: Client, t: Token, step: ClientStep, j: JobId, queued: bool)
    requires ShapeOk(c) && c.sent && PermitOf(c).None? && CanTake(c, step) && Owned(c, j, queued)
    ensures
      var f := Take(c, t, step);
      Owned(f.client, j, queued || f.command == Some(Cancel(t)))
        && (f.client.shared.TokenAccepted? || f.client.shared.TokenCancelled?)
  {
  }
}
