/** What a token, a job or the history does not notice: the invariant carries over where nothing was touched. */
module ActorFrames {
  import opened Basics
  import opened ActorModel
  import opened ActorProtocol
  import opened ActorInvariant

  // --- jobs ---

  /** The actor's position says the same about the job. */
  predicate SameFlags(before: ActorPc, after: ActorPc, j: JobId) {
    && BusyJob(after, j) == BusyJob(before, j)
    && PriorJob(after, j) == PriorJob(before, j)
    && Unmapped(after, j) == Unmapped(before, j)
    && ((after.Superseding? && after.prior == j) == (before.Superseding? && before.prior == j))
    && (Ending(before) ==> Ending(after))
    && (j in Remaining(after) <==> j in Remaining(before))
  }

  /** The scheduler and the indexes say the same about the job and its token. */
  predicate SameIndexes(a: Actor, b: Actor, j: JobId, t: Token) {
    && (j in b.pending <==> j in a.pending)
    && (j in b.inFlight <==> j in a.inFlight)
    && (j in b.waiters <==> j in a.waiters) && (j in a.waiters ==> b.waiters[j] == a.waiters[j])
    && (j in b.jobTokens <==> j in a.jobTokens) && (j in a.jobTokens ==> b.jobTokens[j] == a.jobTokens[j])
    && (t in a.pendingTokens && a.pendingTokens[t] == j ==> t in b.pendingTokens && b.pendingTokens[t] == j)
    && (t in a.tokenStates ==> t in b.tokenStates)
  }

  /** The commands about the job are still queued if they were, and no new one was issued. */
  predicate SameCommands(s: Sys, s': Sys, j: JobId, t: Token) {
    && (Cancel(t) in s.queue ==> Cancel(t) in s'.queue)
    && (Complete(j, t) in s.queue ==> Complete(j, t) in s'.queue)
    && (Complete(j, t) in s'.log <==> Complete(j, t) in s.log)
    && (Start(j) in s'.log ==> Start(j) in s.log)
  }

  predicate SameFate(s: Sys, s': Sys, j: JobId) {
    (j in s'.granted <==> j in s.granted) && (j in s'.superseded ==> j in s.superseded)
  }

  predicate SameOwner(s: Sys, s': Sys, j: JobId)
    requires j in s.jobOf && s.jobOf[j] < |s.clients|
  {
    var t := s.jobOf[j];
    && j in s'.jobOf && s'.jobOf[j] == t
    && t < |s'.clients| && s'.clients[t] == s.clients[t]
    && (t in s'.ingress ==> t in s.ingress)
  }

  predicate SameJob(s: Sys, s': Sys, j: JobId)
    requires j in s.jobOf && s.jobOf[j] < |s.clients|
  {
    && SameOwner(s, s', j)
    && SameFlags(s.pc, s'.pc, j)
    && SameIndexes(s.actor, s'.actor, j, s.jobOf[j])
    && SameCommands(s, s', j, s.jobOf[j])
    && SameFate(s, s', j)
  }

  lemma JobFrame(s: Sys, s': Sys, j: JobId)
    requires j in s.jobOf && JobOk(s, j) && SameJob(s, s', j)
    ensures JobOk(s', j)
  {
  }

  // --- tokens ---

  /** Whoever had a job still has it, and nobody got one. */
  ghost predicate SameJobs(s: Sys, s': Sys, u: Token) {
    && (forall j :: JobIs(s, j, u) ==> JobIs(s', j, u))
    && (HasNoJob(s, u) ==> HasNoJob(s', u))
    && s.superseded <= s'.superseded
  }

  ghost predicate HasWaiter(a: Actor, u: Token) {
    exists j :: j in a.waiters && a.waiters[j] == u
  }

  predicate SamePermit(s: Sys, s': Sys, c: Client, u: Token) {
    PermitOf(c).Some? ==>
      var j := PermitOf(c).value;
      && (j in s.actor.inFlight ==> j in s'.actor.inFlight)
      && (Complete(j, u) in s'.log ==> Complete(j, u) in s.log)
      && (j in Remaining(s'.pc) ==> j in Remaining(s.pc))
      && (Start(j) in s'.log ==> Start(j) in s.log)
  }

  ghost predicate SameToken(s: Sys, s': Sys, u: Token)
    requires u < |s.clients|
  {
    && u < |s'.clients| && s'.clients[u] == s.clients[u]
    && (u in s'.ingress <==> u in s.ingress)
    && Busy(s'.pc, u) == Busy(s.pc, u)
    && SameJobs(s, s', u)
    && (s.clients[u].granted.Open? && HasWaiter(s.actor, u) ==> HasWaiter(s'.actor, u))
    && SamePermit(s, s', s.clients[u], u)
    && (Cancel(u) in s'.log ==> Cancel(u) in s.log)
  }

  lemma TokenFrame(s: Sys, s': Sys, u: Token)
    requires u < |s.clients| && TokenOk(s, u) && SameToken(s, s', u)
    ensures TokenOk(s', u)
  {
  }

  // --- history ---

  /** The log and the results stand, clients keep their place, and jobs keep what became of them. */
  ghost predicate SameHistory(s: Sys, s': Sys) {
    && s'.log == s.log && s'.results == s.results
    && |s.clients| <= |s'.clients|
    && (forall u: Token :: u < |s.clients| ==> s'.clients[u].pc == s.clients[u].pc)
    && (forall j :: j in s.jobOf ==> j in s'.jobOf && s'.jobOf[j] == s.jobOf[j])
    && s.granted <= s'.granted && s.superseded <= s'.superseded
  }

  lemma LogFrame(s: Sys, s': Sys)
    requires LogOk(s) && SameHistory(s, s')
    requires forall c :: c in s'.queue ==> c in s.queue
    ensures LogOk(s')
  {
  }

  lemma ResultsFrame(s: Sys, s': Sys)
    requires ResultsOk(s) && SameHistory(s, s')
    ensures ResultsOk(s')
  {
    forall i | 0 <= i < |s'.results| ensures ResultOk(s', s'.results[i]) {
      assert ResultOk(s, s.results[i]);
    }
  }

  // --- writes that touch nothing, or one client ---

  lemma StoreNothing(clients: seq<Client>)
    ensures StoreTerminal(clients, {}) == clients
  {
  }

  lemma DropNothing(clients: seq<Client>)
    ensures DropGrantSenders(clients, {}) == clients
  {
  }

  lemma StoreOne(clients: seq<Client>, t: Token)
    requires t < |clients|
    ensures StoreTerminal(clients, {t}) == clients[t := clients[t].(shared := TokenTerminal)]
  {
  }
}
