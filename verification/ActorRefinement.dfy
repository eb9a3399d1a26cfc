/**
 The object and the protocol agree: each method of `QueueActor` does in one go what the corresponding
 steps of the protocol do when nobody interrupts them, to the indexes and to shared memory alike.
 */
module ActorRefinement {
  import opened Basics
  import opened ActorModel
  import opened ActorProtocol
  import opened ActorFrames
  import opened OutboundActor
  import ActorInvariant
  import ActorTheorems

  function Perform(clients: seq<Client>, w: Write): seq<Client> {
    match w
    case StoreTerminalTo(token) => StoreTerminal(clients, {token})
    case SendGrantTo(token, message) => SendGrant(clients, token, message)
    case SendReplyTo(token, reply) => SendReply(clients, token, reply)
    case CloseGrantOf(token) => DropGrantSenders(clients, {token})
  }

  function PerformAll(clients: seq<Client>, writes: seq<Write>): seq<Client>
    decreases |writes|
  {
    if writes == [] then clients else PerformAll(Perform(clients, writes[0]), writes[1..])
  }

  lemma {:induction false} PerformTwice(clients: seq<Client>, first: seq<Write>, second: seq<Write>)
    ensures PerformAll(clients, first + second) == PerformAll(PerformAll(clients, first), second)
    decreases |first|
  {
    if first == [] {
      assert first + second == second;
    } else {
      assert (first + second)[1..] == first[1..] + second;
      PerformTwice(Perform(clients, first[0]), first[1..], second);
    }
  }

  lemma TerminalPerformed(clients: seq<Client>, token: Option<Token>)
    ensures PerformAll(clients, TerminalWrite(token)) == StoreTerminal(clients, OptionSet(token))
  {
    StoreNothing(clients);
  }

  lemma RunStep(s: Sys, e: Event, rest: seq<Event>)
    requires Enabled(s, e) && IsRun(Next(s, e), rest)
    ensures IsRun(s, [e] + rest) && After(s, [e] + rest) == After(Next(s, e), rest)
  {
    assert ([e] + rest)[1..] == rest;
  }

  lemma RunOne(s: Sys, e: Event)
    requires Enabled(s, e)
    ensures IsRun(s, [e]) && After(s, [e]) == Next(s, e)
  {
    assert [e] == [e] + [];
    RunStep(s, e, []);
  }

  /** `n` events of one kind. */
  function Repeat(e: Event, n: nat): seq<Event> {
    if n == 0 then [] else [e] + Repeat(e, n - 1)
  }

  lemma RunRepeat(s: Sys, e: Event, n: nat)
    requires Enabled(s, e) && IsRun(Next(s, e), Repeat(e, n))
    ensures IsRun(s, Repeat(e, n + 1)) && After(s, Repeat(e, n + 1)) == After(Next(s, e), Repeat(e, n))
  {
    RunStep(s, e, Repeat(e, n));
  }

  // --- enqueue ---

  /** An enqueue that nobody interrupts. */
  function EnqueueEvents(accepted: bool, admission: Admission): seq<Event> {
    [TakeEnqueue] + if accepted then AdmissionEvents(admission) else [RefuseStep]
  }

  function AdmissionEvents(admission: Admission): seq<Event> {
    [AdmitStep(admission)] + if admission.Deny? then [RefuseStep] else ScheduleEvents(admission.prior)
  }

  function ScheduleEvents(prior: Option<JobId>): seq<Event> {
    if prior.Some? then [SupersedeStep] + ([ForgetStep] + [ReplyStep]) else [ReplyStep]
  }

  /** The ingress head after its acceptance compare-and-swap. */
  function Taken(s: Sys, accepted: bool): seq<Client>
    requires s.ingress != [] && s.ingress[0] < |s.clients|
  {
    var t := s.ingress[0];
    if accepted then s.clients[t := s.clients[t].(shared := TokenAccepted)] else s.clients
  }

  lemma RefuseRefines(s: Sys)
    requires s.pc.Refusing?
    ensures Next(s, RefuseStep).actor == s.actor
    ensures Next(s, RefuseStep).clients
      == PerformAll(s.clients, [SendReplyTo(s.pc.token, Denied(s.pc.error))] + [CloseGrantOf(s.pc.token)])
  {
    PerformTwice(s.clients, [SendReplyTo(s.pc.token, Denied(s.pc.error))], [CloseGrantOf(s.pc.token)]);
  }

  lemma RefusalPerformed(clients: seq<Client>, t: Token, error: QueueError)
    ensures PerformAll(clients, RefusalWrites(t, error))
      == PerformAll(StoreTerminal(clients, {t}), [SendReplyTo(t, Denied(error))] + [CloseGrantOf(t)])
  {
    assert RefusalWrites(t, error)[1..] == [SendReplyTo(t, Denied(error))] + [CloseGrantOf(t)];
  }

  lemma ReplyRefines(s: Sys)
    requires s.pc.Replying? && s.pc.token < |s.clients|
    ensures
      var t, job, open := s.pc.token, s.pc.job, s.clients[s.pc.token].reply.Open?;
      && Next(s, ReplyStep).actor == Answered(s.actor, t, job, open)
      && Next(s, ReplyStep).clients == PerformAll(s.clients, AnswerWrites(s.actor, t, job, open))
  {
    var t, job, open := s.pc.token, s.pc.job, s.clients[s.pc.token].reply.Open?;
    var send := SendReplyTo(t, Admitted(job));
    if open {
      assert AnswerWrites(s.actor, t, job, open) == [send];
    } else {
      var ended := TerminalWrite(Forgotten(s.actor, job));
      assert AnswerWrites(s.actor, t, job, open)[1..] == ended + [CloseGrantOf(t)];
      assert Perform(s.clients, send) == s.clients;
      PerformTwice(s.clients, ended, [CloseGrantOf(t)]);
      TerminalPerformed(s.clients, Forgotten(s.actor, job));
    }
  }

  function ToldWrites(a: Actor, prior: JobId): seq<Write> {
    if prior in a.waiters then [SendGrantTo(a.waiters[prior], Superseded(prior))] else []
  }

  lemma SupersedeStepRefines(s: Sys)
    requires s.pc.Superseding?
    ensures
      var s1 := Next(s, SupersedeStep);
      && s1.actor == DropWaiter(s.actor, s.pc.prior)
      && s1.clients == PerformAll(s.clients, ToldWrites(s.actor, s.pc.prior))
      && s1.pc == Forgetting(s.pc.token, s.pc.job, s.pc.prior)
  {
  }

  lemma ForgetStepRefines(s: Sys)
    requires s.pc.Forgetting?
    ensures
      var s1 := Next(s, ForgetStep);
      && s1.actor == MapToken(Forget(s.actor, s.pc.prior), s.pc.token, s.pc.job)
      && s1.clients == PerformAll(s.clients, TerminalWrite(Forgotten(s.actor, s.pc.prior)))
      && s1.pc == Replying(s.pc.token, s.pc.job)
  {
    TerminalPerformed(s.clients, Forgotten(s.actor, s.pc.prior));
  }

  lemma SupersedeRefines(s: Sys)
    requires s.pc.Superseding?
    ensures
      var s2 := Next(Next(s, SupersedeStep), ForgetStep);
      && s2.actor == MapToken(Forget(DropWaiter(s.actor, s.pc.prior), s.pc.prior), s.pc.token, s.pc.job)
      && s2.clients == PerformAll(s.clients, PriorWrites(s.actor, Some(s.pc.prior)))
      && s2.pc == Replying(s.pc.token, s.pc.job)
  {
    SupersedeStepRefines(s);
    ForgetStepRefines(Next(s, SupersedeStep));
    PerformTwice(s.clients, ToldWrites(s.actor, s.pc.prior), TerminalWrite(Forgotten(s.actor, s.pc.prior)));
  }

  /** The writes about the replaced job concern no reply. */
  lemma RepliesUntouched(clients: seq<Client>, a: Actor, prior: JobId, t: Token)
    requires t < |clients|
    ensures
      var after := PerformAll(clients, PriorWrites(a, Some(prior)));
      |after| == |clients| && after[t].reply == clients[t].reply
  {
    PerformTwice(clients, ToldWrites(a, prior), TerminalWrite(Forgotten(a, prior)));
  }

  function Indexed(a: Actor, t: Token, job: JobId, prior: Option<JobId>): Actor {
    if prior.Some? then MapToken(Forget(DropWaiter(a, prior.value), prior.value), t, job) else a
  }

  ghost predicate ScheduleDone(s: Sys, final: Sys, t: Token, job: JobId, prior: Option<JobId>)
    requires t < |s.clients|
  {
    var a, open := Indexed(s.actor, t, job, prior), s.clients[t].reply.Open?;
    && final.actor == Answered(a, t, job, open)
    && final.clients == PerformAll(PerformAll(s.clients, PriorWrites(s.actor, prior)), AnswerWrites(a, t, job, open))
  }

  lemma ReplacementRefines(s: Sys, t: Token, job: JobId, prior: JobId)
    requires t < |s.clients| && s.pc == Superseding(t, job, prior)
    ensures IsRun(s, ScheduleEvents(Some(prior)))
    ensures ScheduleDone(s, After(s, ScheduleEvents(Some(prior))), t, job, Some(prior))
  {
    var s1 := Next(s, SupersedeStep);
    var s2 := Next(s1, ForgetStep);
    SupersedeRefines(s);
    RepliesUntouched(s.clients, s.actor, prior, t);
    ReplyRefines(s2);
    RunOne(s2, ReplyStep);
    RunStep(s1, ForgetStep, [ReplyStep]);
    RunStep(s, SupersedeStep, [ForgetStep] + [ReplyStep]);
  }

  /** The part of an enqueue after the scheduler took the new job. */
  lemma ScheduleRefines(s: Sys, t: Token, job: JobId, prior: Option<JobId>)
    requires t < |s.clients|
    requires s.pc == if prior.Some? then Superseding(t, job, prior.value) else Replying(t, job)
    ensures IsRun(s, ScheduleEvents(prior)) && ScheduleDone(s, After(s, ScheduleEvents(prior)), t, job, prior)
  {
    if prior.None? {
      ReplyRefines(s);
      RunOne(s, ReplyStep);
    } else {
      ReplacementRefines(s, t, job, prior.value);
    }
  }

  lemma AdmissionRefines(s: Sys, admission: Admission)
    requires s.pc.Accepted? && s.pc.token < |s.clients| && CanAdmit(s.actor, admission)
    ensures IsRun(s, AdmissionEvents(admission))
    ensures
      var t, final := s.pc.token, After(s, AdmissionEvents(admission));
      && final.actor == Enqueued(s.actor, t, true, admission, s.clients[t].reply.Open?)
      && final.clients == PerformAll(s.clients, EnqueueWrites(s.actor, t, true, admission, s.clients[t].reply.Open?))
  {
    var t, s1 := s.pc.token, Next(s, AdmitStep(admission));
    if admission.Deny? {
      RefuseRefines(s1);
      RunOne(s1, RefuseStep);
      RefusalPerformed(s.clients, t, admission.error);
      RunStep(s, AdmitStep(admission), [RefuseStep]);
    } else {
      var prior, job, open := admission.prior, s.actor.nextJob, s.clients[t].reply.Open?;
      ScheduleRefines(s1, t, job, prior);
      assert PriorWrites(s1.actor, prior) == PriorWrites(s.actor, prior);
      PerformTwice(s.clients, PriorWrites(s.actor, prior), AnswerWrites(Replaced(s.actor, t, admission), t, job, open));
      RunStep(s, AdmitStep(admission), ScheduleEvents(prior));
    }
  }

  /**
   `HandleEnqueue` is the enqueue of the protocol: run without a break from a wait point, the steps leave
   the indexes the method leaves and do to the clients what its writes do, in the same order.
   */
  lemma EnqueueRefines(s: Sys, admission: Admission)
    requires Enabled(s, TakeEnqueue) && CanAdmit(s.actor, admission)
    ensures
      var t := s.ingress[0];
      var accepted, open := s.clients[t].shared.TokenPending?, s.clients[t].reply.Open?;
      && IsRun(s, EnqueueEvents(accepted, admission))
      && After(s, EnqueueEvents(accepted, admission)).actor == Enqueued(s.actor, t, accepted, admission, open)
      && After(s, EnqueueEvents(accepted, admission)).clients
         == PerformAll(Taken(s, accepted), EnqueueWrites(s.actor, t, accepted, admission, open))
  {
    if s.clients[s.ingress[0]].shared.TokenPending? {
      AcceptedTouches(s);
      AdmissionRefines(Next(s, TakeEnqueue), admission);
      RunStep(s, TakeEnqueue, AdmissionEvents(admission));
    } else {
      LostRefines(s);
    }
  }

  lemma AcceptedTouches(s: Sys)
    requires Enabled(s, TakeEnqueue) && s.clients[s.ingress[0]].shared.TokenPending?
    ensures
      var s1 := Next(s, TakeEnqueue);
      && s1.pc == Accepted(s.ingress[0]) && s1.actor == s.actor && s1.clients == Taken(s, true)
      && |s1.clients| == |s.clients| && s1.clients[s.ingress[0]].reply == s.clients[s.ingress[0]].reply
  {
  }

  /** The acceptance was lost: the command is refused at once. */
  lemma LostRefines(s: Sys)
    requires Enabled(s, TakeEnqueue) && !s.clients[s.ingress[0]].shared.TokenPending?
    ensures IsRun(s, [TakeEnqueue] + [RefuseStep])
    ensures
      var final := After(s, [TakeEnqueue] + [RefuseStep]);
      final.actor == s.actor && final.clients == PerformAll(s.clients, RefusalWrites(s.ingress[0], QueueClosed))
  {
    var t, s1 := s.ingress[0], Next(s, TakeEnqueue);
    RefuseRefines(s1);
    RefusalPerformed(s.clients, t, QueueClosed);
    StoreOne(s.clients, t);
    RunOne(s1, RefuseStep);
    RunStep(s, TakeEnqueue, [RefuseStep]);
  }

  // --- lifecycle commands ---

  /** One command: the protocol touches each client it concerns as the writes of the method do. */
  lemma HandlePerformed(clients: seq<Client>, a: Actor, c: Command)
    ensures PerformAll(clients, HandleWrites(a, c))
      == DropGrantSenders(StoreTerminal(clients, Terminated(a, c)), Abandoned(a, c))
  {
    match c
    case Cancel(token) =>
      if token in a.pendingTokens {
        CancelPerformed(clients, a, a.pendingTokens[token]);
      } else {
        StoreNothing(clients);
        DropNothing(clients);
      }
    case Complete(job, token) =>
      CompletePerformed(clients, a, job, token);
      DropNothing(StoreTerminal(clients, Terminated(a, c)));
    case _ =>
      StoreNothing(clients);
      DropNothing(clients);
  }

  lemma CancelPerformed(clients: seq<Client>, a: Actor, job: JobId)
    ensures
      var ended := OptionSet(Forgotten(a, job));
      var closed := if job in a.waiters then {a.waiters[job]} else {};
      PerformAll(clients, CloseWaiterOf(a, job) + TerminalWrite(Forgotten(a, job)))
      == DropGrantSenders(StoreTerminal(clients, ended), closed)
  {
    var ended := Forgotten(a, job);
    PerformTwice(clients, CloseWaiterOf(a, job), TerminalWrite(ended));
    if job in a.waiters {
      DropsCommute(clients, OptionSet(ended), {a.waiters[job]});
      TerminalPerformed(DropGrantSenders(clients, {a.waiters[job]}), ended);
    } else {
      TerminalPerformed(clients, ended);
      DropNothing(StoreTerminal(clients, OptionSet(ended)));
    }
  }

  /** Ending an atomic and dropping a sender touch different cells. */
  lemma DropsCommute(clients: seq<Client>, ended: set<Token>, closed: set<Token>)
    ensures DropGrantSenders(StoreTerminal(clients, ended), closed)
      == StoreTerminal(DropGrantSenders(clients, closed), ended)
  {
  }

  lemma CompletePerformed(clients: seq<Client>, a: Actor, job: JobId, token: Token)
    ensures PerformAll(clients, [StoreTerminalTo(token)] + TerminalWrite(Forgotten(a, job)))
      == StoreTerminal(clients, {token} + OptionSet(Forgotten(a, job)))
  {
    PerformTwice(clients, [StoreTerminalTo(token)], TerminalWrite(Forgotten(a, job)));
    TerminalPerformed(StoreTerminal(clients, {token}), Forgotten(a, job));
    StoresCombine(clients, {token}, OptionSet(Forgotten(a, job)));
  }

  lemma StoresCombine(clients: seq<Client>, first: set<Token>, second: set<Token>)
    ensures StoreTerminal(StoreTerminal(clients, first), second) == StoreTerminal(clients, first + second)
  {
  }

  ghost predicate DrainDone(s: Sys, final: Sys, n: nat)
    requires n <= |s.queue| && s.pc.Draining?
  {
    && final.actor == HandleAll(s.actor, s.queue[..n])
    && final.clients == PerformAll(s.clients, AllWrites(s.actor, s.queue[..n]))
    && final.queue == s.queue[n..]
    && final.ingress == s.ingress
    && final.pc == Draining(s.pc.n + n)
  }

  lemma OneCommand(a: Actor, queue: seq<Command>)
    requires queue != []
    ensures HandleAll(a, queue[..1]) == Handle(a, queue[0]) && AllWrites(a, queue[..1]) == HandleWrites(a, queue[0])
  {
    assert queue[..1] == [queue[0]];
    assert HandleWrites(a, queue[0]) + [] == HandleWrites(a, queue[0]);
  }

  lemma DrainStepRefines(s: Sys)
    requires Enabled(s, Drain) && !s.queue[0].Shutdown?
    ensures DrainDone(s, Next(s, Drain), 1)
  {
    OneCommand(s.actor, s.queue);
    HandlePerformed(s.clients, s.actor, s.queue[0]);
  }

  lemma DrainFolds(clients: seq<Client>, a: Actor, queue: seq<Command>, n: nat)
    requires 0 < n <= |queue|
    ensures HandleAll(HandleAll(a, queue[..1]), queue[1..][..n - 1]) == HandleAll(a, queue[..n])
    ensures PerformAll(PerformAll(clients, AllWrites(a, queue[..1])),
      AllWrites(HandleAll(a, queue[..1]), queue[1..][..n - 1]))
      == PerformAll(clients, AllWrites(a, queue[..n]))
  {
    var rest := queue[1..][..n - 1];
    OneCommand(a, queue);
    assert queue[..n][1..] == rest && queue[..n][0] == queue[0];
    PerformTwice(clients, HandleWrites(a, queue[0]), AllWrites(Handle(a, queue[0]), rest));
  }

  lemma DrainComposes(s: Sys, s1: Sys, final: Sys, n: nat)
    requires 0 < n <= |s.queue| && s.pc.Draining? && s1.pc.Draining?
    requires DrainDone(s, s1, 1) && n - 1 <= |s1.queue| && DrainDone(s1, final, n - 1)
    ensures DrainDone(s, final, n)
  {
    var rest := s.queue[1..][..n - 1];
    assert s1.queue[..n - 1] == rest;
    DrainFolds(s.clients, s.actor, s.queue, n);
    assert final.actor == HandleAll(s1.actor, rest);
    assert final.clients == PerformAll(s1.clients, AllWrites(s1.actor, rest));
    assert s.queue[n..] == s1.queue[n - 1..];
  }

  /** The bounded drain handles a stretch of commands as `DrainLifecycle` does, to indexes and clients. */
  lemma {:induction false} DrainRefines(s: Sys, n: nat)
    requires s.pc.Draining? && n <= |s.queue| && s.pc.n + n <= LIFECYCLE_DRAIN_BATCH
    requires forall k :: 0 <= k < n ==> !s.queue[k].Shutdown?
    ensures IsRun(s, Repeat(Drain, n)) && DrainDone(s, After(s, Repeat(Drain, n)), n)
    decreases n
  {
    if n == 0 {
      assert s.queue[..0] == [];
    } else {
      var s1 := Next(s, Drain);
      DrainStepRefines(s);
      DrainRefines(s1, n - 1);
      RunRepeat(s, Drain, n - 1);
      DrainComposes(s, s1, After(s1, Repeat(Drain, n - 1)), n);
    }
  }

  // --- shutdown ---

  function CloseEvents(order: seq<JobId>): seq<Event> {
    if order == [] then [Stop] else [CloseWaiter(order[0])] + CloseEvents(order[1..])
  }

  ghost predicate ShutdownDone(s: Sys, final: Sys, order: seq<JobId>)
    requires IsOrder(s.actor.waiters, order)
  {
    && final.actor == s.actor.(waiters := map[])
    && final.clients == DropCommands(PerformAll(s.clients, CloseWrites(s.actor.waiters, order)), s.ingress)
    && final.pc.Stopped?
  }

  lemma OrderTail(waiters: map<JobId, Token>, order: seq<JobId>)
    requires IsOrder(waiters, order) && order != []
    ensures order[0] in waiters && IsOrder(waiters - {order[0]}, order[1..])
    ensures CloseWrites(waiters, order)
      == [SendGrantTo(waiters[order[0]], Closed)] + CloseWrites(waiters - {order[0]}, order[1..])
  {
    assert order[0] in order;
    forall j ensures j in order[1..] <==> j in waiters && j != order[0] {
      if j in waiters && j != order[0] {
        assert j in order;
      }
    }
  }

  lemma CloseComposes(s: Sys, final: Sys, order: seq<JobId>)
    requires s.pc.Stopping? && IsOrder(s.actor.waiters, order) && order != [] && order[0] in s.actor.waiters
    requires IsOrder(Next(s, CloseWaiter(order[0])).actor.waiters, order[1..])
    requires ShutdownDone(Next(s, CloseWaiter(order[0])), final, order[1..])
    ensures ShutdownDone(s, final, order)
  {
    OrderTail(s.actor.waiters, order);
  }

  /** `ShutdownWaiters` closes the waiters as the protocol does, in any order, and then the actor is gone. */
  lemma {:induction false} ShutdownRefines(s: Sys, order: seq<JobId>)
    requires s.pc.Stopping? && IsOrder(s.actor.waiters, order)
    ensures IsRun(s, CloseEvents(order)) && ShutdownDone(s, After(s, CloseEvents(order)), order)
    decreases |order|
  {
    if order == [] {
      assert s.actor.waiters == map[];
      RunOne(s, Stop);
    } else {
      var e := CloseWaiter(order[0]);
      OrderTail(s.actor.waiters, order);
      ShutdownRefines(Next(s, e), order[1..]);
      RunStep(s, e, CloseEvents(order[1..]));
      CloseComposes(s, After(s, CloseEvents(order)), order);
    }
  }

  lemma ShutdownHead(s: Sys)
    requires Enabled(s, Drain) && s.queue[0].Shutdown?
    ensures Next(s, Drain).pc.Stopping? && Next(s, Drain).actor == s.actor
    ensures Next(s, Drain).clients == s.clients && Next(s, Drain).ingress == s.ingress
  {
  }

  /** A shutdown inside the drain: the commands before it are handled, then every waiter is closed. */
  lemma DrainToShutdownRefines(s: Sys, n: nat, order: seq<JobId>)
    requires s.pc.Draining? && n < |s.queue| && s.pc.n + n < LIFECYCLE_DRAIN_BATCH && s.queue[n].Shutdown?
    requires forall k :: 0 <= k < n ==> !s.queue[k].Shutdown?
    requires IsOrder(HandleAll(s.actor, s.queue[..n]).waiters, order)
    ensures IsRun(s, Repeat(Drain, n) + ([Drain] + CloseEvents(order)))
    ensures
      var a, final := HandleAll(s.actor, s.queue[..n]), After(s, Repeat(Drain, n) + ([Drain] + CloseEvents(order)));
      && final.pc.Stopped? && final.actor == a.(waiters := map[])
      && final.clients
         == DropCommands(PerformAll(s.clients, AllWrites(s.actor, s.queue[..n]) + CloseWrites(a.waiters, order)),
           s.ingress)
  {
    DrainRefines(s, n);
    var s1 := After(s, Repeat(Drain, n));
    ShutdownHead(s1);
    ShutdownRefines(Next(s1, Drain), order);
    RunStep(s1, Drain, CloseEvents(order));
    ActorTheorems.RunJoin(s, Repeat(Drain, n), [Drain] + CloseEvents(order));
    PerformTwice(s.clients, AllWrites(s.actor, s.queue[..n]), CloseWrites(s1.actor.waiters, order));
  }

  // --- grants ---

  /** The tokens whose grant channel still takes a message. */
  ghost predicate AreReceivers(clients: seq<Client>, receivers: set<Token>) {
    forall t: Token :: t in receivers <==> t < |clients| && clients[t].granted.Open?
  }

  ghost predicate OneWaiterPerToken(a: Actor) {
    forall i, j :: i in a.waiters && j in a.waiters && a.waiters[i] == a.waiters[j] ==> i == j
  }

  lemma ReachableWaiters(s: Sys)
    requires ActorTheorems.Reachable(s)
    ensures OneWaiterPerToken(s.actor)
  {
    ActorTheorems.ReachableOk(s);
    forall j | j in s.actor.waiters ensures s.actor.waiters[j] == s.jobOf[j] {
      assert ActorInvariant.JobOk(s, j);
    }
  }

  /** Only the receivers of the jobs at hand matter. */
  lemma {:induction false} ReceiversMatter(a: Actor, grants: seq<JobId>, r1: set<Token>, r2: set<Token>)
    requires forall j :: j in grants && j in a.waiters ==> (a.waiters[j] in r1 <==> a.waiters[j] in r2)
    ensures Permits(a, grants, r1) == Permits(a, grants, r2) && Returned(a, grants, r1) == Returned(a, grants, r2)
    decreases |grants|
  {
    if grants != [] {
      assert grants[0] in grants;
      ReceiversMatter(Delivered(a, grants[0]), grants[1..], r1, r2);
    }
  }

  ghost predicate OneDelivered(s: Sys, s1: Sys, j: JobId, receivers: set<Token>) {
    && s1.actor == Delivered(s.actor, j)
    && s1.clients == PerformAll(s.clients, PermitFor(s.actor, j, receivers))
    && s1.queue == s.queue + ReturnFor(s.actor, j, receivers)
  }

  lemma DeliverStepRefines(s: Sys, receivers: set<Token>)
    requires Enabled(s, Deliver) && AreReceivers(s.clients, receivers)
    ensures OneDelivered(s, Next(s, Deliver), s.pc.grants[0], receivers)
    ensures Next(s, Deliver).pc == Delivering(s.pc.grants[1..])
  {
  }

  /** A delivery uses up its own receiver and no other. */
  lemma ReceiversAfter(clients: seq<Client>, a: Actor, j: JobId, receivers: set<Token>) returns (left: set<Token>)
    requires AreReceivers(clients, receivers) && OneWaiterPerToken(a)
    ensures AreReceivers(PerformAll(clients, PermitFor(a, j, receivers)), left)
    ensures forall k :: k in a.waiters && k != j ==> (a.waiters[k] in left <==> a.waiters[k] in receivers)
  {
    if PermitFor(a, j, receivers) == [] {
      left := receivers;
    } else {
      left := receivers - {a.waiters[j]};
    }
  }

  /** What delivering the first grant and then the others comes to. */
  ghost predicate Folds(clients: seq<Client>, a: Actor, a1: Actor, grants: seq<JobId>, receivers: set<Token>,
          left: set<Token>)
    requires grants != []
  {
    && PerformAll(PerformAll(clients, PermitFor(a, grants[0], receivers)), Permits(a1, grants[1..], left))
       == PerformAll(clients, Permits(a, grants, receivers))
    && ReturnFor(a, grants[0], receivers) + Returned(a1, grants[1..], left) == Returned(a, grants, receivers)
    && DeliverAll(a1, grants[1..]) == DeliverAll(a, grants)
  }

  lemma DeliveryFolds(clients: seq<Client>, a: Actor, grants: seq<JobId>, receivers: set<Token>, left: set<Token>)
    requires grants != [] && grants[0] !in grants[1..]
    requires forall k :: k in a.waiters && k != grants[0] ==> (a.waiters[k] in left <==> a.waiters[k] in receivers)
    ensures Folds(clients, a, Delivered(a, grants[0]), grants, receivers, left)
  {
    var a1 := Delivered(a, grants[0]);
    ReceiversMatter(a1, grants[1..], left, receivers);
    PerformTwice(clients, PermitFor(a, grants[0], receivers), Permits(a1, grants[1..], receivers));
  }

  lemma AppendTwice<T>(a: seq<T>, b: seq<T>, c: seq<T>)
    ensures a + b + c == a + (b + c)
  {
  }

  ghost predicate DeliveryDone(s: Sys, final: Sys, grants: seq<JobId>, receivers: set<Token>) {
    && final.actor == DeliverAll(s.actor, grants)
    && final.clients == PerformAll(s.clients, Permits(s.actor, grants, receivers))
    && final.queue == s.queue + Returned(s.actor, grants, receivers)
    && final.pc == Delivering([])
  }

  lemma DeliveryComposes(s: Sys, s1: Sys, final: Sys, grants: seq<JobId>, receivers: set<Token>, left: set<Token>)
    requires grants != [] && OneDelivered(s, s1, grants[0], receivers) && DeliveryDone(s1, final, grants[1..], left)
    requires Folds(s.clients, s.actor, s1.actor, grants, receivers, left)
    ensures DeliveryDone(s, final, grants, receivers)
  {
    AppendTwice(s.queue, ReturnFor(s.actor, grants[0], receivers), Returned(s1.actor, grants[1..], left));
  }

  lemma {:induction false} DeliverInOneGo(s: Sys, receivers: set<Token>)
    requires s.pc.Delivering? && AreReceivers(s.clients, receivers) && OneWaiterPerToken(s.actor)
    requires forall i, k :: 0 <= i < k < |s.pc.grants| ==> s.pc.grants[i] != s.pc.grants[k]
    ensures IsRun(s, Repeat(Deliver, |s.pc.grants|))
    ensures DeliveryDone(s, After(s, Repeat(Deliver, |s.pc.grants|)), s.pc.grants, receivers)
    decreases |s.pc.grants|
  {
    var grants := s.pc.grants;
    if grants != [] {
      var s1 := Next(s, Deliver);
      var left := ReceiversAfter(s.clients, s.actor, grants[0], receivers);
      DeliverStepRefines(s, receivers);
      DeliverInOneGo(s1, left);
      RunRepeat(s, Deliver, |grants| - 1);
      assert grants[0] !in grants[1..];
      DeliveryFolds(s.clients, s.actor, grants, receivers, left);
      DeliveryComposes(s, s1, After(s1, Repeat(Deliver, |grants| - 1)), grants, receivers, left);
    }
  }

  lemma GrantsAreDistinct(s: Sys)
    requires ActorTheorems.Reachable(s) && s.pc.Delivering?
    ensures forall i, k :: 0 <= i < k < |s.pc.grants| ==> s.pc.grants[i] != s.pc.grants[k]
  {
    ActorTheorems.ReachableOk(s);
    assert ActorInvariant.Remaining(s.pc) == s.pc.grants;
  }

  /**
   Delivering one by one with clients dropping out at will, or in one go as `DeliverGrants` does: when
   nobody interrupts, the same waiters get permits and the same completions come back.
   */
  lemma DeliveryRefines(s: Sys, receivers: set<Token>)
    requires ActorTheorems.Reachable(s) && s.pc.Delivering? && AreReceivers(s.clients, receivers)
    ensures IsRun(s, Repeat(Deliver, |s.pc.grants|))
    ensures DeliveryDone(s, After(s, Repeat(Deliver, |s.pc.grants|)), s.pc.grants, receivers)
  {
    ReachableWaiters(s);
    GrantsAreDistinct(s);
    DeliverInOneGo(s, receivers);
  }

  lemma PassTouches(s: Sys, grants: seq<JobId>)
    requires Enabled(s, Pass(grants))
    ensures Next(s, Pass(grants)).actor == GrantReady(s.actor, grants) && Next(s, Pass(grants)).pc == Delivering(grants)
    ensures Next(s, Pass(grants)).clients == s.clients && Next(s, Pass(grants)).queue == s.queue
    ensures Grantable(s.actor, grants)
  {
  }

  lemma ParkTouches(s: Sys)
    requires s.pc == Delivering([])
    ensures Enabled(s, Park) && Next(s, Park) == s.(pc := Parked)
  {
  }

  function AdmissionPass(grants: seq<JobId>): seq<Event> {
    [Pass(grants)] + (Repeat(Deliver, |grants|) + [Park])
  }

  /** `RunAdmission` is the pass, every delivery and the way to the wait point. */
  lemma AdmissionPassRefines(s: Sys, grants: seq<JobId>, receivers: set<Token>)
    requires ActorTheorems.Reachable(s) && Enabled(s, Pass(grants)) && AreReceivers(s.clients, receivers)
    ensures IsRun(s, AdmissionPass(grants))
    ensures
      var a, final := GrantReady(s.actor, grants), After(s, AdmissionPass(grants));
      && final.pc.Parked?
      && final.actor == DeliverAll(a, grants)
      && final.clients == PerformAll(s.clients, Permits(a, grants, receivers))
      && final.queue == s.queue + Returned(a, grants, receivers)
  {
    ReachableWaiters(s);
    PassTouches(s, grants);
    var s1 := Next(s, Pass(grants));
    DeliverInOneGo(s1, receivers);
    var s2 := After(s1, Repeat(Deliver, |grants|));
    ParkTouches(s2);
    RunOne(s2, Park);
    ActorTheorems.RunJoin(s1, Repeat(Deliver, |grants|), [Park]);
    RunStep(s, Pass(grants), Repeat(Deliver, |grants|) + [Park]);
  }
}
