/**
 The actor as an object whose methods update its indexes in place. Each method is proved against the
 functions of `ActorModel`; outcomes that the environment decides (compare-and-swap, whether a receiver
 is still there, what the scheduler answers) are parameters, writes to shared memory are results.
 */
module OutboundActor {
  import opened Basics
  import opened ActorModel
  import opened ActorProtocol

  /** One write to shared memory, in the order the actor makes them. */
  datatype Write =
    | StoreTerminalTo(token: Token)
    | SendGrantTo(token: Token, message: Message)
    | SendReplyTo(token: Token, reply: Reply)
    | CloseGrantOf(token: Token)

  // --- the uninterrupted form of an enqueue ---

  function Replaced(a: Actor, token: Token, admission: Admission): Actor
    requires admission.Admit?
  {
    var job, b := a.nextJob, Scheduled(a, admission.prior);
    if admission.prior.Some? then
      MapToken(Forget(DropWaiter(b, admission.prior.value), admission.prior.value), token, job)
    else MapToken(b, token, job)
  }

  function Answered(a: Actor, token: Token, job: JobId, replyOpen: bool): Actor {
    if replyOpen then AddWaiter(a, token, job) else Withdrawn(a, job)
  }

  function AnswerWrites(a: Actor, token: Token, job: JobId, replyOpen: bool): seq<Write> {
    [SendReplyTo(token, Admitted(job))]
    + (if replyOpen then [] else TerminalWrite(Forgotten(a, job)) + [CloseGrantOf(token)])
  }

  /** The unused grant sender is dropped last. */
  function RefusalWrites(token: Token, error: QueueError): seq<Write> {
    [StoreTerminalTo(token), SendReplyTo(token, Denied(error)), CloseGrantOf(token)]
  }

  /** The indexes after one `Enqueue` command. */
  function Enqueued(a: Actor, token: Token, accepted: bool, admission: Admission, replyOpen: bool): Actor {
    if !accepted || admission.Deny? then a else Answered(Replaced(a, token, admission), token, a.nextJob, replyOpen)
  }

  /** What an `Enqueue` command writes, in order. */
  function EnqueueWrites(a: Actor, token: Token, accepted: bool, admission: Admission, replyOpen: bool): seq<Write> {
    if !accepted then RefusalWrites(token, QueueClosed)
    else if admission.Deny? then RefusalWrites(token, admission.error)
    else PriorWrites(a, admission.prior) + AnswerWrites(Replaced(a, token, admission), token, a.nextJob, replyOpen)
  }

  /** What an admission leaves in the scheduler and the waiters, and tells the two callers. */
  lemma AdmissionEffects(a: Actor, token: Token, prior: Option<JobId>, replyOpen: bool)
    ensures
      var b, job := Enqueued(a, token, true, Admit(prior), replyOpen), a.nextJob;
      var writes := EnqueueWrites(a, token, true, Admit(prior), replyOpen);
      && b.nextJob == job + 1 && b.inFlight == a.inFlight
      && b.pending - {job} == (if prior.Some? then a.pending - {prior.value} else a.pending) - {job}
      && (job in b.pending <==> replyOpen) && (replyOpen ==> job in b.waiters && b.waiters[job] == token)
      && SendReplyTo(token, Admitted(job)) in writes
      && (prior.Some? && prior.value in a.waiters ==>
           writes[0] == SendGrantTo(a.waiters[prior.value], Superseded(prior.value)))
  {
  }

  function TerminalWrite(token: Option<Token>): seq<Write> {
    if token.Some? then [StoreTerminalTo(token.value)] else []
  }

  function PriorWrites(a: Actor, prior: Option<JobId>): seq<Write> {
    if prior.None? then []
    else
      (if prior.value in a.waiters then [SendGrantTo(a.waiters[prior.value], Superseded(prior.value))] else [])
      + TerminalWrite(Forgotten(a, prior.value))
  }

  // --- delivering grants ---

  function DeliverAll(a: Actor, grants: seq<JobId>): Actor
    decreases |grants|
  {
    if grants == [] then a else DeliverAll(Delivered(a, grants[0]), grants[1..])
  }

  predicate Reaches(a: Actor, job: JobId, receivers: set<Token>) {
    job in a.waiters && a.waiters[job] in receivers
  }

  function PermitFor(a: Actor, job: JobId, receivers: set<Token>): seq<Write> {
    if CanMint(a, job) && Reaches(a, job, receivers) then [SendGrantTo(a.waiters[job], Granted(job))] else []
  }

  function ReturnFor(a: Actor, job: JobId, receivers: set<Token>): seq<Command> {
    if CanMint(a, job) && !Reaches(a, job, receivers) then [Complete(job, a.jobTokens[job])] else []
  }

  /** The permits that reach an open channel, in grant order. */
  function Permits(a: Actor, grants: seq<JobId>, receivers: set<Token>): seq<Write>
    decreases |grants|
  {
    if grants == [] then []
    else PermitFor(a, grants[0], receivers) + Permits(Delivered(a, grants[0]), grants[1..], receivers)
  }

  /** The completions of permits that found nobody and were dropped. */
  function Returned(a: Actor, grants: seq<JobId>, receivers: set<Token>): seq<Command>
    decreases |grants|
  {
    if grants == [] then []
    else ReturnFor(a, grants[0], receivers) + Returned(Delivered(a, grants[0]), grants[1..], receivers)
  }

  lemma DeliveryUnfolds(a: Actor, grants: seq<JobId>, i: nat, receivers: set<Token>)
    requires i < |grants|
    ensures DeliverAll(a, grants[i..]) == DeliverAll(Delivered(a, grants[i]), grants[i + 1..])
    ensures Permits(a, grants[i..], receivers)
      == PermitFor(a, grants[i], receivers) + Permits(Delivered(a, grants[i]), grants[i + 1..], receivers)
    ensures Returned(a, grants[i..], receivers)
      == ReturnFor(a, grants[i], receivers) + Returned(Delivered(a, grants[i]), grants[i + 1..], receivers)
  {
    assert grants[i..][1..] == grants[i + 1..];
  }

  lemma {:induction false} DeliveryKeepsWaiters(a: Actor, grants: seq<JobId>, job: JobId)
    requires job !in grants
    ensures job in DeliverAll(a, grants).waiters <==> job in a.waiters
    ensures job in a.waiters ==> DeliverAll(a, grants).waiters[job] == a.waiters[job]
    decreases |grants|
  {
    if grants != [] {
      DeliveryKeepsWaiters(Delivered(a, grants[0]), grants[1..], job);
    }
  }

  /** A grant is ready to be delivered: its token and atomic are known, and someone waits for it. */
  predicate Deliverable(a: Actor, job: JobId) {
    job in a.jobTokens && a.jobTokens[job] in a.tokenStates && job in a.waiters
  }

  /** Each deliverable grant ends as a permit with its waiter, if that still listens, or as a completion. */
  lemma {:induction false} EveryGrantIsDelivered(a: Actor, grants: seq<JobId>, receivers: set<Token>, job: JobId)
    requires job in grants && Deliverable(a, job)
    requires forall i, k :: 0 <= i < k < |grants| ==> grants[i] != grants[k]
    requires forall i :: 0 <= i < |grants| ==> Deliverable(a, grants[i])
    ensures
      var permit, back := SendGrantTo(a.waiters[job], Granted(job)), Complete(job, a.jobTokens[job]);
      && (a.waiters[job] in receivers ==> permit in Permits(a, grants, receivers))
      && (a.waiters[job] !in receivers ==> back in Returned(a, grants, receivers))
      && job !in DeliverAll(a, grants).waiters
    decreases |grants|
  {
    var b := Delivered(a, grants[0]);
    if job == grants[0] {
      assert job !in grants[1..];
      DeliveryKeepsWaiters(b, grants[1..], job);
    } else {
      assert job in grants[1..];
      EveryGrantIsDelivered(b, grants[1..], receivers, job);
    }
  }

  // --- lifecycle commands ---

  /** What a command writes, in order: the waiter's sender goes first, the atomics after it. */
  function HandleWrites(a: Actor, c: Command): seq<Write> {
    match c
    case Cancel(token) =>
      if token !in a.pendingTokens then []
      else CloseWaiterOf(a, a.pendingTokens[token]) + TerminalWrite(Forgotten(a, a.pendingTokens[token]))
    case Complete(job, token) => [StoreTerminalTo(token)] + TerminalWrite(Forgotten(a, job))
    case _ => []
  }

  function CloseWaiterOf(a: Actor, job: JobId): seq<Write> {
    if job in a.waiters then [CloseGrantOf(a.waiters[job])] else []
  }

  /** A command by the indexes: what leaves them, and whose atomic and channel end. */
  lemma CommandEffects(a: Actor, c: Command)
    ensures
      var b, writes := Handle(a, c), HandleWrites(a, c);
      && b.nextJob == a.nextJob
      && (c.Cancel? && c.token in a.pendingTokens ==>
           var job := a.pendingTokens[c.token];
           && b.pending == a.pending - {job} && b.waiters == a.waiters - {job} && b.inFlight == a.inFlight
           && c.token !in b.pendingTokens && job !in b.jobTokens
           && (job in a.waiters ==> CloseGrantOf(a.waiters[job]) in writes)
           && (job in a.jobTokens && a.jobTokens[job] in a.tokenStates ==>
                StoreTerminalTo(a.jobTokens[job]) in writes && a.jobTokens[job] !in b.tokenStates))
      && (c.Complete? ==>
           && b.inFlight == a.inFlight - {c.job} && b.pending == a.pending && b.waiters == a.waiters
           && c.job !in b.jobTokens && StoreTerminalTo(c.token) in writes)
      && (c.Start? || c.Shutdown? || c.Other? || (c.Cancel? && c.token !in a.pendingTokens) ==>
           b == a && writes == [])
  {
  }

  function HandleAll(a: Actor, commands: seq<Command>): Actor
    decreases |commands|
  {
    if commands == [] then a else HandleAll(Handle(a, commands[0]), commands[1..])
  }

  function AllWrites(a: Actor, commands: seq<Command>): seq<Write>
    decreases |commands|
  {
    if commands == [] then [] else HandleWrites(a, commands[0]) + AllWrites(Handle(a, commands[0]), commands[1..])
  }

  lemma {:induction false} HandleAllAppend(a: Actor, commands: seq<Command>, c: Command)
    ensures HandleAll(a, commands + [c]) == Handle(HandleAll(a, commands), c)
    ensures AllWrites(a, commands + [c]) == AllWrites(a, commands) + HandleWrites(HandleAll(a, commands), c)
    decreases |commands|
  {
    if commands == [] {
      assert commands + [c] == [c];
    } else {
      assert (commands + [c])[1..] == commands[1..] + [c];
      HandleAllAppend(Handle(a, commands[0]), commands[1..], c);
    }
  }

  // --- shutdown ---

  /** The order in which the waiters are drained: each exactly once. */
  ghost predicate IsOrder(waiters: map<JobId, Token>, order: seq<JobId>) {
    && (forall j :: j in order <==> j in waiters)
    && (forall i, k :: 0 <= i < k < |order| ==> order[i] != order[k])
  }

  function CloseWrites(waiters: map<JobId, Token>, order: seq<JobId>): (writes: seq<Write>)
    requires forall j :: j in order ==> j in waiters
  {
    seq(|order|, i requires 0 <= i < |order| => SendGrantTo(waiters[order[i]], Closed))
  }

  class QueueActor {
    var pending: set<JobId>
    var inFlight: set<JobId>
    var nextJob: JobId
    var waiters: map<JobId, Token>
    var pendingTokens: map<Token, JobId>
    var jobTokens: map<JobId, Token>
    var tokenStates: set<Token>

    ghost function View(): Actor
      reads this
    {
      Actor(pending, inFlight, nextJob, waiters, pendingTokens, jobTokens, tokenStates)
    }

    constructor ()
      ensures View() == IDLE
    {
      pending, inFlight, nextJob := {}, {}, 0;
      waiters, pendingTokens, jobTokens, tokenStates := map[], map[], map[], {};
    }

    method ForgetJob(job: JobId) returns (terminated: Option<Token>)
      modifies this
      ensures View() == Forget(old(View()), job)
      ensures terminated == Forgotten(old(View()), job)
    {
      if job !in jobTokens {
        return None;
      }
      var token := jobTokens[job];
      jobTokens := jobTokens - {job};
      pendingTokens := pendingTokens - {token};
      terminated := if token in tokenStates then Some(token) else None;
      tokenStates := tokenStates - {token};
    }

    /** The new job replaces a pending one. */
    method Supersede(prior: JobId) returns (writes: seq<Write>)
      modifies this
      ensures View() == Forget(DropWaiter(old(View()), prior), prior)
      ensures writes == PriorWrites(old(View()), Some(prior))
    {
      writes := if prior in waiters then [SendGrantTo(waiters[prior], Superseded(prior))] else [];
      waiters := waiters - {prior};
      var replaced := ForgetJob(prior);
      writes := writes + TerminalWrite(replaced);
    }

    /** The answer to the client; a receiver that is gone withdraws the job on the spot. */
    method Answer(token: Token, job: JobId, replyOpen: bool) returns (writes: seq<Write>)
      modifies this
      ensures View() == Answered(old(View()), token, job, replyOpen)
      ensures writes == AnswerWrites(old(View()), token, job, replyOpen)
    {
      writes := [SendReplyTo(token, Admitted(job))];
      if replyOpen {
        waiters := waiters[job := token];
      } else {
        pending := pending - {job};
        var withdrawn := ForgetJob(job);
        writes := writes + (TerminalWrite(withdrawn) + [CloseGrantOf(token)]);
      }
    }

    method HandleEnqueue(token: Token, accepted: bool, admission: Admission, replyOpen: bool)
      returns (writes: seq<Write>)
      requires CanAdmit(View(), admission)
      modifies this
      ensures View() == Enqueued(old(View()), token, accepted, admission, replyOpen)
      ensures writes == EnqueueWrites(old(View()), token, accepted, admission, replyOpen)
      ensures !accepted || admission.Deny? ==>
        && View() == old(View())
        && writes == [StoreTerminalTo(token),
                      SendReplyTo(token, Denied(if accepted then admission.error else QueueClosed)),
                      CloseGrantOf(token)]
    {
      if !accepted {
        return RefusalWrites(token, QueueClosed);
      }
      match admission
      case Deny(error) =>
        writes := RefusalWrites(token, error);
      case Admit(prior) =>
        var job := nextJob;
        pending := (if prior.Some? then pending - {prior.value} else pending) + {job};
        nextJob := nextJob + 1;
        writes := [];
        if prior.Some? {
          writes := Supersede(prior.value);
        }
        pendingTokens := pendingTokens[token := job];
        jobTokens := jobTokens[job := token];
        tokenStates := tokenStates + {token};
        var answer := Answer(token, job, replyOpen);
        writes := writes + answer;
    }

    method HandleCommand(c: Command) returns (writes: seq<Write>)
      modifies this
      ensures View() == Handle(old(View()), c)
      ensures writes == HandleWrites(old(View()), c)
    {
      writes := [];
      match c
      case Cancel(token) =>
        if token in pendingTokens {
          var job := pendingTokens[token];
          pendingTokens := pendingTokens - {token};
          if job in waiters {
            writes := [CloseGrantOf(waiters[job])];
          }
          waiters := waiters - {job};
          pending := pending - {job};
          var forgotten := ForgetJob(job);
          writes := writes + TerminalWrite(forgotten);
        }
      case Complete(job, token) =>
        inFlight := inFlight - {job};
        writes := [StoreTerminalTo(token)];
        var forgotten := ForgetJob(job);
        writes := writes + TerminalWrite(forgotten);
      case _ =>
    }

    method DeliverOne(job: JobId, receivers: set<Token>) returns (permits: seq<Write>, returned: seq<Command>)
      modifies `waiters
      ensures View() == Delivered(old(View()), job)
      ensures permits == PermitFor(old(View()), job, receivers)
      ensures returned == ReturnFor(old(View()), job, receivers)
    {
      permits, returned := [], [];
      if job in jobTokens && jobTokens[job] in tokenStates {
        if job in waiters && waiters[job] in receivers {
          permits := [SendGrantTo(waiters[job], Granted(job))];
        } else {
          returned := [Complete(job, jobTokens[job])];
        }
        waiters := waiters - {job};
      }
    }

    method DeliverGrants(grants: seq<JobId>, receivers: set<Token>)
      returns (permits: seq<Write>, returned: seq<Command>)
      modifies `waiters
      ensures View() == DeliverAll(old(View()), grants)
      ensures permits == Permits(old(View()), grants, receivers)
      ensures returned == Returned(old(View()), grants, receivers)
    {
      permits, returned := [], [];
      ghost var start := View();
      var i := 0;
      while i < |grants|
        invariant i <= |grants|
        invariant DeliverAll(start, grants) == DeliverAll(View(), grants[i..])
        invariant Permits(start, grants, receivers) == permits + Permits(View(), grants[i..], receivers)
        invariant Returned(start, grants, receivers) == returned + Returned(View(), grants[i..], receivers)
      {
        DeliveryUnfolds(View(), grants, i, receivers);
        var sent, back := DeliverOne(grants[i], receivers);
        permits, returned := permits + sent, returned + back;
        i := i + 1;
      }
    }

    /** One admission pass over the scheduler's choice of grants. */
    method RunAdmission(grants: seq<JobId>, receivers: set<Token>) returns (permits: seq<Write>, returned: seq<Command>)
      requires Grantable(View(), grants)
      modifies this
      ensures View() == DeliverAll(GrantReady(old(View()), grants), grants)
      ensures permits == Permits(GrantReady(old(View()), grants), grants, receivers)
      ensures returned == Returned(GrantReady(old(View()), grants), grants, receivers)
      ensures pending == old(pending) - (set j | j in grants) && inFlight == old(inFlight) + (set j | j in grants)
    {
      pending, inFlight := pending - Members(grants), inFlight + Members(grants);
      permits, returned := DeliverGrants(grants, receivers);
    }

    /** Every waiter is told, in whatever order the map yields them. */
    method ShutdownWaiters() returns (order: seq<JobId>, writes: seq<Write>)
      modifies `waiters
      ensures View() == old(View()).(waiters := map[])
      ensures IsOrder(old(waiters), order) && writes == CloseWrites(old(waiters), order)
      ensures |writes| == |order|
      ensures forall i :: 0 <= i < |order| ==> writes[i] == SendGrantTo(old(waiters)[order[i]], Closed)
    {
      order, writes := [], [];
      while waiters != map[]
        invariant forall j :: j in waiters ==> j in old(waiters) && waiters[j] == old(waiters)[j]
        invariant forall j :: j in order <==> j in old(waiters) && j !in waiters
        invariant forall i, k :: 0 <= i < k < |order| ==> order[i] != order[k]
        invariant writes == CloseWrites(old(waiters), order)
        decreases |waiters|
      {
        var job :| job in waiters;
        order := order + [job];
        writes := writes + [SendGrantTo(waiters[job], Closed)];
        ghost var before := waiters;
        waiters := waiters - {job};
        assert waiters.Keys == before.Keys - {job};
      }
    }

    /** The bounded drain at the top of the loop; a shutdown ends it, and the actor. */
    method DrainLifecycle(queue: seq<Command>)
      returns (drained: nat, stopped: bool, order: seq<JobId>, writes: seq<Write>)
      modifies this
      ensures drained <= |queue| && drained <= 64
      ensures forall k :: 0 <= k < drained ==> !queue[k].Shutdown?
      ensures !stopped ==>
        && drained == Min(64, |queue|)
        && View() == HandleAll(old(View()), queue[..drained])
        && writes == AllWrites(old(View()), queue[..drained])
      ensures stopped ==>
        && drained < 64 && drained < |queue| && queue[drained].Shutdown?
        && View() == HandleAll(old(View()), queue[..drained]).(waiters := map[])
        && IsOrder(HandleAll(old(View()), queue[..drained]).waiters, order)
        && writes == AllWrites(old(View()), queue[..drained])
                     + CloseWrites(HandleAll(old(View()), queue[..drained]).waiters, order)
    {
      drained, stopped, order, writes := 0, false, [], [];
      ghost var start := View();
      while drained < LIFECYCLE_DRAIN_BATCH && drained < |queue|
        invariant drained <= |queue| && drained <= LIFECYCLE_DRAIN_BATCH
        invariant View() == HandleAll(start, queue[..drained])
        invariant writes == AllWrites(start, queue[..drained])
        invariant forall k :: 0 <= k < drained ==> !queue[k].Shutdown?
      {
        if queue[drained].Shutdown? {
          var closing;
          order, closing := ShutdownWaiters();
          return drained, true, order, writes + closing;
        }
        HandleAllAppend(start, queue[..drained], queue[drained]);
        assert queue[..drained + 1] == queue[..drained] + [queue[drained]];
        var more := HandleCommand(queue[drained]);
        writes := writes + more;
        drained := drained + 1;
      }
    }
  }
}
