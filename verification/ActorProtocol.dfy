/**
 The queue actor and its clients as one step relation. A step makes one access to shared memory (a
 compare-and-swap or store on a token's atomic, a send on one of the two channels or on a oneshot, the drop
 of a receiver) or, where the actor writes to several cells of one client in a row, all of these: the lost
 acceptance and its TERMINAL store; a refusal and the drop of the unused grant sender; TERMINAL and the drop
 of a sender when a job is cancelled or withdrawn; the two TERMINAL stores of a completion; a permit that
 finds nobody and the completion it sends. Clients may drop their future or permit between any two steps.
 */
module ActorProtocol {
  import opened Basics
  import opened ActorModel

  datatype Oneshot<T> = Open | Sent(value: T) | SenderGone | Received | ReceiverGone

  function Send<T>(cell: Oneshot<T>, value: T): Oneshot<T> {
    if cell.Open? then Sent(value) else cell
  }

  function DropSender<T>(cell: Oneshot<T>): Oneshot<T> {
    if cell.Open? then SenderGone else cell
  }

  predicate ReceiverAlive<T>(cell: Oneshot<T>) {
    cell.Open? || cell.Sent? || cell.SenderGone?
  }

  /** Nothing was sent yet; the receiver may already be gone. */
  predicate Unsent<T>(cell: Oneshot<T>) {
    cell.Open? || cell.ReceiverGone?
  }

  datatype Reply = Admitted(job: JobId) | Denied(error: QueueError)

  /** `Superseded` carries the replaced job, for bookkeeping only. */
  datatype Message = Granted(job: JobId) | Superseded(job: JobId) | Closed

  datatype Outcome = GotPermit(job: JobId) | GotSuperseded(job: JobId) | GotClosed | GotDenied(error: QueueError)

  datatype Resolution = Resolution(token: Token, outcome: Outcome)

  datatype ClientPc =
    | Enqueuing                            // first phase: waiting for the reply
    | Waiting(job: JobId)                  // second phase: waiting for the grant
    | Holding(job: JobId, started: bool)   // the permit is with the caller
    | Completing(job: JobId)               // TERMINAL stored, completion not sent
    | CancelSecond                         // dropping: the first compare-and-swap failed
    | CancelSending                        // dropping: the token is cancelled, `Cancel` not sent
    | DroppingGrant                        // dropping: the grant receiver is next
    | DroppingPermit(job: JobId)           // dropping: a buffered permit came out of the receiver
    | DroppingReply                        // dropping: the reply receiver is next
    | Finished

  /** One acquire: `shared` is its atomic, `sent` says whether its command entered the ingress. */
  datatype Client = Client(
    pc: ClientPc,
    sent: bool,
    shared: TokenState,
    reply: Oneshot<Reply>,
    granted: Oneshot<Message>)

  datatype ActorPc =
    | Draining(n: nat)
    | Delivering(grants: seq<JobId>)
    | Parked
    | Accepted(token: Token)
    | Refusing(token: Token, error: QueueError)
    | Superseding(token: Token, job: JobId, prior: JobId)
    | Forgetting(token: Token, job: JobId, prior: JobId)
    | Replying(token: Token, job: JobId)
    | Stopping
    | Stopped

  /**
   `queue` is the lifecycle channel. History: `log` has every command ever issued, `results` every
   resolved acquire, `jobOf` the token of every job, `granted` and `superseded` the jobs with that fate;
   `owed` are the commands that must be handled before the next admission pass, `dirty` says that some
   command was handled since the last one.
   */
  datatype Sys = Sys(
    clients: seq<Client>,
    capacity: pos,
    ingress: seq<Token>,
    queue: seq<Command>,
    actor: Actor,
    pc: ActorPc,
    log: seq<Command>,
    results: seq<Resolution>,
    jobOf: map<JobId, Token>,
    granted: set<JobId>,
    superseded: set<JobId>,
    owed: seq<Command>,
    dirty: bool)

  function Initial(capacity: pos): Sys {
    Sys([], capacity, [], [], IDLE, Draining(0), [], [], map[], {}, {}, [], false)
  }

  // --- one step of a client ---

  datatype ClientStep =
    | Poll            // of the future, in either phase
    | Drop            // of the future: the first compare-and-swap
    | DropOn          // the next step of a drop in progress
    | StartPermit
    | CompletePermit  // explicit completion: the TERMINAL store
    | SendComplete    // explicit completion: the command
    | ReleasePermit   // the permit is dropped, or completed and awaited

  /** What a client step leaves, sends and resolves. */
  datatype Effect = Effect(client: Client, command: Option<Command>, outcome: Option<Outcome>)

  predicate CanTake(c: Client, step: ClientStep) {
    match step
    case Poll =>
      (c.pc.Enqueuing? && (c.reply.Sent? || c.reply.SenderGone?))
        || (c.pc.Waiting? && (c.granted.Sent? || c.granted.SenderGone?))
    case Drop => c.pc.Enqueuing? || c.pc.Waiting?
    case DropOn => c.pc.CancelSecond? || c.pc.CancelSending? || c.pc.DroppingGrant? || c.pc.DroppingPermit?
      || c.pc.DroppingReply?
    case StartPermit => c.pc.Holding? && !c.pc.started
    case CompletePermit => c.pc.Holding?
    case SendComplete => c.pc.Completing?
    case ReleasePermit => c.pc.Holding?
  }

  function PollEnqueue(c: Client): Effect {
    var read := c.(reply := Received);
    match c.reply
    case Sent(Admitted(job)) => Effect(read.(pc := Waiting(job)), None, None)
    case Sent(Denied(error)) => Effect(read.(pc := DroppingGrant), None, Some(GotDenied(error)))
    case _ => Effect(read.(pc := DroppingGrant), None, Some(GotClosed))
  }

  function PollGrant(c: Client): Effect {
    var read := c.(granted := Received);
    match c.granted
    case Sent(Granted(job)) => Effect(read.(pc := Holding(job, false)), None, Some(GotPermit(job)))
    case Sent(Superseded(job)) => Effect(read.(pc := Finished), None, Some(GotSuperseded(job)))
    case _ => Effect(read.(pc := Finished), None, Some(GotClosed))
  }

  function DropFuture(c: Client): Client {
    if !c.sent then c.(pc := DroppingGrant)
    else if c.shared.TokenPending? then c.(shared := TokenCancelled, pc := CancelSending)
    else c.(pc := CancelSecond)
  }

  function DropOnward(c: Client, t: Token): Effect {
    match c.pc
    case CancelSecond =>
      if c.shared.TokenAccepted? then Effect(c.(shared := TokenCancelled, pc := CancelSending), None, None)
      else Effect(c.(pc := DroppingGrant), None, None)
    case CancelSending => Effect(c.(pc := DroppingGrant), Some(Cancel(t)), None)
    case DroppingGrant =>
      var next := if c.granted.Sent? && c.granted.value.Granted? then DroppingPermit(c.granted.value.job)
        else DroppingReply;
      Effect(c.(granted := ReceiverGone, pc := next), None, None)
    case DroppingPermit(job) => Effect(c.(pc := DroppingReply), Some(Complete(job, t)), None)
    case _ => Effect(c.(reply := if c.reply.Received? then Received else ReceiverGone, pc := Finished), None, None)
  }

  function Take(c: Client, t: Token, step: ClientStep): Effect
    requires CanTake(c, step)
  {
    match step
    case Poll => if c.pc.Enqueuing? then PollEnqueue(c) else PollGrant(c)
    case Drop => Effect(DropFuture(c), None, None)
    case DropOn => DropOnward(c, t)
    case StartPermit => Effect(c.(pc := Holding(c.pc.job, true)), Some(Start(c.pc.job)), None)
    case CompletePermit => Effect(c.(shared := TokenTerminal, pc := Completing(c.pc.job)), None, None)
    case SendComplete => Effect(c.(pc := Finished), Some(Complete(c.pc.job, t)), None)
    case ReleasePermit => Effect(c.(pc := Finished), Some(Complete(c.pc.job, t)), None)
  }

  // --- shared-memory writes of the actor ---

  function StoreTerminal(clients: seq<Client>, tokens: set<Token>): seq<Client> {
    seq(|clients|, i requires 0 <= i < |clients| =>
      if i in tokens then clients[i].(shared := TokenTerminal) else clients[i])
  }

  function DropGrantSenders(clients: seq<Client>, tokens: set<Token>): seq<Client> {
    seq(|clients|, i requires 0 <= i < |clients| =>
      if i in tokens then clients[i].(granted := DropSender(clients[i].granted)) else clients[i])
  }

  function DropCommands(clients: seq<Client>, tokens: seq<Token>): seq<Client> {
    seq(|clients|, i requires 0 <= i < |clients| =>
      if i in tokens then clients[i].(reply := DropSender(clients[i].reply), granted := DropSender(clients[i].granted))
      else clients[i])
  }

  function SendGrant(clients: seq<Client>, t: Token, m: Message): seq<Client> {
    if t < |clients| then clients[t := clients[t].(granted := Send(clients[t].granted, m))] else clients
  }

  function SendReply(clients: seq<Client>, t: Token, r: Reply): seq<Client> {
    if t < |clients| then clients[t := clients[t].(reply := Send(clients[t].reply, r))] else clients
  }

  function OptionSet(o: Option<Token>): set<Token> {
    if o.Some? then {o.value} else {}
  }

  // --- events ---

  datatype Event =
    | Mint
    | ClientEvent(t: Token, step: ClientStep)
    | OtherCommand(c: Command)              // shutdown, penalties, limits, snapshots
    | Drain                                 // one lifecycle command in the bounded drain
    | Pass(grants: seq<JobId>)              // the admission pass
    | Deliver                               // one grant reaches its waiter
    | Park
    | TakeLifecycle
    | TakeEnqueue                           // with the acceptance compare-and-swap
    | Wake                                  // the timer
    | IngressClosed
    | AdmitStep(admission: Admission)
    | SupersedeStep
    | ForgetStep
    | ReplyStep
    | RefuseStep
    | CloseWaiter(job: JobId)
    | Stop

  ghost predicate Enabled(s: Sys, e: Event) {
    match e
    case Mint => true
    case ClientEvent(t, step) => t < |s.clients| && CanTake(s.clients[t], step)
    case OtherCommand(c) => c.Shutdown? || c.Other?
    case Drain => s.pc.Draining? && s.pc.n < LIFECYCLE_DRAIN_BATCH && s.queue != []
    case Pass(grants) => s.pc.Draining? && (s.pc.n == LIFECYCLE_DRAIN_BATCH || s.queue == [])
      && Grantable(s.actor, grants)
    case Deliver => s.pc.Delivering? && s.pc.grants != []
    case Park => s.pc.Delivering? && s.pc.grants == []
    case TakeLifecycle => s.pc.Parked? && s.queue != []
    case TakeEnqueue => s.pc.Parked? && s.ingress != [] && s.ingress[0] < |s.clients|
    case Wake => s.pc.Parked?
    case IngressClosed => s.pc.Parked? && s.ingress == []
    case AdmitStep(admission) => s.pc.Accepted? && CanAdmit(s.actor, admission)
    case SupersedeStep => s.pc.Superseding?
    case ForgetStep => s.pc.Forgetting?
    case ReplyStep => s.pc.Replying? && s.pc.token < |s.clients|
    case RefuseStep => s.pc.Refusing?
    case CloseWaiter(job) => s.pc.Stopping? && job in s.actor.waiters
    case Stop => s.pc.Stopping? && s.actor.waiters == map[]
  }

  function Issue(s: Sys, c: Command): Sys {
    s.(log := s.log + [c], queue := s.queue + [c])
  }

  /** `enqueue_inner`: a fresh token and atomic, and one try_send on the bounded ingress. */
  function MintStep(s: Sys): Sys {
    if s.pc.Stopped? then
      s.(clients := s.clients + [Client(Enqueuing, false, TokenPending, SenderGone, SenderGone)])
    else if |s.ingress| >= s.capacity then
      s.(clients := s.clients + [Client(Enqueuing, false, TokenPending, Sent(Denied(QueueFull)), SenderGone)])
    else
      s.(clients := s.clients + [Client(Enqueuing, true, TokenPending, Open, Open)],
        ingress := s.ingress + [|s.clients|])
  }

  function ClientNext(s: Sys, t: Token, step: ClientStep): Sys
    requires t < |s.clients| && CanTake(s.clients[t], step)
  {
    var effect := Take(s.clients[t], t, step);
    var s1 := s.(clients := s.clients[t := effect.client]);
    var s2 := if effect.command.Some? then Issue(s1, effect.command.value) else s1;
    if effect.outcome.Some? then s2.(results := s2.results + [Resolution(t, effect.outcome.value)]) else s2
  }

  /** Handles the head of the lifecycle channel; `onward` is where the actor goes on. */
  function HandleHead(s: Sys, onward: ActorPc): Sys
    requires s.queue != []
  {
    var c := s.queue[0];
    var rest := s.(queue := s.queue[1..], owed := if s.owed == [] then [] else s.owed[1..]);
    if c.Shutdown? then rest.(pc := Stopping)
    else
      rest.(actor := Handle(s.actor, c),
            clients := DropGrantSenders(StoreTerminal(s.clients, Terminated(s.actor, c)), Abandoned(s.actor, c)),
            pc := onward,
            dirty := true)
  }

  function PassStep(s: Sys, grants: seq<JobId>): Sys {
    s.(actor := GrantReady(s.actor, grants), granted := s.granted + Members(grants), pc := Delivering(grants),
      dirty := false)
  }

  /** A permit whose waiter is gone is dropped at once and completes its job itself. */
  function DeliverStep(s: Sys): Sys
    requires s.pc.Delivering? && s.pc.grants != []
  {
    var job := s.pc.grants[0];
    var onward := s.(pc := Delivering(s.pc.grants[1..]), actor := Delivered(s.actor, job));
    if !CanMint(s.actor, job) then onward
    else if job in s.actor.waiters && s.actor.waiters[job] < |s.clients|
      && s.clients[s.actor.waiters[job]].granted.Open? then
      onward.(clients := SendGrant(s.clients, s.actor.waiters[job], Granted(job)))
    else
      Issue(onward, Complete(job, s.actor.jobTokens[job]))
  }

  function TakeEnqueueStep(s: Sys): Sys
    requires s.ingress != [] && s.ingress[0] < |s.clients|
  {
    var t := s.ingress[0];
    var rest := s.(ingress := s.ingress[1..],
                   owed := s.queue[..Min(LIFECYCLE_DRAIN_BATCH, |s.queue|)],
                   dirty := true);
    if s.clients[t].shared.TokenPending? then
      rest.(clients := s.clients[t := s.clients[t].(shared := TokenAccepted)], pc := Accepted(t))
    else
      rest.(clients := s.clients[t := s.clients[t].(shared := TokenTerminal)], pc := Refusing(t, QueueClosed))
  }

  function AdmitNext(s: Sys, admission: Admission): Sys
    requires s.pc.Accepted?
  {
    var t := s.pc.token;
    match admission
    case Deny(error) => s.(clients := StoreTerminal(s.clients, {t}), pc := Refusing(t, error))
    case Admit(prior) =>
      var job := s.actor.nextJob;
      var a := Scheduled(s.actor, prior);
      var s1 := s.(jobOf := s.jobOf[job := t]);
      if prior.Some? then s1.(actor := a, pc := Superseding(t, job, prior.value))
      else s1.(actor := MapToken(a, t, job), pc := Replying(t, job))
  }

  function SupersedeNext(s: Sys): Sys
    requires s.pc.Superseding?
  {
    var prior := s.pc.prior;
    s.(clients :=
         if prior in s.actor.waiters then SendGrant(s.clients, s.actor.waiters[prior], Superseded(prior))
         else s.clients,
       actor := DropWaiter(s.actor, prior),
       superseded := s.superseded + {prior},
       pc := Forgetting(s.pc.token, s.pc.job, prior))
  }

  function ForgetNext(s: Sys): Sys
    requires s.pc.Forgetting?
  {
    s.(clients := StoreTerminal(s.clients, OptionSet(Forgotten(s.actor, s.pc.prior))),
       actor := MapToken(Forget(s.actor, s.pc.prior), s.pc.token, s.pc.job),
       pc := Replying(s.pc.token, s.pc.job))
  }

  function ReplyNext(s: Sys): Sys
    requires s.pc.Replying? && s.pc.token < |s.clients|
  {
    var t, job := s.pc.token, s.pc.job;
    if s.clients[t].reply.Open? then
      s.(clients := SendReply(s.clients, t, Admitted(job)), actor := AddWaiter(s.actor, t, job), pc := Draining(0))
    else
      s.(clients := DropGrantSenders(StoreTerminal(s.clients, OptionSet(Forgotten(s.actor, job))), {t}),
         actor := Withdrawn(s.actor, job),
         pc := Draining(0))
  }

  function RefuseNext(s: Sys): Sys
    requires s.pc.Refusing?
  {
    s.(clients := DropGrantSenders(SendReply(s.clients, s.pc.token, Denied(s.pc.error)), {s.pc.token}),
      pc := Draining(0))
  }

  function Next(s: Sys, e: Event): Sys
    requires Enabled(s, e)
  {
    match e
    case Mint => MintStep(s)
    case ClientEvent(t, step) => ClientNext(s, t, step)
    case OtherCommand(c) => Issue(s, c)
    case Drain => HandleHead(s, Draining(s.pc.n + 1))
    case Pass(grants) => PassStep(s, grants)
    case Deliver => DeliverStep(s)
    case Park => s.(pc := Parked)
    case TakeLifecycle => HandleHead(s, Draining(0))
    case TakeEnqueue => TakeEnqueueStep(s)
    case Wake => s.(pc := Draining(0))
    case IngressClosed => s.(pc := Stopping)
    case AdmitStep(admission) => AdmitNext(s, admission)
    case SupersedeStep => SupersedeNext(s)
    case ForgetStep => ForgetNext(s)
    case ReplyStep => ReplyNext(s)
    case RefuseStep => RefuseNext(s)
    case CloseWaiter(job) =>
      s.(clients := SendGrant(s.clients, s.actor.waiters[job], Closed), actor := DropWaiter(s.actor, job))
    case Stop => s.(clients := DropCommands(s.clients, s.ingress), ingress := [], pc := Stopped)
  }
  // --- runs ---

  ghost predicate IsRun(s: Sys, events: seq<Event>)
    decreases |events|
  {
    events == [] || (Enabled(s, events[0]) && IsRun(Next(s, events[0]), events[1..]))
  }

  ghost function After(s: Sys, events: seq<Event>): Sys
    requires IsRun(s, events)
    decreases |events|
  {
    if events == [] then s else After(Next(s, events[0]), events[1..])
  }
}
