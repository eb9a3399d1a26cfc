/**
 The outbound queue actor as values: its four indexes over the abstract scheduler, and one function per
 thing it does to them. Tokens name the shared atomics and the oneshot channels of an acquire.
 */
module ActorModel {
  import opened Basics

  type Token = nat
  type JobId = nat

  datatype TokenState = TokenPending | TokenCancelled | TokenAccepted | TokenTerminal

  datatype QueueError = QueueFull | QueueClosed | IncompatibleCoalesceMetadata | WeightExceedsWindow

  /** The lifecycle channel. `Other` stands for the commands that leave every index alone. */
  datatype Command =
    | Cancel(token: Token)
    | Start(job: JobId)
    | Complete(job: JobId, token: Token)
    | Shutdown
    | Other

  /**
   `pending` and `inFlight` are the scheduler; the rest are the actor's own maps. `tokenStates` holds the
   tokens whose atomic the actor can still reach.
   */
  datatype Actor = Actor(
    pending: set<JobId>,
    inFlight: set<JobId>,
    nextJob: JobId,
    waiters: map<JobId, Token>,
    pendingTokens: map<Token, JobId>,
    jobTokens: map<JobId, Token>,
    tokenStates: set<Token>)

  const IDLE := Actor({}, {}, 0, map[], map[], map[], {})

  /** The scheduler's answer to an enqueue: a new job, possibly replacing a pending one, or an error. */
  datatype Admission = Admit(prior: Option<JobId>) | Deny(error: QueueError)

  predicate CanAdmit(a: Actor, admission: Admission) {
    match admission
    case Admit(Some(prior)) => prior in a.pending
    case Admit(None) => true
    case Deny(error) => !error.QueueClosed?
  }

  // --- forgetting a job ---

  function Forget(a: Actor, job: JobId): Actor {
    if job !in a.jobTokens then a
    else
      var token := a.jobTokens[job];
      a.(jobTokens := a.jobTokens - {job}, pendingTokens := a.pendingTokens - {token},
        tokenStates := a.tokenStates - {token})
  }

  /** The atomic that forgetting the job sets to TERMINAL. */
  function Forgotten(a: Actor, job: JobId): Option<Token> {
    if job in a.jobTokens && a.jobTokens[job] in a.tokenStates then Some(a.jobTokens[job]) else None
  }

  // --- the pieces of an enqueue ---

  function Scheduled(a: Actor, prior: Option<JobId>): Actor {
    a.(pending := (if prior.Some? then a.pending - {prior.value} else a.pending) + {a.nextJob},
      nextJob := a.nextJob + 1)
  }

  function DropWaiter(a: Actor, job: JobId): Actor {
    a.(waiters := a.waiters - {job})
  }

  function MapToken(a: Actor, token: Token, job: JobId): Actor {
    a.(pendingTokens := a.pendingTokens[token := job],
       jobTokens := a.jobTokens[job := token],
       tokenStates := a.tokenStates + {token})
  }

  function AddWaiter(a: Actor, token: Token, job: JobId): Actor {
    a.(waiters := a.waiters[job := token])
  }

  /** The response receiver was gone: the job is cancelled on the spot. */
  function Withdrawn(a: Actor, job: JobId): Actor {
    Forget(a.(pending := a.pending - {job}), job)
  }

  // --- lifecycle commands ---

  function Handle(a: Actor, c: Command): Actor {
    match c
    case Cancel(token) =>
      if token !in a.pendingTokens then a
      else
        var job := a.pendingTokens[token];
        Forget(a.(pendingTokens := a.pendingTokens - {token},
                  waiters := a.waiters - {job},
                  pending := a.pending - {job}), job)
    case Complete(job, _) => Forget(a.(inFlight := a.inFlight - {job}), job)
    case _ => a
  }

  /** The atomics a command sets to TERMINAL. */
  function Terminated(a: Actor, c: Command): set<Token> {
    match c
    case Cancel(token) =>
      if token in a.pendingTokens && a.pendingTokens[token] in a.jobTokens
        && a.jobTokens[a.pendingTokens[token]] in a.tokenStates
      then {a.jobTokens[a.pendingTokens[token]]} else {}
    case Complete(job, token) =>
      {token} + (if Forgotten(a, job).Some? then {Forgotten(a, job).value} else {})
    case _ => {}
  }

  /** The waiter whose channel a command closes by dropping the sender. */
  function Abandoned(a: Actor, c: Command): set<Token> {
    match c
    case Cancel(token) =>
      if token in a.pendingTokens && a.pendingTokens[token] in a.waiters
      then {a.waiters[a.pendingTokens[token]]} else {}
    case _ => {}
  }

  // --- admission ---

  ghost predicate Grantable(a: Actor, grants: seq<JobId>) {
    && (forall i :: 0 <= i < |grants| ==> grants[i] in a.pending)
    && (forall i, j :: 0 <= i < j < |grants| ==> grants[i] != grants[j])
  }

  function Members(grants: seq<JobId>): set<JobId> {
    set j | j in grants
  }

  function GrantReady(a: Actor, grants: seq<JobId>): Actor {
    a.(pending := a.pending - Members(grants), inFlight := a.inFlight + Members(grants))
  }

  /** A permit is minted only for a job whose token and atomic are still known. */
  predicate CanMint(a: Actor, job: JobId) {
    job in a.jobTokens && a.jobTokens[job] in a.tokenStates
  }

  function Delivered(a: Actor, job: JobId): Actor {
    if CanMint(a, job) then DropWaiter(a, job) else a
  }

  const LIFECYCLE_DRAIN_BATCH: nat := 64
}
