/**
 What holds in every state the workers can reach: attempt bounds, unreachable branches, who may complete
 a record, and how often a record can be claimed.
 */
module OutboxTheorems {
  import opened Basics
  import opened OutboxModel
  import opened OutboxRuns
  import opened OutboxWorkers

  ghost predicate IsRun(y: System, evs: seq<Event>)
    requires IndexOk(y.store)
    decreases |evs|
  {
    evs == [] || (Enabled(y, evs[0]) && (NextKeepsIndex(y, evs[0]); IsRun(Next(y, evs[0]), evs[1..])))
  }

  ghost function After(y: System, evs: seq<Event>): (final: System)
    requires IndexOk(y.store) && IsRun(y, evs)
    ensures IndexOk(final.store)
    decreases |evs|
  {
    if evs == [] then y else NextKeepsIndex(y, evs[0]); After(Next(y, evs[0]), evs[1..])
  }

  /** Some run from an empty store without workers ends in `y`. */
  ghost predicate Reachable(y: System) {
    exists evs :: IsRun(START, evs) && After(START, evs) == y
  }

  lemma {:induction false} RunKeepsInv(y: System, evs: seq<Event>)
    requires Inv(y) && IsRun(y, evs)
    ensures Inv(After(y, evs))
    decreases |evs|
  {
    if evs != [] {
      NextKeepsInv(y, evs[0]);
      RunKeepsInv(Next(y, evs[0]), evs[1..]);
    }
  }

  lemma ReachableOk(y: System)
    requires Reachable(y)
    ensures Inv(y)
  {
    var evs :| IsRun(START, evs) && After(START, evs) == y;
    RunKeepsInv(START, evs);
  }

  // --- bounds ---

  /** With any workers, crashes, store errors and clocks: calls <= attempts <= min(allowed, claims). */
  lemma ExecutionBound(y: System, id: nat)
    requires Reachable(y) && id in y.store.records
    ensures y.calls[id] <= y.store.records[id].attempt
      <= Min(y.store.records[id].request.maxAttempts, y.store.records[id].claimCount)
  {
    ReachableOk(y);
    SubsetSize(InvokedOf(y.execs, id), BegunOf(y.execs, id)) by {
      forall i | i in InvokedOf(y.execs, id) ensures i in BegunOf(y.execs, id) {
        assert ExecOk(y.store, y.execs[i]);
      }
    }
    SubsetSize(BegunOf(y.execs, id), ClaimsOf(y.execs, id));
  }

  /** The claims that did not turn into an attempt account exactly for the difference of the two counters. */
  lemma ClaimAccounting(y: System, id: nat)
    requires Reachable(y) && id in y.store.records
    ensures y.store.records[id].claimCount ==
      y.store.records[id].attempt + |ClaimsOf(y.execs, id) - BegunOf(y.execs, id)|
  {
    ReachableOk(y);
    assert BegunOf(y.execs, id) <= ClaimsOf(y.execs, id);
    assert ClaimsOf(y.execs, id) == BegunOf(y.execs, id) + (ClaimsOf(y.execs, id) - BegunOf(y.execs, id));
  }

  // --- branches of execute_claimed ---

  /** The execution's lease is the one on its record, and the store's clock has not passed it. */
  predicate Holds(s: Store, e: Exec, clock: Time) {
    && e.id in s.records
    && s.records[e.id].status.Claimed?
    && s.records[e.id].status.lease.worker == e.lease.worker
    && s.records[e.id].status.lease.token == e.lease.token
    && clock < s.records[e.id].status.lease.until
  }

  lemma BeginOutcome(s: Store, e: Exec, clock: Time)
    requires ExecOk(s, e) && CanStep(e, Begin(clock))
    ensures
      var (s', reply) := StoreStep(s, e, Begin(clock));
      if Holds(s, e, clock) then
        && reply == Started(e.attemptBefore + 1)
        && s' == s.(records := s.records[e.id := s.records[e.id].(attempt := e.attemptBefore + 1)])
      else
        s' == s && reply == Refused(LeaseMismatch(e.id))
  {
  }

  /**
   `begin_attempt` counts attempt `attemptBefore + 1` and lets the worker start it, if the lease is still
   held; otherwise it changes nothing and ends the execution. The exhausted branch is unreachable.
   */
  lemma BeginStartsNextAttempt(y: System, i: nat, clock: Time)
    requires Reachable(y) && Enabled(y, Stepped(i, Begin(clock)))
    ensures y.execs[i].id in y.store.records
    ensures
      var e, y' := y.execs[i], Next(y, Stepped(i, Begin(clock)));
      if Holds(y.store, e, clock) then
        && y'.execs[i].phase == Starting(e.attemptBefore + 1)
        && y.store.records[e.id].attempt == e.attemptBefore
        && y'.store.records == y.store.records[e.id := y.store.records[e.id].(attempt := e.attemptBefore + 1)]
      else
        y'.execs[i].phase.Ended? && y'.store == y.store
  {
    ReachableOk(y);
    assert ExecOk(y.store, y.execs[i]);
    BeginOutcome(y.store, y.execs[i], clock);
  }

  /** In every reachable state: the count relied on is the stored one until the holder begins. */
  lemma AttemptIsStable(y: System, i: nat)
    requires Reachable(y) && i < |y.execs|
    ensures
      var e := y.execs[i];
      && e.id in y.store.records
      && !e.phase.ReportingExhausted?
      && (y.store.records[e.id].HeldBy(e.lease.token) ==>
           y.store.records[e.id].attempt == e.attemptBefore + if e.begun then 1 else 0)
  {
    ReachableOk(y);
    assert ExecOk(y.store, y.execs[i]);
  }

  // --- completion ---

  lemma CompletingStep(s: Store, e: Exec, step: Step)
    requires ExecOk(s, e) && CanStep(e, step)
    requires !s.records[e.id].status.Completed?
    requires var s' := StoreStep(s, e, step).0; e.id in s'.records && s'.records[e.id].status.Completed?
    ensures step.Finish? && e.invoked && e.succeeded && Holds(s, e, step.clock)
  {
  }

  /** A new request, an armed failure and a claim complete nothing. */
  lemma OnlyStepsComplete(y: System, ev: Event, id: nat)
    requires IndexOk(y.store) && Enabled(y, ev)
    ensures !ev.Stepped? && id in Next(y, ev).store.records && Next(y, ev).store.records[id].status.Completed? ==>
      id in y.store.records && y.store.records[id].status.Completed?
  {
  }

  lemma CompletedByStep(s: Store, e: Exec, step: Step, id: nat)
    requires Valid(s) && ExecOk(s, e) && CanStep(e, step)
    requires id in s.records && !s.records[id].status.Completed?
    requires var s' := StoreStep(s, e, step).0; id in s'.records && s'.records[id].status.Completed?
    ensures e.id == id
  {
    StepOnRecord(s, e, step);
  }

  lemma StepKeepsIds(s: Store, e: Exec, step: Step)
    requires Valid(s) && ExecOk(s, e) && CanStep(e, step)
    ensures StoreStep(s, e, step).0.records.Keys == s.records.Keys
  {
    StepOnRecord(s, e, step);
  }

  /**
   A record becomes `Completed` only through a worker whose executor returned Ok and whose lease is the
   current one.
   */
  lemma CompletedOnlyByHolder(y: System, ev: Event, id: nat)
    requires Reachable(y) && Enabled(y, ev)
    requires id in Next(y, ev).store.records && Next(y, ev).store.records[id].status.Completed?
    requires id in y.store.records ==> !y.store.records[id].status.Completed?
    ensures ev.Stepped? && ev.step.Finish? && id in y.store.records
    ensures
      var e := y.execs[ev.i];
      e.id == id && e.invoked && e.succeeded && Holds(y.store, e, ev.step.clock)
  {
    ReachableOk(y);
    OnlyStepsComplete(y, ev, id);
    match ev
    case Stepped(i, step) =>
      assert ExecOk(y.store, y.execs[i]);
      StepKeepsIds(y.store, y.execs[i], step);
      CompletedByStep(y.store, y.execs[i], step, id);
      CompletingStep(y.store, y.execs[i], step);
    case _ =>
  }

  /** The success flag means what it says: only the executor's Ok sets it. */
  lemma SuccessComesFromExecutor(y: System, ev: Event, i: nat)
    requires IndexOk(y.store) && Enabled(y, ev) && i < |Next(y, ev).execs| && Next(y, ev).execs[i].succeeded
    requires i < |y.execs| ==> !y.execs[i].succeeded
    ensures ev == Stepped(i, Return(Succeeded))
  {
    if ev.Stepped? && ev.i == i {
      var (s, reply) := StoreStep(y.store, y.execs[i], ev.step);
      assert Next(y, ev).execs[i] == ExecStep(y.execs[i], ev.step, reply);
    }
  }

  // --- how often a record can be claimed ---

  lemma HolderIsUnique(y: System, id: nat, i: nat, j: nat)
    requires TokensDistinct(y.execs) && i < |y.execs| && y.execs[i].id == id
    requires id in y.store.records && y.store.records[id].HeldBy(y.execs[i].lease.token) && IsHolder(y, id, j)
    ensures i == j
  {
  }

  ghost predicate HeldUnbegun(y: System, id: nat) {
    exists i: nat :: IsHolder(y, id, i) && !y.execs[i].begun
  }

  lemma HeldUnbegunIs(y: System, id: nat, h: nat)
    requires TokensDistinct(y.execs) && IsHolder(y, id, h)
    ensures HeldUnbegun(y, id) <==> !y.execs[h].begun
  {
    if i: nat :| IsHolder(y, id, i) && !y.execs[i].begun {
      HolderIsUnique(y, id, i, h);
    }
  }

  /** The record leaves a lease under which no attempt began, without becoming terminal. */
  predicate Wasted(r: Record, r': Record, unbegun: bool) {
    r.status.Claimed? && unbegun && !r'.Terminal() && !r'.HeldBy(r.status.lease.token)
  }

  ghost predicate WastesClaim(y: System, ev: Event, id: nat)
    requires IndexOk(y.store) && Enabled(y, ev)
  {
    && id in y.store.records && id in Next(y, ev).store.records
    && Wasted(y.store.records[id], Next(y, ev).store.records[id], HeldUnbegun(y, id))
  }

  /**
   The potential of a record: attempts left, then held after beginning > pending > held before
   beginning; terminal records have none.
   */
  function Worth(r: Record, unbegun: bool): nat {
    if r.Terminal() || r.attempt > r.request.maxAttempts then 0
    else 3 * (r.request.maxAttempts - r.attempt) + if r.status.Pending? then 2 else if unbegun then 1 else 3
  }

  ghost function Potential(y: System, id: nat): nat
    requires id in y.store.records
  {
    Worth(y.store.records[id], HeldUnbegun(y, id))
  }

  /** The record is claimed, begins an attempt, or changes between pending, held and terminal. */
  predicate Moved(r: Record, r': Record) {
    || r'.attempt != r.attempt
    || r'.claimCount != r.claimCount
    || r'.Terminal() != r.Terminal()
    || r'.status.Pending? != r.status.Pending?
  }

  /** Every claim so far has begun, is still held, or ended with the record. */
  predicate ClaimsUsed(r: Record, unbegun: bool) {
    if r.Terminal() then r.claimCount <= r.request.maxAttempts
    else r.claimCount == r.attempt + if r.status.Claimed? && unbegun then 1 else 0
  }

  /** Unless it wastes a claim, an event lowers the worth of the record it moves, and uses its claims. */
  predicate GoodMove(r: Record, r': Record, unbegun: bool, unbegun': bool) {
    !Wasted(r, r', unbegun) ==>
      && Worth(r', unbegun') <= Worth(r, unbegun) - (if Moved(r, r') then 1 else 0)
      && (ClaimsUsed(r, unbegun) ==> ClaimsUsed(r', unbegun'))
  }

  /** A step of the holder. */
  lemma HolderStepMove(s: Store, e: Exec, step: Step)
    requires Valid(s) && ExecOk(s, e) && CanStep(e, step)
    requires s.records[e.id].HeldBy(e.lease.token) && s.records[e.id].attempt <= e.maxAttempts
    ensures
      var (s', reply) := StoreStep(s, e, step);
      var e' := ExecStep(e, step, reply);
      e.id in s'.records && GoodMove(s.records[e.id], s'.records[e.id], !e.begun, !e'.begun)
  {
  }

  /** A step by anyone else leaves a held record, and its holder, alone. */
  lemma HolderAfterStep(y: System, i: nat, step: Step, id: nat, h: nat)
    requires Inv(y) && Enabled(y, Stepped(i, step)) && IsHolder(y, id, h)
    ensures
      var y' := Next(y, Stepped(i, step));
      && id in y'.store.records && h < |y'.execs|
      && (i != h ==> y'.store.records[id] == y.store.records[id] && y'.execs[h] == y.execs[h])
      && (y'.store.records[id].status.Claimed? ==> IsHolder(y', id, h))
  {
    assert ExecOk(y.store, y.execs[i]);
    StepOnRecord(y.store, y.execs[i], step);
    if y.execs[i].id == id && y.store.records[id].HeldBy(y.execs[i].lease.token) {
      HolderIsUnique(y, id, i, h);
    }
  }

  lemma MoveOfHeld(y: System, i: nat, step: Step, id: nat, h: nat)
    requires Inv(y) && Enabled(y, Stepped(i, step)) && IsHolder(y, id, h)
    requires TokensDistinct(Next(y, Stepped(i, step)).execs)
    ensures id in Next(y, Stepped(i, step)).store.records
    ensures
      var y' := Next(y, Stepped(i, step));
      GoodMove(y.store.records[id], y'.store.records[id], HeldUnbegun(y, id), HeldUnbegun(y', id))
  {
    var y' := Next(y, Stepped(i, step));
    HolderAfterStep(y, i, step, id, h);
    HeldUnbegunIs(y, id, h);
    if y'.store.records[id].status.Claimed? {
      HeldUnbegunIs(y', id, h);
    }
    if i == h {
      assert ExecOk(y.store, y.execs[h]);
      HolderStepMove(y.store, y.execs[h], step);
    }
  }

  /** A record that nobody holds is not moved by a step. */
  lemma UnheldStaysPut(s: Store, e: Exec, step: Step, id: nat)
    requires Valid(s) && ExecOk(s, e) && CanStep(e, step) && id in s.records && !s.records[id].status.Claimed?
    ensures var s' := StoreStep(s, e, step).0; id in s'.records && s'.records[id] == s.records[id]
  {
    StepOnRecord(s, e, step);
  }

  lemma MoveOfStep(y: System, i: nat, step: Step, id: nat)
    requires Inv(y) && Enabled(y, Stepped(i, step)) && id in y.store.records
    ensures id in Next(y, Stepped(i, step)).store.records
    ensures
      var y' := Next(y, Stepped(i, step));
      GoodMove(y.store.records[id], y'.store.records[id], HeldUnbegun(y, id), HeldUnbegun(y', id))
  {
    if y.store.records[id].status.Claimed? {
      var h: nat :| IsHolder(y, id, h);
      StepKeepsExecs(y, i, step);
      MoveOfHeld(y, i, step, id, h);
    } else {
      assert ExecOk(y.store, y.execs[i]);
      UnheldStaysPut(y.store, y.execs[i], step, id);
    }
  }

  /** A record that is taken in a batch is held by an execution that has not begun. */
  lemma NewHolder(y: System, settings: Settings, now: Time, claims: seq<Claim>, id: nat)
    requires IndexOk(y.store) && Enabled(y, BatchClaimed(settings, now, claims))
    requires id in TakenIds(y.store.records, now, settings.maxInFlight)
    ensures HeldUnbegun(Next(y, BatchClaimed(settings, now, claims)), id)
  {
    BatchIds(y.store, settings.worker, now, settings.leaseFor, settings.maxInFlight, claims);
    assert id in IdsOf(claims, |claims|);
    var k :| 0 <= k < |claims| && claims[k].id == id;
    assert IsBatchEntry(y.store, settings.worker, now, settings.leaseFor, settings.maxInFlight, k, claims[k]);
    assert IsHolder(Next(y, BatchClaimed(settings, now, claims)), id, |y.execs| + k);
  }

  /** `claim_due` on one record. */
  lemma ClaimMove(s: Store, worker: nat, now: Time, leaseFor: nat, limit: pos, id: nat, unbegun: bool)
    requires id in s.records && Valid(s) && s.records[id].attempt <= s.records[id].request.maxAttempts
    requires s.records[id].status.Claimed? && unbegun ==> !s.records[id].Spent()
    ensures
      var taken := id in TakenIds(s.records, now, limit);
      GoodMove(s.records[id], AfterClaim(s, worker, now, leaseFor, limit, id), unbegun, taken || unbegun)
  {
    if id in TakenIds(s.records, now, limit) {
      TokenIsFresh(s, now, limit, id);
    }
  }

  lemma UnbegunNotSpent(y: System, id: nat)
    requires Inv(y) && HeldUnbegun(y, id)
    ensures !y.store.records[id].Spent()
  {
    var h: nat :| IsHolder(y, id, h) && !y.execs[h].begun;
    assert ExecOk(y.store, y.execs[h]);
  }

  /** A record that a batch neither takes nor sweeps stays with its holder. */
  lemma HolderAfterClaim(y: System, settings: Settings, now: Time, claims: seq<Claim>, id: nat)
    requires Inv(y) && Enabled(y, BatchClaimed(settings, now, claims)) && id in y.store.records
    requires id !in TakenIds(y.store.records, now, settings.maxInFlight)
    requires Next(y, BatchClaimed(settings, now, claims)).store.records[id].status.Claimed?
    ensures HeldUnbegun(Next(y, BatchClaimed(settings, now, claims)), id) <==> HeldUnbegun(y, id)
  {
    var y' := Next(y, BatchClaimed(settings, now, claims));
    var h: nat :| IsHolder(y, id, h);
    assert IsHolder(y', id, h);
    ClaimKeepsTokens(y, settings, now, claims);
    HeldUnbegunIs(y, id, h);
    HeldUnbegunIs(y', id, h);
  }

  lemma MoveOfClaim(y: System, settings: Settings, now: Time, claims: seq<Claim>, id: nat)
    requires Inv(y) && Enabled(y, BatchClaimed(settings, now, claims)) && id in y.store.records
    ensures
      var y' := Next(y, BatchClaimed(settings, now, claims));
      && id in y'.store.records
      && GoodMove(y.store.records[id], y'.store.records[id], HeldUnbegun(y, id), HeldUnbegun(y', id))
  {
    if HeldUnbegun(y, id) {
      UnbegunNotSpent(y, id);
    }
    ClaimMove(y.store, settings.worker, now, settings.leaseFor, settings.maxInFlight, id, HeldUnbegun(y, id));
    if id in TakenIds(y.store.records, now, settings.maxInFlight) {
      NewHolder(y, settings, now, claims, id);
    } else if Next(y, BatchClaimed(settings, now, claims)).store.records[id].status.Claimed? {
      HolderAfterClaim(y, settings, now, claims, id);
    }
  }

  lemma MoveOfOther(y: System, ev: Event, id: nat)
    requires IndexOk(y.store) && id in y.store.records && (ev.Enqueued? || ev.Armed?)
    ensures id in Next(y, ev).store.records
    ensures GoodMove(y.store.records[id], Next(y, ev).store.records[id], HeldUnbegun(y, id),
      HeldUnbegun(Next(y, ev), id))
  {
    var y' := Next(y, ev);
    assert y'.store.records[id] == y.store.records[id];
    assert forall h: nat :: IsHolder(y', id, h) == IsHolder(y, id, h);
  }

  /** Every event, on every record. */
  lemma MoveIsGood(y: System, ev: Event, id: nat)
    requires Inv(y) && Enabled(y, ev) && id in y.store.records
    ensures id in Next(y, ev).store.records
    ensures GoodMove(y.store.records[id], Next(y, ev).store.records[id], HeldUnbegun(y, id),
      HeldUnbegun(Next(y, ev), id))
  {
    NextKeepsInv(y, ev);
    match ev
    case BatchClaimed(settings, now, claims) => MoveOfClaim(y, settings, now, claims, id);
    case Stepped(i, step) => MoveOfStep(y, i, step, id);
    case _ => MoveOfOther(y, ev, id);
  }

  // --- whole runs ---

  /** How many events of the run move the record. */
  ghost function Moves(y: System, evs: seq<Event>, id: nat): nat
    requires IndexOk(y.store) && IsRun(y, evs)
    decreases |evs|
  {
    if evs == [] then 0
    else
      NextKeepsIndex(y, evs[0]);
      var y' := Next(y, evs[0]);
      (if id in y.store.records && id in y'.store.records && Moved(y.store.records[id], y'.store.records[id])
       then 1 else 0)
      + Moves(y', evs[1..], id)
  }

  /** Every claim of the record reaches `begin_attempt`, unless the record becomes terminal first. */
  ghost predicate NoneWasted(y: System, evs: seq<Event>, id: nat)
    requires IndexOk(y.store) && IsRun(y, evs)
    decreases |evs|
  {
    evs == [] ||
    (!WastesClaim(y, evs[0], id) && (NextKeepsIndex(y, evs[0]); NoneWasted(Next(y, evs[0]), evs[1..], id)))
  }

  /** Termination: each move of a record, lease expiry included, costs potential, so a run has few of them. */
  lemma {:induction false} MovesAreBounded(y: System, evs: seq<Event>, id: nat)
    requires Inv(y) && IsRun(y, evs) && id in y.store.records && NoneWasted(y, evs, id)
    ensures id in After(y, evs).store.records
    ensures Moves(y, evs, id) + Potential(After(y, evs), id) <= Potential(y, id)
    decreases |evs|
  {
    if evs != [] {
      NextKeepsInv(y, evs[0]);
      MoveIsGood(y, evs[0], id);
      MovesAreBounded(Next(y, evs[0]), evs[1..], id);
    }
  }

  /** In numbers: at most three moves per allowed attempt, and three more. */
  lemma MovesPerAttempt(y: System, evs: seq<Event>, id: nat)
    requires Reachable(y) && IsRun(y, evs) && id in y.store.records && NoneWasted(y, evs, id)
    ensures Moves(y, evs, id) <= 3 * y.store.records[id].request.maxAttempts + 3
  {
    ReachableOk(y);
    MovesAreBounded(y, evs, id);
  }

  ghost predicate AllUsed(y: System, id: nat) {
    id in y.store.records ==> ClaimsUsed(y.store.records[id], HeldUnbegun(y, id))
  }

  /** A record appears without any claim. */
  lemma NewRecordIsUsed(y: System, ev: Event, id: nat)
    requires IndexOk(y.store) && Enabled(y, ev) && id !in y.store.records
    requires ev.Stepped? ==> StoreStep(y.store, y.execs[ev.i], ev.step).0.records.Keys == y.store.records.Keys
    ensures AllUsed(Next(y, ev), id)
  {
  }

  lemma UsedStep(y: System, ev: Event, id: nat)
    requires Inv(y) && Enabled(y, ev) && AllUsed(y, id) && !WastesClaim(y, ev, id)
    ensures AllUsed(Next(y, ev), id)
  {
    if id in y.store.records {
      MoveIsGood(y, ev, id);
    } else {
      if ev.Stepped? {
        assert ExecOk(y.store, y.execs[ev.i]);
        StepKeepsIds(y.store, y.execs[ev.i], ev.step);
      }
      NewRecordIsUsed(y, ev, id);
    }
  }

  lemma {:induction false} ClaimsStayUsed(y: System, evs: seq<Event>, id: nat)
    requires Inv(y) && IsRun(y, evs) && NoneWasted(y, evs, id) && AllUsed(y, id)
    ensures AllUsed(After(y, evs), id)
    decreases |evs|
  {
    if evs != [] {
      NextKeepsInv(y, evs[0]);
      UsedStep(y, evs[0], id);
      ClaimsStayUsed(Next(y, evs[0]), evs[1..], id);
    }
  }

  /** If every claim reaches `begin_attempt`, a record is claimed at most `max_attempts` times. */
  lemma ClaimedAtMostMaxAttempts(evs: seq<Event>, id: nat)
    requires IsRun(START, evs) && NoneWasted(START, evs, id) && id in After(START, evs).store.records
    ensures var r := After(START, evs).store.records[id]; r.claimCount <= r.request.maxAttempts
  {
    var y := After(START, evs);
    RunKeepsInv(START, evs);
    ClaimsStayUsed(START, evs, id);
    if HeldUnbegun(y, id) {
      UnbegunNotSpent(y, id);
    }
  }

  // --- fencing, seen from the workers ---

  /** The store call behind an event, if there is one. */
  lemma NextKeepsFence(y: System, ev: Event, id: nat, token: nat)
    requires Inv(y) && Enabled(y, ev) && Fenced(y.store, id, token)
    ensures Fenced(Next(y, ev).store, id, token)
  {
    match ev
    case Enqueued(request) => FencedStep(y.store, EnqueueCall(request), id, token);
    case Armed => FencedStep(y.store, ArmFailureCall, id, token);
    case BatchClaimed(settings, now, claims) =>
      FencedStep(y.store, ClaimCall(settings.worker, now, settings.leaseFor, settings.maxInFlight), id, token);
    case Stepped(i, step) =>
      assert ExecOk(y.store, y.execs[i]);
      StepOnRecord(y.store, y.execs[i], step);
  }

  lemma {:induction false} ExecKeepsFence(y: System, evs: seq<Event>, i: nat)
    requires Inv(y) && IsRun(y, evs) && i < |y.execs| && Fenced(y.store, y.execs[i].id, y.execs[i].lease.token)
    ensures
      var z := After(y, evs);
      && i < |z.execs| && z.execs[i].id == y.execs[i].id && z.execs[i].lease.token == y.execs[i].lease.token
      && Fenced(z.store, z.execs[i].id, z.execs[i].lease.token)
    decreases |evs|
  {
    if evs != [] {
      var ev := evs[0];
      NextKeepsInv(y, ev);
      NextKeepsFence(y, ev, y.execs[i].id, y.execs[i].lease.token);
      if ev.Stepped? {
        assert ExecOk(y.store, y.execs[ev.i]);
        StepOnRecord(y.store, y.execs[ev.i], ev.step);
      }
      ExecKeepsFence(Next(y, ev), evs[1..], i);
    }
  }

  /** A worker whose record was taken over changes no record again, however long it stalls and whatever it tries. */
  lemma FencedWorkerHasNoEffect(y: System, evs: seq<Event>, i: nat, step: Step)
    requires Reachable(y) && IsRun(y, evs) && i < |y.execs| && Fenced(y.store, y.execs[i].id, y.execs[i].lease.token)
    requires Enabled(After(y, evs), Stepped(i, step))
    ensures Next(After(y, evs), Stepped(i, step)).store.records == After(y, evs).store.records
  {
    var z := After(y, evs);
    ReachableOk(y);
    RunKeepsInv(y, evs);
    ExecKeepsFence(y, evs, i);
    assert ExecOk(z.store, z.execs[i]);
    StepOnRecord(z.store, z.execs[i], step);
  }
}
