# Outbound queue, durable outbox, saturation monitor and command parser: models and proofs

This project models the concurrent parts of teloxide's outbound layer and the parser that deriving
`BotCommands` generates, and proves what they keep over every interleaving, every run or every input.
`dafny verify dfyconfig.toml` checks all of it.

## What is modelled

**The durable outbox.** `OutboxModel` states each store operation as a function on values; `claim_due` is
stated without any iteration order, by counting the due records ahead of each one. `OutboxStore` is the
in-memory store as an object: its methods update `records`, `byKey` and the two counters in place, sweep
and collect in arbitrary map order, sort and loop, and are proved equal to the functions. `OutboxRuns` is
about arbitrary sequences of calls with arbitrary clocks, and `OutboxLaws` tells what each call does, and
what follows from it under any later calls, by the fields of the records alone. `OutboxWorkers` puts any
number of workers over one store: each claimed record is driven by a state machine with one step per store
call, queue answer or executor event, under a heartbeat, and it may stall, lose its lease, get a store error
or crash between any two steps. `OutboxTheorems` has the bounds that cross the store/worker boundary, `OutboxOutcomes` what
becomes of a record after each answer of the queue or the executor, and `Backoff` the retry delay.
`OutboxTiming` puts the same workers on one monotone clock and follows a single execution, the
executions of one record, or all of them: those that are followed are punctual, the others do as they like.

**The outbound queue actor and its clients.** `ActorModel` holds the actor's four indexes over an abstract
scheduler (a set of pending and a set of in-flight jobs; admission picks any subset of the pending ones).
`ActorProtocol` is the step relation: clients enqueue, poll, start, complete and drop at any moment, tokens
are four-state atomics with one compare-and-swap or store per step, the ingress is a bounded FIFO, the
lifecycle channel an unbounded one, oneshots are cells, and the actor's loop is a program counter.
`ActorInvariant` is the inductive invariant, token by token and job by job, and `ActorFrames` what carries
it over where a step touches nothing; `ActorClients`, `ActorClientSteps`, `ActorSteps`, `ActorEnqueueSteps`,
`ActorReplySteps`, `ActorLifecycleSteps` and `ActorGrantSteps` show that each step keeps it; `ActorTheorems`
draws the conclusions. `ActorAnswers` keeps the history of all refusals beside the protocol and shows why
each acquire got its outcome, and that every answer reaches a future that is still polled; `ActorEndings` is
about the atomics of what is over and the way to the actor's stop, and `ActorDrain` shows that a deserted
queue comes to rest. `OutboundActor` is the actor as an object whose methods update the maps.
`ActorRefinement` shows that the handling of an enqueue and of a lifecycle command, the bounded drain with or
without a shutdown in it, the admission pass with its deliveries, and the shutdown are the corresponding
stretches of protocol steps: the same indexes, and on every client the effect of the method's writes in their
order.

**The saturation monitor.** `ThrottleState` is the state that the throttle adaptor's requests and monitors
share, as an object. `Saturation` is the step relation of requests and monitor tasks around its semaphore,
flag and clocks, and `SaturationRefinement` shows that a request's report and a monitor's round are stretches
of its steps.

**The generated command parser.** `CommandText` has string splitting, `CommandParser` the argument parsers
(the split parser also as the loop that is emitted), the dispatch and the whole `parse`. A field type is
the set of texts its `from_str` accepts; a parsed field is the text it was made from.

Two expectations of the parser hold only under a condition, and are proved with the exact one:

- "The split parser succeeds iff there is one piece per field and each parses": the guard `!s.is_empty()`
  lets the empty text through with pieces left over. `CommandParser.SplitSucceedsIffExact` gives the exact
  family, `CommandParser.EmptyTextIsNoExcess` a member of it.
- "Joined fields come back": only if the separator is first seen where each field ends, which for a
  separator of one letter means absent from every field. `CommandText.SplitAfterJoin` and
  `CommandParser.CommandRoundTrip` are equivalences.

The worker has a branch for an exhausted `begin_attempt` and the actor skips grants without a token; both
are shown to be unreachable (`OutboxTheorems.AttemptIsStable`, `ActorTheorems.DeliveryNeverSkips`).

## Model

| member | source | states |
|---|---|---|
| `OutboxStore.InMemoryOutboxStore.Enqueue` | crates/teloxide-core/src/outbound/outbox.rs:829-857 | a known key with the same request returns its id, with a different one conflicts, and leaves the store alone; an unknown key inserts one pending record under the next id; by fields, see the next two rows and `ReenqueueFindsOriginal` |
| `OutboxLaws.NewRequestIsPending` | crates/teloxide-core/src/outbound/outbox.rs:845-855 | a request whose key no record has gets a fresh id and a pending record with no attempt, claim or failure and exactly this request; no other record or key and no lease token moves |
| `OutboxLaws.NewRequestIsClaimed` | crates/teloxide-core/src/outbound/outbox.rs:845-905 | after any calls whose claims come before its time, a claim at or after its time takes the new record, or its batch is full of records that precede it by (`available_at`, id) |
| `OutboxStore.InMemoryOutboxStore.ClaimDue` | crates/teloxide-core/src/outbound/outbox.rs:859-921 | the sweep, the collection in arbitrary order, the sort and the loop leave exactly the store and return exactly the batch of the order-free specification; by fields, see `BatchIsFirstInOrder`, `TakenRecord`, `UntakenRecord` and `ExhaustedFailIffMet` |
| `OutboxStore.InMemoryOutboxStore.RenewLease` | crates/teloxide-core/src/outbound/outbox.rs:923-939 | a current lease gets the new expiry and keeps worker and token; otherwise the error names the reason and nothing changes |
| `OutboxStore.InMemoryOutboxStore.BeginAttempt` | crates/teloxide-core/src/outbound/outbox.rs:941-958 | under a current lease the attempt counter grows by one up to its limit; nothing else changes |
| `OutboxStore.InMemoryOutboxStore.Complete` | crates/teloxide-core/src/outbound/outbox.rs:960-984 | an armed failure is spent first; otherwise the record is completed under a current lease only |
| `OutboxStore.InMemoryOutboxStore.Reschedule` | crates/teloxide-core/src/outbound/outbox.rs:986-1003 | under a current lease the record is pending again at the new time, with the failure noted |
| `OutboxStore.InMemoryOutboxStore.Fail` | crates/teloxide-core/src/outbound/outbox.rs:1005-1021 | under a current lease the record fails with that reason |
| `OutboxLaws.RefusedIffNotHeld` | crates/teloxide-core/src/outbound/outbox.rs:816-824 | a lease-aware call is refused exactly if the record is missing, not claimed, claimed by another worker or under another token, or expired, or an armed failure is spent; a refusal changes no record |
| `OutboxLaws.RenewalExtends` | crates/teloxide-core/src/outbound/outbox.rs:923-939 | an accepted renewal moves the expiry on the record and in the reply, and nothing else |
| `OutboxLaws.BeginCounts` | crates/teloxide-core/src/outbound/outbox.rs:941-958 | an accepted begin counts exactly one attempt, unless all are used up |
| `OutboxLaws.EndIsFinal` | crates/teloxide-core/src/outbound/outbox.rs:960-1021 | an accepted completion or failure leaves the record completed, or failed with the given reason, after any later calls |
| `OutboxLaws.RescheduledWaits` | crates/teloxide-core/src/outbound/outbox.rs:986-1003 | an accepted reschedule leaves the record pending at the new time with the failure noted, and it stays so through any calls until a claim at that time |
| `OutboxLaws.RescheduledReturns` | crates/teloxide-core/src/outbound/outbox.rs:859-1003 | at that time a claim takes it, if it has attempts left, or is full of records that precede it |
| `OutboxLaws.PendingWaits` | crates/teloxide-core/src/outbound/outbox.rs:874-881 | no call whatever touches a pending record before its time |
| `OutboxStore.SortByDueTime` | crates/teloxide-core/src/outbound/outbox.rs:882-885 | the due ids come out in (`available_at`, id) order, the same ids |
| `OutboxRuns.BatchIsFirstInOrder` | crates/teloxide-core/src/outbound/outbox.rs:859-921 | every claimed record had its `available_at` reached, was pending or under an expired lease, and had attempts left; batch order is (`available_at`, id), tokens are fresh and increasing, the size is at most `limit`; a record with those fields is left out only behind a full batch |
| `OutboxLaws.TakenRecord` | crates/teloxide-core/src/outbound/outbox.rs:895-914 | what a claim writes and returns: the lease with worker and expiry, one more claim, and request, attempt and last failure as they were |
| `OutboxLaws.UntakenRecord` | crates/teloxide-core/src/outbound/outbox.rs:868-893 | any other record keeps everything but its status; an expired lease is returned, and only a spent record whose time has come may fail |
| `OutboxRuns.ExhaustedFailIffMet` | crates/teloxide-core/src/outbound/outbox.rs:888-898 | a spent record whose time has come fails as exhausted exactly if it is met before the batch is full; otherwise it is pending |
| `OutboxRuns.TokensDiffer` | crates/teloxide-core/src/outbound/outbox.rs:892-905 | within one call, tokens differ and follow the claim order |
| `OutboxRuns.OneRecordPerKey` | crates/teloxide-core/src/outbound/outbox.rs:829-857 | after any calls two records never share a key |
| `OutboxRuns.ReenqueueFindsOriginal` | crates/teloxide-core/src/outbound/outbox.rs:809-857 | after any calls, reschedules and terminal transitions included, enqueueing again gives the original id if payload, version, metadata and attempt limit are the same, conflicts with it if any of them differs, and leaves the store as it is |
| `OutboxRuns.TerminalForever` | crates/teloxide-core/src/outbound/outbox.rs:868-1020 | a completed or failed record never changes again under any calls |
| `OutboxRuns.PlayKeepsTokens` | crates/teloxide-core/src/outbound/outbox.rs:892-905 | over any calls the token counter never decreases and no record holds a token that was not issued |
| `OutboxRuns.ClaimFencesOlderTokens` | crates/teloxide-core/src/outbound/outbox.rs:892-905 | taking a record fences every token issued before |
| `OutboxRuns.EndingFencesOwnToken` | crates/teloxide-core/src/outbound/outbox.rs:960-1021 | completing, rescheduling or failing a record fences the token it was done with |
| `OutboxRuns.FencedForever` | crates/teloxide-core/src/outbound/outbox.rs:816-824 | after any further calls and whatever the clocks read, every operation with a fenced token changes no record and gets `LeaseMismatch`, or the armed failure |
| `OutboxRuns.OldSnapshotSurvivesRenewal` | crates/teloxide-core/src/outbound/outbox.rs:816-824 | an operation created with the lease from before a renewal has the same effect as one with the renewed lease |
| `Backoff.TransientBackoff` | crates/teloxide-core/src/outbound/outbox.rs:665-674 | the loop with bounded doubling computes min(base * 2^(attempt-1), max) over unbounded integers, overflow included |
| `Backoff.DelayGrows` | crates/teloxide-core/src/outbound/outbox.rs:665-674 | the delay is monotone in the attempt and never above the maximum |
| `OutboxWorkers.NextKeepsInv` | crates/teloxide-core/src/outbound/outbox.rs:506-638 | every event of every worker keeps the joint invariant: counters count claimed and begun executions, tokens identify executions, each claimed record has its holder, each phase has the attempt it relies on |
| `OutboxTheorems.ExecutionBound` | crates/teloxide-core/src/outbound/outbox.rs:566-588 | in every reachable state, executor calls <= attempt <= min(`max_attempts`, `claim_count`) |
| `OutboxTheorems.ClaimAccounting` | crates/teloxide-core/src/outbound/outbox.rs:895-957 | `claim_count` exceeds `attempt` by exactly the claims that did not begin |
| `OutboxTheorems.BeginStartsNextAttempt` | crates/teloxide-core/src/outbound/outbox.rs:566-581 | `begin_attempt` of a worker counts the claimed snapshot's attempt plus one and lets it start, or, without the lease, changes nothing and ends the execution |
| `OutboxTheorems.AttemptIsStable` | crates/teloxide-core/src/outbound/outbox.rs:895-956 | in every reachable state the stored attempt is the holder's snapshot until it begins, then one more, and no worker is in the exhausted branch |
| `OutboxOutcomes.UnavailableQueueReschedules` | crates/teloxide-core/src/outbound/outbox.rs:529-563 | a full or closed queue or a superseded request costs no attempt and never fails the record: whatever happens until the store call, a held lease puts it back for the configured delay, a lost one changes nothing |
| `OutboxOutcomes.RejectedRequestFails` | crates/teloxide-core/src/outbound/outbox.rs:541-551 | a request that can never be admitted fails permanently under a held lease, whatever happens until the store call, and changes nothing without it |
| `OutboxOutcomes.ReturnDecidesRecord` | crates/teloxide-core/src/outbound/outbox.rs:588-662 | from the executor's return over the permit's completion to the store call, with any events of anyone in between: under a held lease success completes, permanent failure fails, a transient failure or an asked wait reschedules by the backoff or the wait, or fails as exhausted at the limit; without the lease nothing changes |
| `OutboxOutcomes.UndisturbedExecution` | crates/teloxide-core/src/outbound/outbox.rs:506-662 | and that way exists: a claimed record whose lease lasts is executed exactly once, as its next attempt, and decided by the answer |
| `OutboxOutcomes.RetryAfterIsRespected` | crates/teloxide-core/src/outbound/outbox.rs:599-616 | with attempts left and the lease held, after an asked wait (whose end the clock can represent) the record is pending, and no claim before the wait is over starts an execution of it, in any run |
| `OutboxOutcomes.PendingIsNotExecuted` | crates/teloxide-core/src/outbound/outbox.rs:874-881 | in any run a pending record stays as it is and gets no new execution from claims before its time |
| `OutboxOutcomes.LostLeaseStopsExecution` | crates/teloxide-core/src/outbound/outbox.rs:368-393 | a renewal or begin without the lease changes nothing, and the execution takes no step in any run after it |
| `OutboxOutcomes.HeldRenewalExtends` | crates/teloxide-core/src/outbound/outbox.rs:380-388 | a renewal under a held lease moves the expiry on the record and in the heartbeat |
| `OutboxTheorems.CompletedOnlyByHolder` | crates/teloxide-core/src/outbound/outbox.rs:588-598 | a record becomes completed only by the execution whose executor succeeded and whose worker, token and unexpired lease are on the record |
| `OutboxTheorems.SuccessComesFromExecutor` | crates/teloxide-core/src/outbound/outbox.rs:588-590 | only an Ok of the executor marks an execution as succeeded |
| `OutboxTheorems.MovesAreBounded` | crates/teloxide-core/src/outbound/outbox.rs:640-662 | every claim, begin, expiry, reschedule or terminal transition of a record lowers its potential, as long as claims reach `begin_attempt`; so a run holds at most that many |
| `OutboxTheorems.ClaimedAtMostMaxAttempts` | crates/teloxide-core/src/outbound/outbox.rs:868-905 | if every claim reaches `begin_attempt`, a record is claimed at most `max_attempts` times |
| `OutboxTheorems.MovesPerAttempt` | crates/teloxide-core/src/outbound/outbox.rs:640-662 | and in any run it is moved at most three times per allowed attempt, and three more |
| `OutboxTheorems.FencedWorkerHasNoEffect` | crates/teloxide-core/src/outbound/outbox.rs:506-638 | a worker whose record was taken over changes no record again, however long it stalls and whatever step it takes |
| `OutboxTiming.PunctualExecutionKeepsLease` | crates/teloxide-core/src/outbound/outbox.rs:355-393 | an execution whose heartbeat rounds lag less than `lease_for - renew_period` from its claim on, whatever every other execution does: its lease is current at every instant, no claim on the clock can take its record, the record was given to nobody since, its pending renewal succeeds, and its lease is over a millisecond |
| `OutboxTiming.PunctualExecutionIsUndisturbed` | crates/teloxide-core/src/outbound/outbox.rs:816-824 | and no step of any other execution, late or hung as it may be, changes its record |
| `OutboxTiming.PunctualRecordHasOneExecution` | crates/teloxide-core/src/outbound/outbox.rs:506-588 | if the executions of one record are punctual, no two of them are live together, whatever happens on other records |
| `OutboxTiming.TimedMutualExclusion` | crates/teloxide-core/src/outbound/outbox.rs:355-393 | with everyone punctual, every driven lease is current and every driven record has one driver |
| `OutboxTiming.OverdueLeaseCurrentIffWithinLag` | crates/teloxide-core/src/outbound/outbox.rs:355-393 | after a run in which this one execution was punctual, once its timer is due, its lease is current if and only if its lag is below that bound |
| `OutboxTiming.LateHeartbeatAdmitsSecondExecution` | crates/teloxide-core/src/outbound/outbox.rs:506-588 | beyond the bound, a claim takes the record of a driven execution, unless its batch fills up first, and a second live execution drives it |
| `OutboundActor.QueueActor.ForgetJob` | crates/teloxide-core/src/outbound/actor.rs:1014-1020 | the job leaves the three token indexes and its atomic, if still known, ends |
| `OutboundActor.QueueActor.HandleEnqueue` | crates/teloxide-core/src/outbound/actor.rs:1030-1125 | the indexes and the ordered writes for every case: a lost acceptance and a refusal end the atomic and tell the reason, an admission tells the job and, if it replaces one, its waiter; a reply receiver that is gone withdraws the job |
| `OutboundActor.AdmissionEffects` | crates/teloxide-core/src/outbound/actor.rs:1082-1105 | an admission by the indexes: the new job is pending and waited for exactly if its caller is still there, the replaced one is not, and both callers are told |
| `OutboundActor.QueueActor.HandleCommand` | crates/teloxide-core/src/outbound/actor.rs:1126-1161 | indexes after a cancellation, completion or other command, and the ended atomics and dropped senders in the order they are written |
| `OutboundActor.CommandEffects` | crates/teloxide-core/src/outbound/actor.rs:1126-1161 | a cancelled job leaves the scheduler, the waiters and the token indexes, a completed one the in-flight set and the token indexes, their atomics end, and every other command leaves all indexes alone |
| `OutboundActor.QueueActor.DeliverGrants` | crates/teloxide-core/src/outbound/actor.rs:1222-1241 | each grant with a known token reaches its waiter as a permit or comes back as a completion, in grant order |
| `OutboundActor.EveryGrantIsDelivered` | crates/teloxide-core/src/outbound/actor.rs:1222-1241 | each grant with token, atomic and waiter ends as a permit in its waiter's channel, if that is open, or as a completion of its own token |
| `OutboundActor.QueueActor.ShutdownWaiters` | crates/teloxide-core/src/outbound/actor.rs:1243-1247 | every waiter is told `Closed` exactly once, in whatever order the map yields them, and no other index changes |
| `OutboundActor.QueueActor.RunAdmission` | crates/teloxide-core/src/outbound/actor.rs:1250-1255 | the chosen jobs move from pending to in flight before any of them is delivered |
| `OutboundActor.QueueActor.DrainLifecycle` | crates/teloxide-core/src/outbound/actor.rs:1302-1315 | the drain handles the first 64 queued commands in order, or all, with their writes; a shutdown among them ends it after the commands before, and closes every waiter |
| `ActorRefinement.EnqueueRefines` | crates/teloxide-core/src/outbound/actor.rs:1030-1125 | the enqueue method is the protocol's enqueue run without a break: same indexes, same effect on every client |
| `ActorRefinement.HandlePerformed` | crates/teloxide-core/src/outbound/actor.rs:1126-1161 | handling one command does to the clients what the protocol's step does, write by write |
| `ActorRefinement.DrainRefines` | crates/teloxide-core/src/outbound/actor.rs:1302-1315 | so does the bounded drain: same indexes, same channel, same effect on every client |
| `ActorRefinement.ShutdownRefines` | crates/teloxide-core/src/outbound/actor.rs:1243-1247 | closing the waiters in any order is the protocol's shutdown, up to the dropped ingress |
| `ActorRefinement.DrainToShutdownRefines` | crates/teloxide-core/src/outbound/actor.rs:1302-1309 | a shutdown inside the drain: the commands before it, then every waiter, in that order |
| `ActorRefinement.DeliveryRefines` | crates/teloxide-core/src/outbound/actor.rs:1222-1241 | grant delivery in any reachable state: same permits, same returned completions, same indexes |
| `ActorRefinement.AdmissionPassRefines` | crates/teloxide-core/src/outbound/actor.rs:1250-1255 | the admission pass is the scheduler's choice, every delivery and the way to the wait point |
| `ActorTheorems.NextKeepsInv` | crates/teloxide-core/src/outbound/actor.rs:1028-1161 | every step of the actor or a client keeps the invariant of the protocol |
| `ActorTheorems.EveryJobIsOwned` | crates/teloxide-core/src/outbound/actor.rs:709-773 | in every reachable state a pending job has, while the actor runs, a live future, a drop that will cancel it or a queued `Cancel`; an in-flight job has a permit somewhere, is being delivered, or has its `Complete` queued |
| `ActorTheorems.NothingIsLeaked` | crates/teloxide-core/src/outbound/actor.rs:1213-1221 | when all clients are gone and the lifecycle channel is drained, nothing is pending or in flight and every index is empty |
| `ActorDrain.EverythingDrains` | crates/teloxide-core/src/outbound/actor.rs:1278-1363 | once all clients are gone, the actor's own moves come to that state, with an empty ingress too, within a number of steps known beforehand, whatever the scheduler grants or admits meanwhile |
| `ActorTheorems.IndexAgreement` | crates/teloxide-core/src/outbound/actor.rs:1014-1132 | between commands the two token maps are inverse, the atomics are those of the same tokens, the waiters are the pending jobs, and mapped jobs are pending or in flight |
| `ActorTheorems.MapsEmptyWithScheduler` | crates/teloxide-core/src/outbound/actor.rs:1082-1132 | when the scheduler is empty, so is every map |
| `ActorTheorems.DeliveryNeverSkips` | crates/teloxide-core/src/outbound/actor.rs:1222-1241 | every grant finds its token, its atomic and its own waiter |
| `ActorTheorems.ResolvesOnce` | crates/teloxide-core/src/outbound/actor.rs:671-760 | no acquire resolves twice |
| `ActorTheorems.OneCompletionPerPermit` | crates/teloxide-core/src/outbound/actor.rs:871-959 | a granted job has no completion while its permit exists and exactly one ever after, with its own token, and at most one start, earlier |
| `ActorTheorems.SupersededNeverGranted` | crates/teloxide-core/src/outbound/actor.rs:1083-1092 | a replaced acquire never gets a permit |
| `ActorTheorems.OutcomeIsTrue` | crates/teloxide-core/src/outbound/actor.rs:737-760 | a resolved permit or supersession is about the acquire's own job, which was granted or replaced |
| `ActorAnswers.NextKeepsAnswers` | crates/teloxide-core/src/outbound/actor.rs:1030-1125 | every step keeps the history of refusals and outcomes: each refusal was made by the scheduler for this token with this reason, by a lost acceptance, or by a full ingress |
| `ActorAnswers.OutcomeIsDecided` | crates/teloxide-core/src/outbound/actor.rs:671-760 | over any run an acquire that was refused got exactly that reason, one whose job was granted its permit, one whose job was replaced the news of it, and only the others, while the actor stops, a closed queue |
| `ActorAnswers.AnswerReachesCaller` | crates/teloxide-core/src/outbound/actor.rs:1041-1125 | and a future that is still polled will get just that: the reason, the permit, the news, or nothing while its request is in the ingress or its job pending |
| `ActorEndings.AtomicTellsProgress` | crates/teloxide-core/src/outbound/actor.rs:1014-1125 | between commands the atomic of a refused request, or of one whose job is neither pending nor in flight, is TERMINAL; of a pending one ACCEPTED or CANCELLED; in the ingress PENDING or CANCELLED |
| `ActorEndings.ToldToStop` | crates/teloxide-core/src/outbound/actor.rs:1302-1356 | a shutdown command or a closed ingress brings the actor to its end by closing every waiter, and leaves it nothing else to do |
| `ActorEndings.WakesToDrain` | crates/teloxide-core/src/outbound/actor.rs:1297-1360 | every other wake-up leads to a full drain and, once the channel is empty, an admission pass |
| `ActorTheorems.ShutdownResolvesAll` | crates/teloxide-core/src/outbound/actor.rs:1243-1247 | after the actor stops every outstanding acquire resolves, with `Closed` unless a permit, a supersession or a refusal was already buffered for it |
| `ActorTheorems.TokenStep` | crates/teloxide-core/src/outbound/actor.rs:121-133 | every step moves every atomic forward only |
| `ActorTheorems.TerminalIsAbsorbing` | crates/teloxide-core/src/outbound/actor.rs:1014-1020 | TERMINAL is never left, in any run |
| `ActorTheorems.OneCancelPerToken` | crates/teloxide-core/src/outbound/actor.rs:709-773 | at most one `Cancel` is ever sent per token |
| `ActorTheorems.CancelledEarlyNeverScheduled` | crates/teloxide-core/src/outbound/actor.rs:1041-1053 | a request cancelled before the acceptance never gets a job in any continuation, and the actor is never replacing another job on its behalf, so it never supersedes its predecessor |
| `ActorTheorems.ParkedIsClean` | crates/teloxide-core/src/outbound/actor.rs:1318-1333 | at every wait point an admission pass has run since the last handled command |
| `ActorTheorems.CompletionsPrecedeGrant` | crates/teloxide-core/src/outbound/actor.rs:1285-1333 | a completion among the first 64 queued commands when an enqueue is taken is applied before the next admission pass |
| `ThrottleState.CompatState.NotifyQueueFull` | crates/teloxide-core/src/adaptors/throttle_compat.rs:423-434 | if the last firing is more than four seconds back the callback fires and that is the last firing, otherwise neither changes |
| `ThrottleState.CompatState.ReportFullBacklog` | crates/teloxide-core/src/adaptors/throttle_compat/request.rs:221-237 | a request that took the last slot defers during a freeze, otherwise fires if the last firing is more than the delay back; the flag is up, and it spawns a monitor iff it was down |
| `ThrottleState.CompatState.RunMonitorRound` | crates/teloxide-core/src/adaptors/throttle_compat.rs:488-518 | one round of the monitor by its fields: a freeze waits, a deferred event fires if due and the actor is alive and ends the monitor if not, a free slot ends it with the flag down and the slot given back, a full backlog fires if due |
| `SaturationRefinement.ReportRefines` | crates/teloxide-core/src/adaptors/throttle_compat/request.rs:221-237 | the report is what a request's own steps do between acceptance and grant |
| `SaturationRefinement.MonitorRoundRefines` | crates/teloxide-core/src/adaptors/throttle_compat.rs:488-518 | the round is what a monitor's own steps do between two sleeps, one access each, the flag before the slot |
| `Saturation.NextKeepsInv` | crates/teloxide-core/src/adaptors/throttle_compat.rs:480-519 | every step of a request or monitor keeps: slots are conserved, the flag is up exactly for one watching or starting monitor, a full backlog is watched or about to be |
| `Saturation.OneMonitor` | crates/teloxide-core/src/adaptors/throttle_compat.rs:468-519 | at most one monitor is active |
| `Saturation.FiringsApart` | crates/teloxide-core/src/adaptors/throttle_compat.rs:423-434 | any two firings are more than four seconds apart |
| `Saturation.NotificationFiresIffDue` | crates/teloxide-core/src/adaptors/throttle_compat.rs:423-434 | after any run, a request or monitor that notifies fires exactly if the last firing, or the start, is more than four seconds back; nothing else fires |
| `Saturation.OnlyLastSlotReports` | crates/teloxide-core/src/adaptors/throttle_compat/request.rs:185-221 | a request reports exactly if no slot was free when it looked |
| `Saturation.ReportHeedsFreeze` | crates/teloxide-core/src/adaptors/throttle_compat/request.rs:231-235 | its report is deferred during a freeze, and fired or found too early otherwise |
| `Saturation.DeferredIsKept` | crates/teloxide-core/src/adaptors/throttle_compat.rs:493-507 | a deferred report stays until a monitor takes it or a failed grant drops it |
| `Saturation.ThawTakesDeferred` | crates/teloxide-core/src/adaptors/throttle_compat.rs:493-507 | the first wake-up outside a freeze takes it, and brings it to a living actor |
| `Saturation.DeadActorDropsDeferred` | crates/teloxide-core/src/adaptors/throttle_compat/request.rs:246-256 | a request whose grant failed clears the deferred report; a monitor that gets no answer from a dead actor takes the flag down and ends |
| `Saturation.MonitorHeedsBacklog` | crates/teloxide-core/src/adaptors/throttle_compat.rs:480-518 | the monitor sleeps past the freeze or past the delay, and refires exactly while no slot is free |
| `Saturation.FreezeIsLatest` | crates/teloxide-core/src/adaptors/throttle_compat.rs:452-458 | the freeze deadline is the latest ever recorded |
| `Saturation.FreezeIsLatestOfRun` | crates/teloxide-core/src/adaptors/throttle_compat.rs:452-458 | over any run it only moves forward, to the latest deadline asked for in it |
| `Saturation.FullBacklogIsWatched` | crates/teloxide-core/src/adaptors/throttle_compat.rs:468-519 | while the queue actor lives, a backlog with all slots held by requests that are past their calls has exactly one active monitor |
| `CommandText.JoinAfterSplit` | crates/teloxide-macros/src/fields_parse.rs:137 | splitting loses nothing, for every text and separator |
| `CommandText.SplitAfterJoin` | crates/teloxide-macros/src/fields_parse.rs:137 | joined pieces come back iff the separator is first seen where each piece ends |
| `CommandParser.RunSplitParser` | crates/teloxide-macros/src/fields_parse.rs:110-151 | taking one piece per field and looking for what is left has the outcome determined by the pieces |
| `CommandParser.SplitOutcome` | crates/teloxide-macros/src/fields_parse.rs:110-151 | each outcome from the pieces alone: success, `IncorrectFormat` with the first refused piece, and `TooFew`/`TooMany` with the true number of pieces |
| `CommandParser.SplitSucceedsIffExact` | crates/teloxide-macros/src/fields_parse.rs:137-148 | success is exactly one accepted piece per field, except for the empty text with fewer fields than pieces |
| `CommandParser.EmptyTextIsNoExcess` | crates/teloxide-macros/src/fields_parse.rs:142 | the empty text has a piece too many for no fields and still succeeds |
| `CommandParser.SplitParserRoundTrip` | crates/teloxide-macros/src/fields_parse.rs:110-151 | joined fields are handed over verbatim iff they can be told apart and are accepted |
| `CommandParser.DispatchOrder` | crates/teloxide-macros/src/bot_commands.rs:130-138 | a command selects the first variant of that name, and only without one the first with that alias |
| `CommandParser.NoneSelected` | crates/teloxide-macros/src/bot_commands.rs:130-138 | a command is unknown iff it is no variant's name or alias |
| `CommandParser.UnknownIsReported` | crates/teloxide-macros/src/bot_commands.rs:130-139 | a command word that is no variant's name or alias is reported as unknown, by itself |
| `CommandParser.CommandRoundTrip` | crates/teloxide-macros/src/bot_commands.rs:108-139 | a text built from a spelling, optional `@bot` in any ASCII case, the separator and joined fields parses to the selected variant with the fields verbatim, iff the fields can be told apart and are accepted |
| `CommandParser.OneLetterRoundTrip` | crates/teloxide-macros/src/bot_commands.rs:108-139 | for one-letter separators absent from what they delimit, the first variant of that name gets every field |
| `CommandParser.DefaultRoundTrip` | crates/teloxide-macros/src/fields_parse.rs:80-94 | the default parser gets everything after the separator, separators included, or the empty text without one |
| `CommandParser.CustomRoundTrip` | crates/teloxide-macros/src/fields_parse.rs:104 | a custom function gets everything after the separator, or the empty text without one, and its answer is the answer |
| `CommandParser.UnitRoundTrip` | crates/teloxide-macros/src/fields_parse.rs:32-36 | a unit variant is selected with or without arguments and ignores them |
| `CommandParser.OtherBotIsRefused` | crates/teloxide-macros/src/bot_commands.rs:122-127 | a command for another bot gives `WrongBotName`, known command or not |
| `CommandParser.BotCaseIsIrrelevant` | crates/teloxide-macros/src/bot_commands.rs:125 | for any text, names equal up to ASCII case parse alike |
| `CommandText.CaseIsLetterByLetter` | crates/teloxide-macros/src/bot_commands.rs:125 | equal up to ASCII case means letter by letter the same character or the same of the 26 letters; nothing else is confused |
| `CommandParser.OnlyPlainSpellingsSelect` | crates/teloxide-macros/src/bot_commands.rs:116-138 | whatever the text, a variant is only ever selected by a spelling without `@` and without the command separator |

## Left out

- The real scheduling policy (priorities, aging, windows, lanes, penalties, reservations): admission picks any subset of the pending jobs, and nothing is said about rate budgets or order.
- Limits, class limits, snapshots, penalties and observer commands are one command that leaves the indexes alone; log lines, correlation ids and the containment of panics are not modelled.
- Tokio itself: `select!` is a nondeterministic choice, channels are sequences, an atomic access or oneshot operation is one step.
- Wrap-around of the 64-bit id and token counters and of the 32-bit attempt and claim counters.
- Some adjacent writes of the actor are one step: a permit that finds nobody and the completion its drop sends; a lost acceptance and its TERMINAL store; a refusal's reply and the drop of its grant sender; TERMINAL and the drop of a sender when a job is cancelled or withdrawn; the two TERMINAL stores of a completion. No other party writes to these cells in between.
- The actor may stop for a closed ingress whenever the ingress is empty, not only when the last handle is gone.
- After the actor has stopped, commands are still recorded as issued although nobody receives them.
- When a time addition overflows, the source falls back to a second reading of the clock; the model uses the first one.
- The poisoned-mutex error of the store, its accessors, and the hook that delays a completion.
- `run_once` and `run_until`: their batches and concurrency are any interleaving of the modelled executions; the zero-lease check is an assumption of the claim event.
- The permit inside a worker: acquiring it is one queue answer, completing it one step before the report.
- Executor side effects and HTTP; the executor is its returned outcome.
- OutboxTiming.PunctualExecutionKeepsLease: punctuality includes clock readings at least one lease away from the last representable instant, where expiries do not saturate.
- The silence of `on_queue_full` during a freeze and exactly-once delivery of a deferred event: the check and the callback are separated by an await and by the rate limit, so neither holds in general.
- The translation between legacy and outbound limits in the throttle adaptor.
- Values of fields beyond the text they were parsed from, the messages inside parse errors, rename rules, descriptions, and every generated function other than `parse`.
- Attributes rejected at compile time (the default parser with other than one field).
