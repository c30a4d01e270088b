# Verified model of the instructed event store and its workers

This project models the parts of the `instructed` event store whose correctness depends on
interleaving: the work queue behind persistent subscriptions, the routing and processing workers
on top of it, process-manager state, optimistic command execution with snapshots, the consistency
wait, and the bank-account example that runs on all of them. Everything is proved for every run.

Each stored procedure is one atomic step. A run is a sequence of actions of any number of
workers; an action that is not enabled changes nothing, so crashes, lost leases, takeovers, repeated
calls and calls of displaced workers are all runs. A call takes effect before its worker's next
action or not at all: a `route_batch` that its client gave up on and that executes after the same
worker has claimed and committed again is not a run, and `QueueTheorems.LateBatchReinserts` says
exactly what it would do. Time is a counter that only moves forward.

| file | content |
|---|---|
| `WorkQueue.dfy` | the work-queue procedures as functions on the subscription row and the work-item rows |
| `QueueStore.dfy` | the same procedures as methods that update the tables in place |
| `QueueProtocol.dfy` | the interleaved machine, its history, and the inductive invariant |
| `QueueTheorems.dfy` | catch-up, routing, partition order, fencing, leases, rebuild |
| `Leases.dfy` | how long claims and heartbeats last, told from the clock; failures, start positions and the procedures' answers |
| `QueueRuns.dfy` | stretches of actions from which concrete runs are put together |
| `Clients.dfy` | one worker's view of the system: each call is a method of the store and an action of the machine at once |
| `Workers.dfy` | the routing and processing worker loops, refined to runs of the machine, and their progress |
| `ErrorPolicies.dfy` | error policies, their combinators, and the retry loop |
| `StreamCursor.dfy` | routing a single stream by version while the cursor holds global numbers |
| `Replay.dfy` | folding events, snapshots |
| `ProcessManagerState.dfy` | process-manager snapshots and staged states over the queue |
| `PmResets.dfy` | what process managers load when deletes and rebuilds keep their snapshots |
| `PmSubstrate.dfy` | one process-manager worker with its map of staged work |
| `AggregateProtocol.dfy` | interleaved command runners on one stream |
| `CommandProgress.dfy` | what becomes of a command whose append came too late |
| `ExplicitVersions.dfy` | what explicit expected versions cost the staged state and serialisability |
| `RunCommand.dfy` | the load, retry and snapshot loops of one runner among rivals, and `everyN` |
| `EventStore.dfy` | the append and read procedures on their tables, and the contiguity check |
| `Keys.dfy` | the string keys of streams, subscriptions and staged work |
| `Consistency.dfy` | the consistency wait |
| `Bank.dfy`, `Saga.dfy`, `SagaTheorems.dfy` | Account, Transfer and the transfer process manager |
| `SagaCommands.dfy` | the saga told from the commands that were sent |
| `SagaRedelivery.dfy`, `SagaRuns.dfy` | the saga when events are handled more than once, and two runs that go wrong |
| `GuardedDelivery.dfy`, `ReadModels.dfy` | the Balances and Transfers projections |

Where a law holds only under a condition, the condition is stated and shown to be exact:

* Routing by stream version and advancing by event number agree on `$all` only. The no-skip
  theorems are about `$all`. For another stream, polled while it grows,
  `StreamCursor.RoutedCompletelyIff` says for each schedule of reads when nothing is skipped: every
  read that does not end the stream ends at an event whose two numbers are equal.
  `StreamCursor.NeverSkipsIff` says when no schedule skips: the two numbers are equal for every
  event but the last. `StreamCursor.LiveStreamSkips` loses an event of the stream [1, 3, 5] although
  every read empties it. The comment at `sdks/typescript/src/consistency/consistency.ts:29-37`
  treats the two numbers as interchangeable; the code does not make them so.
* An explicit expected version may let events land past others the runner never loaded.
  Serialisability and snapshot agreement hold when events land right after the loaded ones, which
  the default assertion guarantees. That is exact for both over whole runs: for commands that tell
  what they saw, `ExplicitVersions.SerialisableIffSafe` proves a run serialisable if and only if it
  never does otherwise, and for the module that forgets nothing
  `ExplicitVersions.StagesFullIffSafe` proves the same of the states it stages.
  `ExplicitVersions.AnyVersionIsNotSerial` and `ExplicitVersions.AnyVersionSkipsEvents` are runs
  that break them; in `ExplicitVersions.HoleIsInherited` a later default command inherits the hole.
* Deleting or rebuilding a process-manager subscription keeps its snapshots, and a worker that
  loads one of its own version mixes the events of before the reset into its state. In every
  reachable state the worker that holds an item loads the rebuild fold if and only if the snapshot
  it finds, if any, is made of the events done below the item: `PmResets.RecordingLoadIff`, and
  `PmResets.LoadEqualsRebuildIff` for every module. Over whole runs every such load is the rebuild
  if and only if no worker loads a leftover of its own version for an item it holds:
  `PmResets.RunLoadsIffSafe`. `PmResets.RebuildMisleads` is a run that applies an event twice, and
  in `PmResets.WrongStateOutlivesAck` the acknowledgement hands the wrong state on;
  `ProcessManagerState.VersionBumpIsSafe` is the rebuild under a new version, which is safe.
* `complete_pm_instance` takes no worker id: `QueueTheorems.TerminationIsNotFenced`. Catch-up of
  a process manager therefore means handled or terminated.
* A transfer requested without a destination or without an id is debited and never credited:
  `SagaTheorems.RequestStrandsIff`. Money conservation carries that amount as its own term.
* Handling an event again after its command was dispatched makes the books off by exactly the
  debits whose second credit was accepted: `SagaRedelivery.RedeliveryCreates`, and
  `SagaRedelivery.ConservedIff` says when they balance. A caught-up process manager then has nothing
  in flight if and only if no termination took the item of a debit never handled:
  `SagaRedelivery.CaughtUpIff`. `SagaRuns.RedeliveryRun` creates money and
  `SagaRuns.CaughtUpInFlightRun` is caught up with money in flight for ever.
* A wait that returns normally has seen every listed projection caught up, but not at one moment
  unless nothing falls behind again, as after a rebuild: `Consistency.WaitForProjection`.
* The header comment of `examples/typescript/bank-account/src/process-managers/transfer-pm.ts`
  speaks of two commands at termination; the code dispatches one, and so does the model.
* `refKey` is not injective, so the wait can overlook a reference: `Consistency.PolledIff` says
  which ones are polled, `Consistency.NoColonsNoLoss` gives a sufficient condition.
* `exponentialBackoff` documents `min(capMs, baseMs * 2^(attempt - 1))` and clamps the exponent;
  `ErrorPolicies.ClampHarmlessIff` says exactly when the two agree.

Hypotheses used throughout: worker ids are distinct, `routeFn`, `apply` and `execute` are
deterministic functions, two workers with the same snapshot tag run the same `apply`, payloads
are opaque values, and numbers are unbounded. In the saga, amounts are whole and non-negative,
only the process manager sets `transferId` or sends mark commands, the log starts empty, and
every command runs on the full fold of its stream, which is what
`AggregateProtocol.StreamIsSerialRun` provides. Aggregates and process managers keep their
snapshots in one table and loads ignore the source type; the protocols assume that no two of them
share a key, which by `Keys.KeysDistinctIff` means that no type followed by a dash begins another.

## Model

| member | source | states |
|---|---|---|
| `QueueTheorems.CatchUpSound` | sdks/typescript/src/workers/processing/processing-worker.ts:405-467 | in every reachable state of a projection on `$all`, if the catch-up predicate holds at n, every routed event in (start, n] has a step of that run at which its handler returned successfully |
| `QueueTheorems.CatchUpSoundForPm` | sql/instructed.sql:2633-2692 | the same for a process manager, where the item may instead have been removed with its terminated partition |
| `QueueTheorems.CaughtUpIff` | sql/instructed.sql:2633-2692 | in every reachable state catch-up holds at n if and only if the subscription exists, its cursor is at least n and every routed event in (start, n] has ended: its completion is in the history or it was terminated, and done rows never block |
| `QueueTheorems.HandledMeansReturned` | sdks/typescript/src/workers/processing/processing-worker.ts:339-403 | the handled history holds only items whose handler returned at a step of the run |
| `QueueTheorems.CaughtUpIsStable` | sdks/typescript/src/client/client.ts:566-585 | short of a delete or rebuild, catch-up at n survives every continuation of every run |
| `QueueTheorems.RoutingIsOneSequentialPass` | sdks/typescript/src/workers/routing/routing-worker.ts:240-345 | with any number of routers, batch sizes, dropped batches and stolen leases, the items ever inserted are exactly those of one pass over (start, last_seen] |
| `QueueTheorems.AcceptedCommitIsNextStretch` | sql/instructed.sql:1838-1944 | a commit the store accepts runs at the very cursor its worker was granted, inserts the next stretch, and repeats nothing |
| `QueueProtocol.StepKeepsInv` | sql/instructed.sql:268-385 | one action of any worker keeps the joint invariant of cursors, batches, rows, claims, history and effects |
| `QueueProtocol.CommitExtendsPass` | sdks/typescript/src/workers/routing/routing-worker.ts:313-335 | the inductive heart of routing: an accepted batch extends the inserted set by precisely the decisions above the cursor |
| `QueueTheorems.PartitionShape` | sql/instructed.sql:2004-2103 | in every reachable partition an active or done row has only done rows before it |
| `QueueTheorems.PredecessorsSettled` | sdks/typescript/src/workers/processing/processing-worker.ts:469-507 | while a handler runs on e, every earlier event routed to its partition is closed and was handled or terminated |
| `QueueTheorems.CompletionOrder` | sql/instructed.sql:2140-2214 | completions by claimants are strictly increasing in each partition, hence at most one for each item |
| `QueueTheorems.EffectOrder` | sdks/typescript/src/workers/processing/processing-worker.ts:339-403 | before any effect of an event on the outside world, every earlier routed event of its partition had an effect |
| `QueueTheorems.TakeoverFences` | sdks/typescript/src/client/client.ts:379-493 | after a takeover and any further steps, the displaced worker's extend, complete and fail change no row and complete nothing |
| `QueueTheorems.TerminationIsNotFenced` | sdks/typescript/src/client/client.ts:495-517 | termination is the exception: a displaced worker removes the row its successor holds |
| `QueueTheorems.LeaseIsExclusive` | sql/instructed.sql:2052-2076 | until a claim's lease has passed no run of other workers claims, finishes or fails the item, short of termination and deletes |
| `QueueTheorems.TakeoverNeedsExpiry` | sql/instructed.sql:2052-2076 | another worker's claim of a held item succeeds exactly when its lease has passed |
| `QueueTheorems.SubscriptionLeaseIsExclusive` | sql/instructed.sql:1390-1535 | while the subscription lease runs no run of other routers moves the cursor or takes the lease |
| `Leases.ClaimLasts` | sql/instructed.sql:2004-2103 | after a claim accepted at time t for s seconds, no run of other workers, short of termination and deletes, takes, finishes or fails the item while the clock is at most t + s, and from then on anyone may take it |
| `Leases.HeartbeatLasts` | sql/instructed.sql:2732-2819 | the same after an accepted extension at time t by s seconds, whatever the lease was before |
| `Leases.SubscriptionClaimLasts` | sql/instructed.sql:1348-1548 | after an accepted claim of the subscription at t for s seconds nobody else moves its cursor or is granted it before t + s, and anyone is granted it from t + s on |
| `Leases.FreeIsGranted` | sql/instructed.sql:1390-1535 | a new, released or own subscription is granted at once, at its stored cursor |
| `Leases.ReleaseFrees` | sql/instructed.sql:1586-1645 | after the holder's release whoever asks next is granted it |
| `Leases.StartDecidesRouting` | sql/instructed.sql:1348-1548 | in every run the start position of the first claim decides what is ever routed: everything, what was appended after that claim, or what comes after a number; later claims decide nothing |
| `Leases.FailureStopsPartition` | sql/instructed.sql:2512-2592 | after an accepted failure no run without deletes and terminations hands out the item or anything behind it in its partition |
| `Leases.SubscriptionRepliesAreTrue` | sdks/typescript/src/client/client.ts:209-345 | what claim, release and batch commits answer says what the row then holds |
| `Leases.ItemRepliesAreTrue` | sdks/typescript/src/client/client.ts:379-517 | what the calls on an item answer says what the rows then hold, the count of a termination included |
| `QueueTheorems.NothingElseBlocks` | sql/instructed.sql:268-385 | when nothing is claimable every open row waits behind a failed row or a running lease of its own partition |
| `QueueTheorems.RebuildForgets` | tools/instructedctl/src/core/subscriptions.ts:205-238 | rebuild leaves cursor 0, no holder and no items |
| `QueueTheorems.RebuildRoutesAgain` | tools/instructedctl/src/core/subscriptions.ts:196-238 | re-routing after a rebuild inserts exactly the items of a first routing from the origin to the same cursor |
| `QueueTheorems.RebuildFencesRouters` | sdks/typescript/src/workers/routing/routing-worker.ts:313-335 | a router that claimed before the rebuild cannot commit its batch after it, whatever happens in between |
| `QueueTheorems.LateBatchReinserts` | sql/instructed.sql:1838-1944 | a late batch of the current holder is accepted, moves no cursor and inserts again exactly the finished items of its stretch; it changes nothing if and only if all of them still have rows |
| `QueueStore.Store.ClaimSubscription` | sql/instructed.sql:1348-1548 | refines the claim: granted when new, free, expired or already the caller's, with the stored cursor |
| `QueueStore.Store.ReleaseSubscription` | sql/instructed.sql:1586-1645 | refines the release: only the holder, cursor kept |
| `QueueStore.Store.RouteBatch` | sql/instructed.sql:1838-1944 | the insert loop refines the batch as one step: existing rows untouched, cursor monotone, only for the holder |
| `QueueStore.Store.FindClaimable` | sql/instructed.sql:2052-2080 | finds a row exactly when one is claimable and not locked, and then one of least event number |
| `QueueStore.Store.ClaimWorkItem` | sql/instructed.sql:2004-2103 | claims the earliest claimable row that no other transaction has locked, or reports that there is none |
| `QueueStore.Store.ExtendWorkItemClaim` | sql/instructed.sql:2732-2819 | refines the heartbeat: the claimant's row runs from now for the given seconds, checked by holder and not by expiry; `Leases.HeartbeatLasts` is what that is worth |
| `QueueStore.Store.CompleteWorkItemProjection` | sql/instructed.sql:2140-2214 | refines the projection ack: the claimant's row goes, otherwise nothing changes |
| `QueueStore.Store.CompleteWorkItemPm` | sql/instructed.sql:2264-2372 | refines the process-manager ack: the row becomes done and the snapshot is replaced, or neither |
| `QueueStore.Store.CompletePmInstance` | sql/instructed.sql:2413-2475 | refines termination: all rows and the snapshot of the partition go |
| `QueueStore.Store.FailWorkItem` | sql/instructed.sql:2512-2592 | refines the failure of a claimed row |
| `QueueStore.Store.IsSubscriptionCaughtUp` | sql/instructed.sql:2633-2692 | the row scan answers the catch-up predicate, whose meaning without the rows is `QueueTheorems.CaughtUpIff` |
| `QueueStore.Store.ListPmRebuildEvents` | sql/instructed.sql:2863-2944 | returns the partition's done events strictly below the bound, in event order |
| `QueueStore.Store.DeleteSubscription` | sql/instructed.sql:1682-1723 | refines the delete: row and work items go, no lease check |
| `QueueStore.Store.RebuildSubscription` | tools/instructedctl/src/core/subscriptions.ts:205-238 | the three calls of the rebuild compose to the one step of the machine |
| `Workers.RoutingWorker.RouteOneBatch` | sdks/typescript/src/workers/routing/routing-worker.ts:204-238 | None exactly for an empty batch, a stop or an invalid answer; otherwise the decisions and cursor of the sequential pass |
| `Workers.RoutingWorker.ReleaseQuietly` | sdks/typescript/src/workers/routing/routing-worker.ts:347-359 | afterwards the worker holds the lease only if the release call was lost |
| `Workers.RoutingWorker.Loop` | sdks/typescript/src/workers/routing/routing-worker.ts:240-345 | a run of the machine that adds routing actions only and aborts only on user code; it keeps the lease at the end only if a release never arrived or the answer to a claim was lost; when nobody else takes or resets the subscription and every call is answered, every four calls take the cursor a whole batch further, until the log is routed |
| `Workers.ProcessingWorker.RunHandler` | sdks/typescript/src/workers/processing/processing-worker.ts:339-403 | the loop goes through a sequence of policy states that starts empty, each handed on by the retry before it, and ends at the first run that returns, whose policy stops or throws, or before which the worker was stopped; a return is recorded exactly on success |
| `Workers.ProcessingWorker.Wait` | sdks/typescript/src/workers/processing/processing-worker.ts:286-331 | a heartbeat that fires leaves the claim running for the whole lease from now, or aborts the worker |
| `Workers.ProcessingWorker.Claim` | sdks/typescript/src/workers/processing/processing-worker.ts:469-507 | an answered claim is of an item of the log and runs for the whole lease from now; undisturbed it finds one if there is one |
| `ErrorPolicies.ExpectedIsCourse` | sdks/typescript/src/workers/processing/processing-worker.ts:339-403 | for every policy and all outcomes the expected result, which the rows on limits and failing handlers speak of, is that of such a course of states |
| `ErrorPolicies.CourseIsUnique` | sdks/typescript/src/workers/processing/processing-worker.ts:339-403 | there is one such course only, so it fixes the result and the number of runs |
| `Workers.ProcessingWorker.Acknowledge` | sdks/typescript/src/workers/pm/pm-substrate.ts:260-298 | of an item that goes on an ack is accepted exactly while the claim is held, of one that ends its instance whoever holds the rows; the snapshot is then the one handed in, or gone; a refusal changes no row and no snapshot and aborts the worker |
| `Workers.ProcessingWorker.ProcessOneItem` | sdks/typescript/src/workers/processing/processing-worker.ts:405-467 | an acknowledged item is the newest entry of the completion history and of a terminated instance no row is left; a failed payload read or a missing event leaves the worker running, every other failure stops it; undisturbed, the item is finished within a stated number of calls |
| `Workers.ProcessingWorker.Loop` | sdks/typescript/src/workers/processing/processing-worker.ts:469-507 | a run of the machine that adds processing actions only; undisturbed, with handlers that return within `tries` runs, it never aborts and ends with nothing claimable or with one blocking row less, and unless instances end one completion more, for every `tries + 2` calls |
| `Clients.ForeignRun` | sdks/typescript/src/workers/routing/routing-worker.ts:60-77 | no run of other workers moves this worker's local state or gives it a lease or claim |
| `Clients.CalmRun` | sql/instructed.sql:1520-1548 | short of claims, deletes and rebuilds, others move no cursor back, leave a held lease as it is and keep a free one free |
| `ErrorPolicies.NestedLimits` | sdks/typescript/src/workers/processing/error-policies.ts:173-197 | `retryUpTo(m, retryUpTo(n, p))` is `retryUpTo(min(m, n), p)` in decision and state |
| `ErrorPolicies.AlwaysFailingRuns` | sdks/typescript/src/workers/processing/error-policies.ts:151-197 | under `retryUpTo(n, p)` with p never stopping, a handler that always fails runs exactly n + 1 times |
| `ErrorPolicies.LimitedReturnsIff` | sdks/typescript/src/workers/processing/processing-worker.ts:339-403 | with a limit the item succeeds if and only if one of its first n + 1 runs would |
| `ErrorPolicies.EventuallyReturns` | sdks/typescript/src/workers/processing/processing-worker.ts:339-403 | a policy that never stops reaches the first successful run |
| `ErrorPolicies.ExponentialMonotone` | sdks/typescript/src/workers/processing/error-policies.ts:103-119 | unjittered delays never shrink and never exceed the cap |
| `ErrorPolicies.LinearMonotone` | sdks/typescript/src/workers/processing/error-policies.ts:137-149 | the same for linear backoff |
| `ErrorPolicies.ExponentialDoubles` | sdks/typescript/src/workers/processing/error-policies.ts:103-119 | the first delay is the base and each next one twice the one before, under the cap and up to the clamp; negative parameters are refused |
| `ErrorPolicies.LinearAdds` | sdks/typescript/src/workers/processing/error-policies.ts:137-149 | the first delay is the step and each next one a step more, under the cap; negative parameters are refused |
| `ErrorPolicies.LimitStops` | sdks/typescript/src/workers/processing/error-policies.ts:173-197 | `retryUpTo` takes limits from 1 on, leaves the inner policy alone up to the limit, and stops beyond it with the state as it was |
| `ErrorPolicies.ClampHarmlessIff` | sdks/typescript/src/workers/processing/error-policies.ts:94-119 | the clamped delay is the documented one exactly when the clamp is not reached or the cap or a zero base hides it |
| `ErrorPolicies.DefaultIsExponential` | sdks/typescript/src/workers/processing/processing-worker.ts:195-216 | the default policy equals `exponentialBackoff(100, 30000)` at every attempt despite different clamps |
| `StreamCursor.AllIsRouted` | sdks/typescript/src/workers/routing/routing-worker.ts:277-283 | on `$all` no schedule of reads and no batch size skips anything |
| `StreamCursor.RoutedCompletelyIff` | sdks/typescript/src/workers/routing/routing-worker.ts:277-300 | for every growing stream and schedule of reads, nothing the cursor passed was skipped if and only if every non-empty read that does not end the stream ends where number and version agree |
| `StreamCursor.NeverSkipsIff` | sdks/typescript/src/workers/routing/routing-worker.ts:204-238 | no schedule skips anything if and only if number and version agree on all events but the last |
| `StreamCursor.AheadCursorReadsNothing` | sdks/typescript/src/workers/routing/routing-worker.ts:277-300 | an event the cursor has passed unread is never read, whatever is appended and polled later |
| `StreamCursor.ReadsAreDisjoint` | sdks/typescript/src/workers/routing/routing-worker.ts:277-300 | no event is read twice |
| `StreamCursor.ReadIsSlice` | sdks/typescript/src/workers/routing/routing-worker.ts:277-283 | a read of the schedule gets as many rows as `read_stream` returns for one batch after the cursor |
| `StreamCursor.InterleavedStreamSkips` | sdks/typescript/src/workers/routing/routing-worker.ts:277-283 | a standing three-event stream whose last event is never routed, whatever follows |
| `StreamCursor.LiveStreamSkips` | sdks/typescript/src/workers/routing/routing-worker.ts:277-300 | the stream [1, 3, 5] polled after each append: every read empties it and the third event is never routed |
| `ProcessManagerState.SnapshotIsFoldOfOrigin` | sdks/typescript/src/workers/pm/pm-substrate.ts:260-298 | in every run, resets and wrong loads included, a snapshot tagged m is the fold of m's `apply` over its origin; unless a reset left it behind, its version is the last done event and the origin ends with the partition's done events |
| `ProcessManagerState.SnapshotIsFoldOfDone` | sdks/typescript/src/workers/pm/pm-substrate.ts:260-298 | in a run in which no worker loaded a leftover of its own version for an item it held, a snapshot written since the last reset is the fold of the partition's done events and nothing else |
| `ProcessManagerState.SnapshotLoadEqualsRebuild` | sdks/typescript/src/workers/pm/pm-substrate.ts:194-236 | in such a run, the worker that holds the item loads the same state from a matching snapshot that is no leftover and from the rebuild |
| `ProcessManagerState.AcceptedAckSaw` | sdks/typescript/src/workers/pm/pm-substrate.ts:243-299 | in every run, a worker whose ack will be accepted handled the fold of what it saw, which ends with exactly the done events below its event and then that event, across versions, takeovers and resets |
| `ProcessManagerState.AcceptedAckSawExactFold` | sdks/typescript/src/workers/pm/pm-substrate.ts:243-299 | in a run in which no worker loaded a leftover of its own version for an item it held, it saw nothing else |
| `ProcessManagerState.VersionBumpIsSafe` | tools/instructedctl/src/core/subscriptions.ts:196-238 | from any state, a run without further resets in which only versions read that no leftover snapshot carries loads no leftover |
| `ProcessManagerState.NoResetsNoLeftovers` | sdks/typescript/src/workers/pm/pm-substrate.ts:194-236 | without deletes and rebuilds there are no leftovers and every run meets the hypothesis of these theorems |
| `PmResets.LoadEqualsRebuildIff` | sdks/typescript/src/workers/pm/pm-substrate.ts:194-236 | in every reachable state of every run and for every module, the claimant loads the fold of a matching snapshot's origin, and the load is the rebuild if and only if no snapshot matches or origin and done events fold to one state |
| `PmResets.RecordingLoadIff` | sdks/typescript/src/workers/pm/pm-substrate.ts:194-236 | for the module that forgets nothing: if and only if no snapshot matches or its origin is the events done below the item |
| `PmResets.RunLoadsIffSafe` | sdks/typescript/src/workers/pm/pm-substrate.ts:194-236 | over whole runs, every load for a held item is the rebuild if no leftover of the loader's own version is loaded, and with modules whose state is never the initial one again only then |
| `PmResets.ResetLoadsIff` | tools/instructedctl/src/core/subscriptions.ts:205-238 | right after a delete or rebuild in any run, for every worker and key, what the load gives and when it is the rebuild: with a module that remembers, if and only if no snapshot of the partition carries the worker's tag |
| `PmResets.RebuildMisleads` | tools/instructedctl/src/core/subscriptions.ts:205-238 | a run that acknowledges, rebuilds, loads the state of before the rebuild and applies an event twice |
| `PmResets.WrongStateOutlivesAck` | tools/instructedctl/src/core/subscriptions.ts:205-238 | the same run acknowledges the wrong state, and the next load is wrong although no leftover is left |
| `ProcessManagerState.PmActionRefinesQueue` | sdks/typescript/src/workers/pm/pm-substrate.ts:239-299 | every process-manager action is at most one action of the queue machine |
| `ProcessManagerState.PriorIsExactly` | sql/instructed.sql:2863-2944 | what a rebuild folds for an item is, each once and in event order, exactly the events whose rows in its partition are done and whose numbers are below its own |
| `PmSubstrate.Substrate.LoadState` | sdks/typescript/src/workers/pm/pm-substrate.ts:194-236 | snapshot on a strict tag match, otherwise the rebuild fold, otherwise the not-found error |
| `PmSubstrate.Substrate.Handle` | sdks/typescript/src/workers/pm/pm-substrate.ts:243-259 | success stages exactly the applied state under the item's key; a throw leaves the map as it was |
| `PmSubstrate.Substrate.Complete` | sdks/typescript/src/workers/pm/pm-substrate.ts:260-298 | unstages one entry and performs the ack or the termination it calls for |
| `PmSubstrate.Substrate.HandleThenComplete` | sdks/typescript/src/workers/pm/pm-substrate.ts:260-270 | the branch for missing staged state is never reached, whatever others do to the tables in between, and other entries stay |
| `PmSubstrate.LoadStateIsTheProtocol` | sdks/typescript/src/workers/pm/pm-substrate.ts:194-236 | LoadState returns what the protocol's load steps load |
| `AggregateProtocol.StreamIsSerialRun` | sdks/typescript/src/aggregate/run-command.ts:304-353 | the stream is what running the accepted commands alone, in append order, each on the full fold before it, yields |
| `AggregateProtocol.StepIsAtomic` | sdks/typescript/src/aggregate/run-command.ts:459-519 | every interleaved step changes the store by at most one atomic step of the serial reference |
| `AggregateProtocol.LoadIsOwnFullFold` | sdks/typescript/src/aggregate/run-command.ts:476-518 | a finished load by any module version is that version's fold of the whole stream |
| `AggregateProtocol.StoredSnapshotIsFold` | sdks/typescript/src/aggregate/snapshots.ts:94-129 | racing writers and older snapshots over newer ones included, a stored snapshot is its own version's fold of a prefix |
| `AggregateProtocol.ExhaustionNeedsRivals` | sdks/typescript/src/aggregate/run-command.ts:278-358 | exhaustion takes exactly budget + 1 attempts and at least as many commits, all by others, during the call |
| `CommandProgress.ExplicitIsTriedOnce` | sdks/typescript/src/aggregate/run-command.ts:278-358 | in no run is a call with an explicit version ever in a second attempt |
| `CommandProgress.OvertakenCommandSettles` | sdks/typescript/src/aggregate/run-command.ts:304-358 | in every safe run a default command whose append came too late, with budget left, loads once more and, left alone, ends as if it had run on the stream as it now is |
| `AggregateProtocol.DefaultRunsAreSafe` | sdks/typescript/src/aggregate/run-command.ts:331-332 | without explicit expected versions every run meets the hypothesis of these theorems |
| `ExplicitVersions.SerialisableIffSafe` | sdks/typescript/src/aggregate/run-command.ts:304-353 | for commands that tell what they saw, every run is serialisable if and only if no explicit version was accepted with events between load and append |
| `ExplicitVersions.SubmitIsSerialIff` | sdks/typescript/src/aggregate/run-command.ts:304-353 | for every module, on a stream that is serial so far, an accepted submission keeps it serial if and only if the command emits on the whole stream what it emitted on the loaded state, as it does right after a correct load |
| `ExplicitVersions.AnyVersionIsNotSerial` | sdks/typescript/src/aggregate/run-command.ts:331-332 | a run with `any` whose stream is no serial run of its commits |
| `ExplicitVersions.StagesFullIffSafe` | sdks/typescript/src/aggregate/run-command.ts:429-447 | for the module that forgets nothing, every state staged in a run is the fold of the whole stream if and only if everything that landed did so right after what its runner had loaded |
| `ExplicitVersions.SafeRunStagesFull` | sdks/typescript/src/aggregate/run-command.ts:429-447 | for every module, if it did |
| `ExplicitVersions.StagedIsFullFold` | sdks/typescript/src/aggregate/run-command.ts:429-447 | for every module, when the loaded state is the fold of the loaded prefix, as in every run safe so far, events that land right after it stage the fold of the whole stream |
| `ExplicitVersions.StagedIsFullFoldIff` | sdks/typescript/src/aggregate/run-command.ts:429-447 | for the module that forgets nothing and such a loaded state, only then |
| `ExplicitVersions.HoleIsInherited` | sdks/typescript/src/aggregate/run-command.ts:331-332 | a run in which a later default command lands right after what it loaded and stages a state with the hole of an earlier `any` |
| `ExplicitVersions.AnyVersionSkipsEvents` | sdks/typescript/src/aggregate/run-command.ts:331-332 | a run with `any` that stores a snapshot with a hole |
| `RunCommand.Runner.LoadAggregate` | sdks/typescript/src/aggregate/run-command.ts:459-519 | the state of the whole stream among rivals; alone, exactly floor(folded / 500) + 1 page reads |
| `RunCommand.Runner.ExecuteCommand` | sdks/typescript/src/aggregate/run-command.ts:271-359 | every answer with what rivals alone would have left; exhaustion only after budget + 1 attempts and as many rival commits; an explicit version is tried once; alone, a command is one attempt of exactly its load and at most one append |
| `RunCommand.Runner.RunCommandAndApply` | sdks/typescript/src/aggregate/run-command.ts:411-448 | the result is the fold of the stream after the append whenever nothing was skipped |
| `RunCommand.Runner.RunCommandWithSnapshots` | sdks/typescript/src/aggregate/snapshots.ts:87-132 | whatever rivals do, the answer is `executeCommand`'s and the store is what it left plus the policy's best-effort write; consistent with default assertions; alone it is one step of the reference |
| `RunCommand.EveryNBoundsLoads` | sdks/typescript/src/aggregate/snapshot-policy.ts:30-37 | with one writer and no failed write, no load folds n events or more |
| `RunCommand.EveryNSnapshotsIff` | sdks/typescript/src/aggregate/snapshot-policy.ts:30-37 | with one writer a command leaves a new snapshot, of the whole stream, if and only if it landed events and at least n have landed since the last snapshot; n <= 0 is refused |
| `EventStore.Store.AppendToStream` | sql/instructed.sql:607-837 | the error cases in their order, all events or none; every returned row points at its event in the stream and in `$all`, one-row reads at its two numbers return that event, and the last number is the end of the log |
| `EventStore.RowsPoint` | sql/instructed.sql:772-818 | the returned rows name, in batch order, the new events at the end of the log by id, stream version and event number |
| `EventStore.AppendLandsIff` | sql/instructed.sql:685-837 | an append lands if and only if the stream is as expected and all ids are new to the log and to each other; of the two, ids are looked at last |
| `EventStore.SecondWriterLoses` | sql/instructed.sql:685-762 | of two writers who expect one version, or no stream, the second is refused with the error of its expectation, and one who expects the new version is not |
| `EventStore.SliceHas` | sql/instructed.sql:884-955 | a page holds exactly the rows of the `qty` versions from its first one on, in order; from 0 and from 1 begin alike |
| `EventStore.PagesAreStream` | sql/instructed.sql:884-955 | pages of any sizes read one after the other from the beginning are the whole stream |
| `EventStore.Store.ReadStream` | sql/instructed.sql:884-955 | errors and the bounded slice of one stream |
| `EventStore.Store.ReadAll` | sql/instructed.sql:993-1045 | errors and the bounded slice of `$all`, empty store included |
| `EventStore.AppendAddsBatch` | sql/instructed.sql:537-583 | an append adds its batch to the end of one stream and changes no other |
| `EventStore.LinksAreStreams` | sql/instructed.sql:202-222 | the link rows of every stream and of `$all` are gapless and in order |
| `EventStore.ReadIsPage` | sdks/typescript/src/aggregate/run-command.ts:501-516 | one read from version + 1 is the page the load protocol folds |
| `EventStore.ContiguousExactly` | tools/instructedctl/src/core/health.ts:21-40 | for distinct positive versions the check passes if and only if they are exactly 1..N |
| `EventStore.AppendsAreContiguous` | sql/instructed.sql:607-837 | the `$all` versions of every store that appends produced are exactly 1..N |
| `EventStore.EveryStoreIsContiguous` | tools/instructedctl/src/core/health.ts:18-40 | it passes on every store that appends produced |
| `Keys.TypesCollideIff` | sdks/typescript/src/aggregate/run-command.ts:87-89 | two aggregate types can share a stream name if and only if one followed by a dash begins the other followed by a dash |
| `Keys.SameTypeInjective` | sdks/typescript/src/aggregate/run-command.ts:87-89 | ids of one type never collide |
| `Keys.RefKeyInjective` | sdks/typescript/src/consistency/consistency.ts:167-169 | references whose names hold no colon have distinct keys |
| `Keys.KeysDistinctIff` | sql/instructed.sql:215-224 | among any aggregate types and process managers no two ids share a stream or snapshot row if and only if no type followed by a dash begins another followed by a dash |
| `Keys.BankTypesDisjoint` | examples/typescript/bank-account/src/aggregates/transfer.ts:48-49 | no two accounts, transfers and instances of the transfer process manager share a stream or snapshot row |
| `Keys.RefKeysCollide` | sdks/typescript/src/consistency/consistency.ts:167-169 | two different references with one key |
| `Keys.StagedKeyInjective` | sdks/typescript/src/workers/pm/pm-substrate.ts:189-192 | the staged-work key is injective for all partition keys |
| `Keys.DecimalDenotes` | sdks/typescript/src/workers/pm/pm-substrate.ts:189-192 | the number in it is written in decimal digits without leading zeros |
| `Keys.KeysSpelled` | sdks/typescript/src/aggregate/run-command.ts:87-89 | one key of each kind, letter by letter |
| `Consistency.WaitForProjection` | sdks/typescript/src/consistency/consistency.ts:83-165 | polls with the greatest appended number; target errors exactly for streams not appended to; normal return means every last-of-key reference was seen caught up with that number during the wait, and where nothing falls behind again all are so at one moment; a timeout comes no earlier than asked and at most one sleep and one pass later, and lists references seen behind in that last pass |
| `Consistency.WaitComposes` | sdks/typescript/src/consistency/consistency.ts:132-150 | with distinct keys, at the moment of return every listed projection has handled every event it routes up to the target |
| `Consistency.RunsAreStable` | sdks/typescript/src/consistency/consistency.ts:15-27 | subscriptions without deletes and rebuilds form a world in which nothing falls behind again |
| `Consistency.PolledIff` | sdks/typescript/src/consistency/consistency.ts:127-130 | a reference is waited for if and only if it equals the last one of its key |
| `Consistency.Greatest` | sdks/typescript/src/consistency/consistency.ts:121-124 | the target is one of the appended numbers and the greatest |
| `Bank.RacingRunnersGiveOneOutcome` | examples/typescript/bank-account/src/aggregates/transfer.ts:51-102 | whatever racing runners send, a Transfer stream holds at most one request and then at most one terminal event |
| `Bank.MarksAreIdempotent` | examples/typescript/bank-account/src/aggregates/transfer.ts:83-100 | a repeated mark adds nothing and the opposite mark is refused |
| `Saga.SagaStepKeeps` | examples/typescript/bank-account/src/process-managers/transfer-pm.ts:58-132 | every fair step keeps ledger, transfer order, causes, effects, balances and the queue invariant |
| `SagaTheorems.MoneyIsConserved` | examples/typescript/bank-account/src/process-managers/transfer-pm.ts:89-132 | at every step balances plus in-flight plus stranded amounts equal direct deposits minus direct withdrawals |
| `SagaTheorems.CaughtUpMeansNothingInFlight` | examples/typescript/bank-account/src/process-managers/transfer-pm.ts:58-132 | once the process manager is caught up with the whole log nothing is in flight |
| `SagaTheorems.NeverOverdrawn` | examples/typescript/bank-account/src/aggregates/account.ts:54-93 | no balance is ever negative |
| `SagaTheorems.TotalIsNet` | examples/typescript/bank-account/src/aggregates/account.ts:41-52 | over all accounts the folded balances add up to the net of the log |
| `SagaTheorems.EveryTransferSettles` | examples/typescript/bank-account/src/process-managers/transfer-pm.ts:89-132 | caught up, every well-formed request was debited, credited alike and completed, or refused and failed |
| `SagaTheorems.CompletedMeansPaid` | examples/typescript/bank-account/src/process-managers/transfer-pm.ts:112-121 | a completed transfer was debited once and then credited once with the requested amount, and nothing else was done for it |
| `SagaTheorems.FailedMeansUntouched` | examples/typescript/bank-account/src/process-managers/transfer-pm.ts:122-130 | a failed transfer was refused for the reason it names and moved no money |
| `SagaTheorems.UnpaidIffNoCredit` | examples/typescript/bank-account/src/process-managers/transfer-pm.ts:112-121 | a debit counts as in flight if and only if no credit in the log carries its transfer id, so the law reads off the log alone |
| `SagaCommands.UserCommandLands` | examples/typescript/bank-account/src/aggregates/account.ts:54-93 | in every state, told from the log: an account opens once, moves money only when open, gives out only what it holds and otherwise refuses, a transfer is requested once, the event carries the fields of its command, and a command that lands nothing throws |
| `SagaCommands.MarkLands` | examples/typescript/bank-account/src/aggregates/transfer.ts:83-100 | in every run a mark lands once, on a requested transfer that is not settled; repeated it lands nothing, on an unknown or otherwise settled transfer it throws |
| `SagaCommands.EventsAreDue` | examples/typescript/bank-account/src/aggregates/account.ts:54-93 | every debit in the log, the process manager's included, met an open account that held its amount, every refusal one that did not |
| `SagaCommands.LogIsWhatWasSent` | examples/typescript/bank-account/src/command-router.ts:36-43 | in every run, fair or not, what no transfer caused is exactly what the user's commands landed, in the order they were sent |
| `SagaCommands.RequestedTransfersSettle` | examples/typescript/bank-account/src/aggregates/transfer.ts:66-82 | in a caught-up fair run the first request of a transfer with id and destination moved its amount from the source it named to the destination it named, each event when due, and was completed; or that source did not hold it, refused it, and the transfer failed for that reason; nothing else was done for it |
| `SagaCommands.AccountsHoldWhatWasBroughtIn` | examples/typescript/bank-account/src/process-managers/transfer-pm.ts:89-132 | in every fair run what all accounts hold, with what is in flight and stranded, is the sum of the deposits and withdrawals that the user's commands got through |
| `SagaCommands.AckEndsInstance` | examples/typescript/bank-account/src/process-managers/transfer-pm.ts:89-132 | an instance goes on after a request or a debit, whose row is then done, and ends with a credit or a refusal, after which no row of it is left |
| `SagaRedelivery.RedeliveryCreates` | sdks/typescript/src/workers/pm/pm-worker.ts:39-44 | at every step of every reset-free run with redeliveries, balances plus in-flight plus stranded equal direct deposits minus withdrawals plus the debits whose second credit was accepted |
| `SagaRedelivery.ConservedIff` | sdks/typescript/src/workers/pm/pm-worker.ts:39-44 | money is conserved if and only if no step credits a debit that was credited before |
| `SagaRedelivery.StillNeverOverdrawn` | examples/typescript/bank-account/src/aggregates/account.ts:54-93 | redelivery overdraws no account |
| `SagaRedelivery.CaughtUpIff` | sdks/typescript/src/workers/pm/pm-substrate.ts:260-298 | caught up under redelivery, nothing is in flight if and only if no termination took the item of a debit that was never handled |
| `SagaRedelivery.CaughtUpUnlessDropped` | sdks/typescript/src/workers/pm/pm-substrate.ts:260-298 | which a check at each terminating acknowledgement rules out |
| `QueueTheorems.LostForGood` | sql/instructed.sql:2413-2475 | an item that went with its partition, unhandled and at nobody's hands, is never handled in any continuation without a reset |
| `SagaRedelivery.LostDebitForGood` | sdks/typescript/src/client/client.ts:495-517 | so the amount of such a debit is in flight in every continuation |
| `SagaRuns.RedeliveryRun` | sdks/typescript/src/workers/pm/pm-worker.ts:39-44 | a run in which a stalled worker credits a destination a second time |
| `SagaRuns.CaughtUpInFlightRun` | sdks/typescript/src/client/client.ts:495-517 | a run that is caught up with the money of a second debit in flight, as it is in every continuation |
| `SagaTheorems.RequestStrandsIff` | examples/typescript/bank-account/src/process-managers/transfer-pm.ts:94-111 | handling a request strands its amount if and only if id or destination is blank and the debit is accepted |
| `SagaTheorems.NothingStranded` | examples/typescript/bank-account/src/process-managers/transfer-pm.ts:108-111 | when every request has an id and a destination nothing is stranded |
| `GuardedDelivery.DeliveryIsOrderedFold` | examples/typescript/bank-account/src/projections/balances/projection.ts:9-12 | for every delivery with first effects in order and arbitrary repeats, a guarded row is the in-order fold |
| `GuardedDelivery.QueueDeliveryIsPermitted` | sdks/typescript/src/workers/processing/processing-worker.ts:339-467 | the queue delivers nothing but such sequences, late effects of displaced workers included |
| `ReadModels.BalancesAgree` | examples/typescript/bank-account/src/projections/balances/queries.ts:21-51 | a Balances row is the account folded up to its last_event_number, and the account itself once caught up |
| `ReadModels.TransfersAgree` | examples/typescript/bank-account/src/projections/transfers/queries.ts:22-79 | a Transfers row shows the transfer's details, stage and reason likewise |
| `ReadModels.SagaLogIsGenerated` | examples/typescript/bank-account/src/command-router.ts:36-43 | every log of the saga is one that commands generate, the hypothesis of the two agreements |
| `ReadModels.ReadStore.HandleBalances` | examples/typescript/bank-account/src/projections/balances/projection.ts:49-79 | the handler writes the specified row and no other |
| `ReadModels.ReadStore.HandleTransfers` | examples/typescript/bank-account/src/projections/transfers/projection.ts:38-64 | the handler writes the specified row and no other |
| `ReadModels.BalanceWrites` | examples/typescript/bank-account/src/projections/balances/projection.ts:49-79 | on any row, an event it has not seen moves its balance by what the event moves, an opening that meets a row included; others change nothing |
| `ReadModels.TransferWrites` | examples/typescript/bank-account/src/projections/transfers/projection.ts:38-64 | likewise a request that meets a row rewrites its details and keeps status and reason |

## Left out

- Row locks, SKIP LOCKED, MVCC snapshots and transactions: each procedure is one atomic step, and which claimable row a claim takes is left open in the machine; which rows are locked is a parameter of the claim.
- Parameter validation errors for null or empty ids and malformed JSON: the types rule such inputs out.
- Subscriptions on streams other than `$all` in the queue machine: only the cursor behaviour of the router is modelled, in `StreamCursor.dfy`.
- Transport errors of a command runner: in `AggregateProtocol.dfy` an append whose answer was lost is a submission after which the runner stops; `RunCommand.dfy` models answered calls only.
- Jitter in `exponentialBackoff`: delays are the unjittered ones.
- Liveness under fair scheduling, real time, sleep and abort signals: stops arrive at arbitrary points of a finite schedule, and the workers' progress is proved for undisturbed stretches of it.
- Nested commands and explicit dispatch targets of the process-manager worker: the transfer process manager dispatches at most one routed command for each event.
- The `created_at`, `causation_id` and `correlation_id` columns, `requestedAt`, and the list queries of the read models: they carry no decision.
- The facade, loggers, command-line tools other than rebuild and the contiguity check, and the other three health queries: easy branches or plain queries.
- Consistency.WaitForProjection: leaves open the order in which one pass polls the references, and measures time in ticks; poll interval and timeout are parameters without their defaults.
- Workers.ProcessingWorker.Loop: progress is stated for stretches in which nobody else acts; a heartbeat that fires is answered.
- Calls that execute after their worker's next action: outside the machine, except for what QueueTheorems.LateBatchReinserts says of a late batch.
- SagaTheorems.MoneyIsConserved: amounts are whole numbers, as in the `bigint` columns of the read store.
