# Verification of the work queue, the ring and the getUpdates loop

The bot's execution engine is a bounded work queue with lazily created worker threads
(`core/workqueue.c`), a pair of submission and completion rings on top of it (`core/ring.c`,
`include/gw/ring.h`), and the main loop that drives both (`core/main.c`). This project models the
three layers in Dafny and proves what they keep.

Each layer comes in two forms. A **transition system** takes one critical section per step, from
`mutex_lock` or the return of `cond_wait` to `mutex_unlock` or the next `cond_wait`; calls of
`func` and `deleter` are steps of their own. It ranges over all schedules, thread counts,
capacities and spurious wake-ups, and carries the theorems over states and runs. A **class** has
the program's fields and arrays with `uint32_t` arithmetic; each of its methods is proved against
the functions those steps are made of.

| file | contents |
|---|---|
| `Uint32.dfy`, `Circular.dfy` | 32-bit arithmetic, masks, sizing loops; masked arrays as bounded FIFO sequences |
| `WorkQueueModel.dfy` | the queue's states and steps |
| `WorkQueueInvariant.dfy`, `WorkQueueSafety.dfy` | its invariant, and safety over states and runs |
| `WorkQueueSteps.dfy` | what each step comes to, in terms of the fields |
| `WorkQueueProgress.dfy`, `WorkQueueShutdown.dfy` | termination of drain and shutdown |
| `WorkQueueRuns.dfy` | runs in which a caller could have expected more |
| `WorkQueue.dfy` | the class of the queue |
| `RingModel.dfy`, `RingInvariant.dfy`, `RingSafety.dfy`, `RingSubmit.dfy` | ring and queue together: conservation, wake-ups, submission |
| `Ring.dfy` | the class of the rings |
| `RingPosts.dfy` | which completions are posted, and what they carry |
| `RingProgress.dfy`, `RingShutdown.dfy`, `RingWrap.dfy` | every submitted request is served; heap copies and teardown; waiting at the index wrap |
| `BotModel.dfy`, `BotInvariant.dfy`, `BotSafety.dfy` | the main loop: one getUpdates request, the completion stream, references |
| `BotDispatch.dfy`, `BotRuns.dfy` | dispatch at most once; runs on replies that break the API's promise |
| `BotRounds.dfy` | the order of a round, and when the bot stops |
| `BotUpdates.dfy`, `BotLoop.dfy` | processing a completion as a function, refined by the moves; the class of the bot's context |
| `LockOrder.dfy`, `LockProjection.dfy` | the three mutexes; ring and queue as a run over them |
| `Wrappers.dfy` | `Option` |

Unbounded histories (`works`, `requests`, `posted`) stand behind the wrapped indices; `Stored` in
`Circular.dfy` says that every live entry of a history is where the masked index looks for it.

## What turned out not to hold

- `destroy_workqueue` while a `wait_all_work_done` caller is inside may strand workers: the exit
  test also asks for `queue_is_blocked` to be clear. `WorkQueueShutdown.ShutdownExact` gives the
  exact condition, `WorkQueueRuns.ShutdownCanStrand` a run.
- `wait_all_work_done` with two callers does not keep submissions out until both have left:
  `WorkQueueRuns.SecondDrainerUnblocks` is a run, `WorkQueueSafety.BlockedExactly` says
  exactly how long it does.
- `gw_ring_wait_cqe` sleeps although completions are waiting once the tail alone has wrapped
  past 2^32, or when 2^31 wait, and is then not woken by further ones: `RingWrap.WaitSleepsAtWrap`
  is a run, `RingWrap.StuckOverCompletions` the consequence, `RingSafety.WaitReturnsReadyCount`
  the exact condition.
- The loop over a batch counts in `uint32_t` and does not end for 2^32 updates or more:
  `BotUpdates.BatchLoopExit` is the exact condition, `BotUpdates.OversizedBatchNeverEnds` the
  consequence, `BotRuns.OversizedBatchIsReachable` a run.
- `update_id` is a `uint64_t` compared as `int64_t`, so that the offset armed next can fail to
  exceed an id dispatched, or to fit: exactly from ids of 2^63 - 1 on, as
  `BotSafety.ArmedOffsetExceedsDispatched` says and `BotRuns.HugeIdBreaksOffset` shows.
- The distance test refuses insertions into a nearly empty buffer at the wrap:
  `Circular.RefusalConservative`, exactly in `RefusalExact`.
- The sizing loops do not end for requests above 2^31 (`Uint32.DoublingStops`), and a ring of more
  than 2^30 entries gets a completion ring that refuses every post (`RingInvariant.CqLimitIsCapacity`).

## Model

| member | source | states |
|---|---|---|
| `Uint32.MaskIsModulo` | core/workqueue.c:170 | `index & mask`, computed digit by digit, is the index modulo the capacity when the mask is a power of two less one |
| `Uint32.WrapKeepsSlot` | core/workqueue.c:276 | wrapping a free-running index at 2^32 does not change its slot |
| `Uint32.DoublingStops` | core/workqueue.c:101-104 | the doubling loop ends if and only if the request is at most 2^31; past that `max` wraps to zero for good |
| `Uint32.RoundUp` | core/ring.c:40-41 | the loop yields the least power of two that is at least max(2, request) |
| `Circular.SlotsDistinct` | core/workqueue.c:276 | two live entries never share a slot, on either side of the index wrap |
| `Circular.InsertStored` | core/workqueue.c:273-276 | an insertion into a buffer that is not full overwrites no live entry |
| `Circular.RemoveStored` | core/workqueue.c:408 | the slot of `head` holds the oldest live entry: entries leave in insertion order |
| `Circular.RefusalExact` | core/workqueue.c:78-81 | the `llabs` test refuses exactly when the buffer is full or the tail has wrapped and the head has not |
| `Circular.RefusalConservative` | core/workqueue.c:273-274 | with a single live entry the test already refuses at the wrap |
| `Circular.SpaceExact` | core/workqueue.c:273-274 | the test lets an entry in exactly if fewer than the capacity are live and the tail has not wrapped past the head |
| `Circular.EmptyExact` | include/gw/ring.h:121-134 | equality of the wrapped indices means empty, also across the wrap |
| `Uint32.CastsExact` | core/main.c:74 | the casts to `int` and `int64_t` keep the value modulo the width |
| `Circular.ReadyCountExact` | core/ring.c:236-241 | the `int` returned for the distance is the number of entries exactly while the tail has not wrapped past the head and fewer than 2^31 wait; otherwise it is not positive |
| `WorkQueueInvariant.StepKeepsInv` | core/workqueue.c:206-424 | every critical section, call and wake-up, spurious ones included, keeps the queue's invariant |
| `WorkQueueInvariant.ReachableHasInv` | core/workqueue.c:206-424 | the invariant holds in every reachable state, for any number of callers and workers and every schedule |
| `WorkQueueInvariant.ArmedWorkerIsAwake` | core/workqueue.c:253-261 | `arm_worker`, deciding by the lagging counter, leaves an awake worker whenever the queue has any slot, also when it signals with nobody truly asleep |
| `WorkQueueSafety.PendingWorkHasAwakeWorker` | core/workqueue.c:240-279 | no stranded work: a non-empty list implies a worker that is starting, woken, executing or deleting |
| `WorkQueueSafety.SleepingDrainerIsAnnounced` | core/workqueue.c:206-223 | no lost wake-up for drain callers: one asleep implies the flag set, no shutdown, and work pending or running |
| `WorkQueueSafety.CountersAgree` | core/workqueue.c:225-261 | sleeping, running, online and sleeping-queuer counters are the sizes of the phase sets; at most `max_threads` threads are online |
| `WorkQueueSafety.SlotsNeverReused` | core/workqueue.c:225-251 | over a run, an occupied worker slot is never free or given to another thread again |
| `WorkQueueSafety.AcceptedWorkIsInOnePlace` | core/workqueue.c:399-424 | every accepted work is in exactly one of pending, executing, deleting, completed, cancelled |
| `WorkQueueSafety.CallsByPlace` | core/workqueue.c:407-416 | the calls made for a work by its place: `func` at most once and first, the deleter at most once, `func` skipped for cancelled works only |
| `WorkQueueSafety.RecordOnlyGrows` | core/workqueue.c:276 | over a run, accepted works and the calls made for them are never taken back or replaced |
| `WorkQueueSafety.RefusedWorkUntouched` | core/workqueue.c:267-274 | a refused or waiting submission leaves list, workers and calls as they were |
| `WorkQueueSteps.VerdictExact` | core/workqueue.c:267-278 | refused for good if and only if stopped; accepted if and only if neither stopped nor blocked and with room in the list |
| `WorkQueueSteps.SubmissionOutcome` | core/workqueue.c:281-302 | in every reachable state, what a submission that is accepted, refused or has to wait leaves behind: the work appended, nothing, or the caller asleep with the work in hand |
| `WorkQueueSteps.SpawnOutcome` | core/workqueue.c:225-251 | with nobody counted as sleeping, the first free slot is given a thread |
| `WorkQueueSteps.SignalOutcome` | core/workqueue.c:253-261 | otherwise at least one worker truly asleep is woken, if there is any, and no other is touched |
| `WorkQueueSteps.SectionOutcome` | core/workqueue.c:365-424 | a worker's section ends in its exit, in the oldest pending work, or in sleep, as stop, block and list say |
| `WorkQueueSteps.SectionWakesDrainers` | core/workqueue.c:375-376 | announced drain callers are all woken by a worker that goes to sleep, and by no other section |
| `WorkQueueSteps.FinishWakesQueuers` | core/workqueue.c:384-397 | with no other worker running nobody is woken; with one submitter counted at least one of those asleep, with more all |
| `WorkQueueSteps.CallOutcome` | core/workqueue.c:412-415 | `func` and deleter are called if and only if the work has them, and recorded for that work alone |
| `WorkQueueSteps.DrainOutcome` | core/workqueue.c:206-223 | a drain caller sleeps, announced, exactly if works are pending or running and the queue is not stopped |
| `WorkQueueSteps.DestroyOutcome` | core/workqueue.c:346-352 | stopped, emptied, the deleter called for the pending works that have one and for no other; whom it wakes |
| `WorkQueueSteps.InitSlots` | core/workqueue.c:126-134 | the slots given a thread at once are the first ones, and no others |
| `WorkQueueSafety.DrainReturnsWhenDone` | core/workqueue.c:206-223 | when `wait_all_work_done` returns without shutdown, nothing is pending or running and every accepted work has been through `func` and deleter |
| `WorkQueueSafety.SoleDrainerBlocksSubmission` | core/workqueue.c:209-221 | with a single drain caller nothing is accepted between its entry and its return |
| `WorkQueueSafety.BlockedFlagStep` | core/workqueue.c:206-223 | while `queue_is_blocked` nothing is accepted; the flag falls exactly at a drain caller's loop test that finds nothing pending or running, or a stop, and only a new drain caller sets it |
| `WorkQueueSafety.BlockedExactly` | core/workqueue.c:209-221 | over a run, submissions are kept out exactly while some drain caller has entered and none has been free to return since |
| `WorkQueueRuns.SecondDrainerUnblocks` | core/workqueue.c:209-221 | a reachable run in which the second drain caller returns and a work is accepted while the first is still inside |
| `WorkQueueProgress.WorkerStepMeasure` | core/workqueue.c:399-424 | each worker step uses up exactly one unit of the measure over pending works and worker phases |
| `WorkQueueProgress.SettledMeansIdle` | core/workqueue.c:365-382 | when no worker can move, the list is empty, none is running, and every accepted, uncancelled work has been executed and deleted |
| `WorkQueueProgress.DrainTerminates` | core/workqueue.c:206-223 | with no submission, shutdown or spurious wake-up, worker steps never exceed the measure; a settled run has taken exactly that many and finished all work; and when no woken caller can move either, every drain caller has returned |
| `WorkQueueProgress.QuietRunsAreFinite` | core/workqueue.c:384-397 | counting the woken callers' steps too, every such run is bounded |
| `WorkQueueShutdown.DestroyWakesAll` | core/workqueue.c:316-324 | signal-if-one, broadcast-if-many on the lagging counter reaches every sleeping worker |
| `WorkQueueShutdown.ShutdownCompletes` | core/workqueue.c:346-363 | not blocked by a drain caller, on every schedule no worker sleeps after `destroy_workqueue`, nothing more is accepted, and once none moves all have exited, counters are zero and every deleter has run |
| `WorkQueueShutdown.ShutdownExact` | core/workqueue.c:369 | every join returns if and only if the queue was not blocked by a drain caller, or had no thread |
| `WorkQueueShutdown.AsleepAfterStop` | core/workqueue.c:365-382 | a worker asleep after the shutdown is woken only spuriously |
| `WorkQueueRuns.ShutdownCanStrand` | core/workqueue.c:369 | a reachable state, two steps from the start, in which `destroy_workqueue` leaves a thread that never exits |
| `WorkQueue.ValidateAndAdjust` | core/workqueue.c:83-106 | which attributes are refused, the default of four threads, and the rounding for the others |
| `WorkQueue.WorkQueue.constructor` | core/workqueue.c:108-195 | the fields of a new queue stand for the initial state; slot `i` has a thread if and only if `i` is below `min_threads` when lazy, below `max_threads` otherwise |
| `WorkQueue.WorkQueue.CountPendingWorks` | core/workqueue.c:78-81 | positive exactly when works are pending; reaches the limit exactly when the queue refuses |
| `WorkQueue.WorkQueue.GetFreeWorkerSlot` | core/workqueue.c:225-238 | the first free slot, or `max_threads` |
| `WorkQueue.WorkQueue.ArmAWorker` | core/workqueue.c:240-261 | takes a slot or signals, as the state machine's `ArmWorker` allows |
| `WorkQueue.WorkQueue.PutWork` | core/workqueue.c:276 | appends to the history, losing no pending work |
| `WorkQueue.WorkQueue.TryQueueWorkLocked` | core/workqueue.c:263-279 | which of stopped, waiting and accepted, in terms of the flags and indices; the work appended and a worker armed exactly if accepted |
| `WorkQueue.WorkQueue.QueueWork` | core/workqueue.c:281-302 | one critical section of `queue_work` is the step `Submit`, with the same verdict, and keeps the invariant |
| `WorkQueue.WorkQueue.QueueWorkAgain` | core/workqueue.c:297-301 | the section after `cond_wait` is the step `Resubmit` |
| `WorkQueue.WorkQueue.WaitAllWorkDone` | core/workqueue.c:206-223 | the first section of a drain is the step `Drain` |
| `WorkQueue.WorkQueue.WaitAllWorkDoneAgain` | core/workqueue.c:217-222 | the section after `cond_wait` is the step `Redrain` |
| `WorkQueue.WorkQueue.TakeWork` | core/workqueue.c:408 | removes and returns the oldest pending work |
| `WorkQueue.WorkQueue.WaitForEvent` | core/workqueue.c:365-382 | exits, takes a work or sleeps, waking drain callers first; what it returns is the work the worker is then executing |
| `WorkQueue.WorkQueue.WorkerStart` | core/workqueue.c:405-410 | the first section of a worker is the step `Start`, and leaves it with the work it is then executing |
| `WorkQueue.WorkQueue.WorkerResume` | core/workqueue.c:379-380 | the section after `cond_wait` is the step `Resume`, likewise |
| `WorkQueue.WorkQueue.WakeUpAllQueueWorkCallers` | core/workqueue.c:384-397 | which submitters a finishing worker wakes |
| `WorkQueue.WorkQueue.CallReturned` | core/workqueue.c:412-415 | between the sections, outside the lock, the return of `func` or of the deleter is the step `RunFunc` or `RunDeleter` |
| `WorkQueue.WorkQueue.WorkerFinish` | core/workqueue.c:417-421 | the section after the deleter is the step `Finish`, likewise |
| `WorkQueue.WorkQueue.ClearPendingWorks` | core/workqueue.c:304-314 | empties the list, calling the deleter once for each pending work, oldest first |
| `WorkQueue.DeleterArgsInOrder` | core/workqueue.c:307-313 | the deleters' arguments are gone through work by work, in order |
| `WorkQueue.WorkQueue.WakeUpAllWorkers` | core/workqueue.c:316-328 | whom the shutdown wakes |
| `WorkQueue.WorkQueue.Destroy` | core/workqueue.c:346-352 | the critical section of `destroy_workqueue` is the step `Destroy` |
| `WorkQueue.WorkQueue.JoinAllWorkers` | core/workqueue.c:330-344 | joins exactly the threads created, in slot order |
| `RingInvariant.StepKeepsSysInv` | core/ring.c:87-351 | every step of client or worker, on ring and queue together, keeps the invariant on where each request is and what was done for it |
| `RingInvariant.CqLimitIsCapacity` | core/ring.c:43-44 | the completion ring holds twice the submission ring up to 2^30 entries, and none above |
| `RingSafety.RequestsConserved` | core/ring.c:112-224 | every request filled in is in exactly one of submission ring, work list, worker, completion ring, consumed, dropped |
| `RingSafety.CompletionsFaithful` | core/ring.c:129-133 | a request yields at most one completion, with the `op` and `user_data` it was submitted with |
| `RingPosts.FullExact` | core/ring.c:124 | in every reachable state, the two rings refuse exactly when full or when the tail alone has wrapped |
| `RingPosts.EventPosts` | core/ring.c:112-138 | with room, issuing a NOP posts its completion with 0, executing a request posts its completion with the result of the execution, and no other event posts any; without room nothing is posted |
| `RingPosts.CompletionsAreOffers` | core/ring.c:267-294 | over a run, every completion carries the `op`, `user_data` and result of the NOP or execution that posted it |
| `RingPosts.ExecutedIsAsync` | core/ring.c:306-309 | what a worker executes is the request as it was filled in |
| `RingPosts.UnsupportedCalls` | core/ring.c:273-283 | an API call other than getUpdates completes with `-EOPNOTSUPP` |
| `RingSafety.SleepingClientIsAnnounced` | core/ring.c:87-138 | no lost wake-up, for completions or the end of the ring: a sleeping client implies flag set, not stopping, and an empty ring unless at the wrap or with 2^31 entries |
| `RingSafety.SleepingClientSeesNothing` | core/ring.c:244-265 | with size at most 2^29 and fewer than 2^32 posts, a client sleeps on an empty ring only |
| `RingSafety.WaitReturnsReadyCount` | core/ring.c:226-265 | on every round, the exact condition on which `gw_ring_wait_cqe` returns; its value is then the number of entries ready; otherwise it announces itself |
| `RingWrap.WaitSleepsAtWrap` | core/ring.c:241 | a reachable state, after 2^32 completions, in which the client sleeps with a completion waiting |
| `RingWrap.StuckOverCompletions` | core/ring.c:124-127 | a client asleep over completions stays so: every further completion is refused and dropped, and only a spurious wake-up or the end of the ring wakes it |
| `RingSafety.FreesBalance` | core/ring.c:152-161 | `tgapi_free_update` has been called once for each MODULE_HANDLE request that is no longer in the ring or with the queue, and for no other |
| `RingShutdown.CopiesReleasedOnce` | core/ring.c:296-316 | every `wq_sqe_data` is allocated once and freed at most once; unfreed ones are with a client waiting in `queue_work` or a work whose deleter is to come |
| `RingShutdown.TeardownCompletes` | core/ring.c:87-96 | after the queue's destruction, once no worker can move, all threads can be joined, counters are zero, calls are final, and every `wq_sqe_data` has been freed exactly once |
| `RingProgress.EventMeasure` | core/ring.c:318-351 | each step of a worker, before a shutdown or after it, uses up one unit of the queue's measure; nothing else the client does short of submitting changes it |
| `RingProgress.UnsettledMoves` | core/ring.c:318-351 | as long as a worker of the queue can move, so can the ring |
| `RingProgress.SettledMeansServed` | core/ring.c:112-224 | when no worker can move, every request is in a ring, consumed, or recorded as dropped |
| `RingProgress.SubmittedRequestsAreServed` | core/ring.c:112-224 | while nothing more is handed to the queue, the workers take at most the measure's steps, whatever the client does besides, and then every submitted request has been completed or recorded as dropped |
| `RingSubmit.SubmitDrains` | core/ring.c:178-207 | a `gw_ring_submit` that is not stopped drains the ring, returns the number of entries posted at once or taken by the queue, and leaves room for `gw_ring_get_sqe`, across the wrap too |
| `Ring.GwRing.constructor` | core/ring.c:22-54 | sizes of both rings, empty, and for which sizes no completion can ever be posted |
| `Ring.GwRing.FillSqe` | core/ring.c:209-224 | refuses exactly without room, in terms of the indices; otherwise stores the entry over no live one |
| `Ring.GwRing.PostCqe` | core/ring.c:112-138 | refuses exactly without room; otherwise appends the completion with the entry's `op` and `user_data` and the given result, and wakes an announced client |
| `Ring.GwRing.LoadHeadCqe` | include/gw/ring.h:121-134 | the completion at the consumer's place in post order, or none exactly at the end |
| `Ring.GwRing.CqAdvance` | include/gw/ring.h:116-119 | releases the `n` oldest completions |
| `Ring.GwRing.WaitCqe` | core/ring.c:249-260 | one round: stopped, the exact count and the oldest completion, or announced and asleep |
| `Ring.GwRing.WokenUp` | core/ring.c:261 | clears the announcement |
| `Ring.GwRing.Stop` | core/ring.c:87-95 | stops the ring and wakes an announced client |
| `Ring.GwRing.SubmitSqe` | core/ring.c:163-176 | dispatch by operation; a NOP completes at once unless the completion ring is full, an asynchronous one goes through exactly if its punt is taken, an unknown one fails |
| `Ring.GwRing.Submit` | core/ring.c:178-207 | every entry is issued once, in order, and the result is the number of those that went through; a NOP fails only on a full completion ring; the completions of the NOPs stand in their order, and nothing else is posted but the workers' own |
| `Ring.NopsComplete` | tests/core/ring.c:45-87 | with the workers quiet, room and no wrap, `n` NOPs return `n` and post their `n` completions, in order |
| `Ring.PuntToIoWq` | core/ring.c:296-316 | what becomes of a punt is decided by memory and by flags and indices of the work queue; the copy is freed exactly if the queue is stopped |
| `Ring.PuntToIoWqAgain` | core/ring.c:308-313 | the same after a sleep inside `queue_work` |
| `BotInvariant.MoveKeepsInv` | core/main.c:18-141 | every move of the main thread, the workers and the API, whatever it replies, keeps the bot's invariant |
| `BotSafety.SingleUpdatesRequest` | core/main.c:18-32 | at most one getUpdates request is in flight anywhere, and none while the main thread processes one |
| `BotSafety.UpdatesRequestExists` | core/main.c:55-82 | while no post or punt has failed there is one, or the main thread is about to arm it |
| `BotSafety.UpdatesNotShared` | core/main.c:66-80 | while the main thread uses `ctx->updates` no worker is executing a getUpdates request |
| `BotSafety.CompletionsVisitedInOrder` | core/main.c:132-139 | the completions processed over a run are a prefix of those posted, in post order; only processed ones are released |
| `BotSafety.AdvanceReleasesVisited` | core/main.c:133-139 | `gw_ring_cq_advance` releases exactly what was processed, also after the early `break` |
| `BotSafety.RetryFindsRoom` | core/main.c:22-26 | the second `gw_ring_get_sqe` is never NULL |
| `BotDispatch.DispatchedAreHanded` | core/main.c:34-47 | the updates of the MODULE_HANDLE requests, in the order filled in, are those recorded as dispatched |
| `BotDispatch.UpdatesDispatchedOnce` | core/main.c:72-77 | over runs with legal replies no update is handed over twice, and the next offset fits an `int64_t` |
| `BotSafety.ArmedOffsetExceedsDispatched` | core/main.c:28-31 | each offset armed exceeds every id dispatched before, as `int64_t`; it fits an `int64_t` and exceeds the ids themselves if and only if all of them are below 2^63 - 1 |
| `BotRuns.HugeIdBreaksOffset` | core/main.c:74-75 | for every id from 2^63 - 1 on, a reachable state in which it has been dispatched and the offset armed next overflows or is 1 |
| `BotSafety.MaxUpdateIdGrows` | core/main.c:74-75 | `max_update_id` never decreases |
| `BotSafety.ReferencesBalance` | core/main.c:49-53 | inc-ref calls less free calls is the number of updates in ring, queue and main thread's hands |
| `BotSafety.BalanceAfterTeardown` | core/ring.c:337-351 | after destroy, once no worker can move, that is the MODULE_HANDLE entries left unsubmitted, and every `wq_sqe_data` has been freed |
| `BotSafety.TeardownComesLast` | core/main.c:196-200 | the queue is destroyed only when the main thread has left its loop |
| `BotUpdates.BatchHandedOver` | core/main.c:72-77 | a batch is handed over whole, in order, one MODULE_HANDLE request and one reference each, and `max_update_id` becomes the maximum of the ids as `int64_t` |
| `BotUpdates.UpdatesRearmed` | core/main.c:60-81 | each getUpdates completion, failed or not, leaves exactly one new getUpdates request, for ids above all dispatched as `int64_t` |
| `BotUpdates.OtherCompletionsIgnored` | core/main.c:84-111 | any other completion leaves the context alone and has result 0; that of a getUpdates call has the call's result, or 0 if it failed |
| `BotUpdates.MovesRefineProcessing` | core/main.c:55-141 | for batches below 2^32, however the workers interleave, the moves between taking up a completion and letting go of it come to `process_cqe` as a function, and its result decides the early exit |
| `BotRounds.RoundOrder` | core/main.c:113-141 | submission, wait, visits of the completions one after the other, advance, in this order |
| `BotRounds.RoundEnds` | core/main.c:155-159 | after a round the bot goes back to the submission unless the last completion visited is a getUpdates one with a positive result |
| `BotRounds.StoppedByResult` | core/main.c:155-159 | it has stopped only after such a completion |
| `BotUpdates.BatchLoopExit` | core/main.c:72 | at the loop test `i` is the number dispatched from the batch modulo 2^32; the loop is left if and only if the whole batch has been dispatched and has fewer than 2^32 updates |
| `BotUpdates.OversizedBatchNeverEnds` | core/main.c:72 | over runs, from a batch of 2^32 updates or more the main thread stays in it for good and visits no further completion |
| `BotRuns.OversizedBatchIsReachable` | core/main.c:72 | every reply of that size leads there |
| `BotLoop.TgBotContext.constructor` | core/main.c:143-153 | a new context over an empty ring |
| `BotLoop.TgBotContext.FillEntry` | core/main.c:38-42 | fills one entry in, submitting first only if there is no room; the retry always succeeds |
| `BotLoop.TgBotContext.ArmUpdateSqe` | core/main.c:18-32 | drops the batch and fills in the request for `max_update_id + 1` |
| `BotLoop.TgBotContext.ProcessTgApiUpdate` | core/main.c:34-53 | one reference taken, one MODULE_HANDLE request for this update filled in |
| `BotLoop.TgBotContext.ProcessTgApiUpdates` | core/main.c:55-82 | the loop over the batch, the ids compared as `int64_t`, and the rearming on every path, for the batches for which the loop ends |
| `BotLoop.TgBotContext.ProcessCqe` | core/main.c:84-111 | a getUpdates completion is processed, with its result; any other changes nothing and has result 0 |
| `BotLoop.TgBotContext.VisitNext` | include/gw/ring.h:136-139 | one turn of the for-each loop with workers posting meanwhile |
| `BotLoop.TgBotContext.VisitCqes` | core/main.c:132-140 | the loop visits the completions posted, in order, each once, stops at the first non-zero result or with none of those left that were there on entry, and releases exactly those visited |
| `LockOrder.StepKeepsLockInv` | core/ring.c:87-138 | taking and giving back locks as the code does keeps mutual exclusion and each thread within its role |
| `LockOrder.LocksAreExclusive` | core/workqueue.c:281-302 | at every point of every run no lock is held twice |
| `LockOrder.WaitGraphAcyclic` | core/ring.c:178-207 | no thread waits, directly or through others, for itself; joins included |
| `LockOrder.WorkersWaitForRunningThreads` | core/workqueue.c:399-424 | workers never need `sq_lock`, and whoever they wait for is running: a submitter asleep in `queue_work` never blocks a worker |
| `LockOrder.NobodyWaitsForSleepers` | core/ring.c:296-316 | nobody waits for a lock held across a `cond_wait` |
| `LockOrder.SomeoneCanMove` | core/ring.c:87-138 | every wait for a lock comes down, in at most two hops, to a thread that can take a step |
| `LockProjection.EventProjects` | core/ring.c:105-316 | every event of ring and queue up to the teardown is a run over the three mutexes, between the places its threads stand at |
| `LockProjection.SystemsAreReachableLocks` | core/ring.c:105-316 | so every state of ring and queue up to the teardown is one of those the lock order speaks of |

## Left out

- Wake-up liveness of callers blocked in `queue_work`: a finishing worker skips the wake-up when no other is running, and neither the end of a drain nor the shutdown signals them. What is stated about submission and queueing there is partial correctness; `QuietRunsAreFinite` bounds their steps.
- Failure of `thread_create`, and the error paths of `alloc_workers`, `alloc_workqueue` and `gw_ring_init`: creation and allocation succeed there. A failing `malloc` in `punt_to_io_wq` is modelled.
- Several submitting threads on one ring: `gw_ring_get_sqe` publishes the entry before the caller fills it in, and the program has one submitter.
- Weak memory: each access to an atomic index is one step.
- `lib/tgapi.c`, `lib/curl.c`, `core/print.c`, the modules, `core/thread.cc` and `main()`. getUpdates is an environment step with a result and a batch of ids, reference counting is a count of calls, and log output is dropped. `try_queue_work` is declared in the header but defined nowhere.
- BotDispatch.UpdatesDispatchedOnce: assumes replies that hold distinct, fully parsed ids from the offset on, below 2^63 - 1, fewer than 2^32 of them (`BotModel.LegalReply`). `MovesRefineProcessing` assumes the last part only; the other results about the bot hold on every reply. Where `max_update_id + 1` overflows, which C leaves undefined, the model goes on with the mathematical sum.
- BotLoop.TgBotContext.ProcessTgApiUpdates: asks for fewer than 2^32 updates, which by `BotUpdates.BatchLoopExit` are the batches for which the loop ends; `ProcessCqe` and the methods of the for-each loop pass this on.
- WorkQueue.WorkQueue.QueueWork: assumes fewer than 2^32 callers inside at once, so that the `uint32_t` counter does not wrap.
- WorkQueue.WorkQueue.WaitAllWorkDone: `cond_wait` loops are methods for the section up to the sleep and the section after it, called by the scheduler of the transition system; that holds for `queue_work`, `gw_ring_wait_cqe` and the workers too.
- Ring.GwRing.Submit: the outcomes of the punts are its parameter, because a punt may sleep inside `queue_work` until other threads have moved the queue; `PuntToIoWq` and `PuntToIoWqAgain` say what the outcomes are on a work queue, and the transition system runs ring and queue together. Workers' posts in between are bounded by a budget, so that the method ends, but otherwise arbitrary.
- Ring.GwRing.SubmitSqe: takes the outcome of its punt as a parameter, for the same reason.
- BotLoop.TgBotContext.VisitCqes: covers the bot's loop from the return of `gw_ring_wait_cqe` on; the submission and the wait before it are the methods of the ring. A successful wait leaves a completion in the ring, so that the loop assigns `ret` before it is looked at.
- LockProjection.EventProjects: leaves out the teardown, which `LockOrder` has the client carry out and the transition system does not assign to a thread.
- LockOrder.SomeoneCanMove: covers waits for locks. Waits on conditions are the subject of the wake-up lemmas, waits in `thread_join` of the shutdown lemmas.
- `gw_ring_destroy` may stop the ring while the client sleeps in `gw_ring_wait_cqe`, but is taken to go on to `destroy_workqueue` only once the client is outside the ring, as `core/main.c` does.
