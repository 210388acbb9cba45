# Batch gateway: the batch-job lifecycle, verified

The gateway accepts batches over HTTP, stores a record for each in a job database, puts an entry
into a priority queue ordered by SLO, and lets processors take entries, run the jobs line by line
and write status. This project models that lifecycle and the in-memory clients underneath it, and
proves what holds over every schedule of handlers, polling loops, jobs and line goroutines.

## How it is organised

Three machines are given by labels, a predicate `Enabled(s, l)` and a function `Apply(s, l)`; a
schedule is a sequence of labels each of which is enabled, and the theorems range over all of them.

- `ProcessJob` (theorems in `ProcessJobTheorems`): `processJob` with its producer goroutine,
  unbuffered line channel, semaphore, WaitGroup, mutex, one goroutine per line, and a context that
  may be cancelled at any moment (internal/processor/worker/worker.go:236-360). The stub of three
  lines is generalised to any number of lines, and `MaxJobConcurrency` to any number. `Enabled` and
  `LineEnabled` say where each goroutine blocks; `Apply` and `ApplyLine` are its steps. When a select
  has two ready branches both are allowed.
- `PollingLoop`: one processor, that is the loop, the worker-ID pool and all its job goroutines,
  each containing a `ProcessJob` state and all sharing one context
  (internal/processor/worker/worker.go:111-177). What the queue and the database answer is left open.
  `ProcessorLoad` counts line goroutines over all jobs.
- `Lifecycle` (invariant in `LifecycleInvariant`, theorems in `LifecycleTheorems` and
  `CancelStability`): any number of CreateBatch and CancelBatch handlers, polling loops and jobs over
  one database, one queue and one status store. One action is one client call, atomic, which may fail
  without effect; running jobs contain a `ProcessJob` state. The component `place` is a history
  variable that no action consults.

The in-memory clients are classes, each method proved against a function of the old contents:
`MockQueue` (an array slice that is shifted and re-sliced in place), `JobStore`, `EventChannels`
and `Pool`. `QueueSpec` and `StoreSpec` hold queue and database as values, shared by the classes and
by `Lifecycle`; `PollingLoop` shares the steps of `Pool`; `QueueRefinement` relates the queue to an
abstract priority queue. `Handlers` and `Poller` hold the handlers and the loop's client calls as
sequential methods over those classes, and show that what they do alone is a run of one `Lifecycle`
actor.

Instants are integers (nanoseconds where durations matter); a UUID is an ID not used before; the
serialized spec and status of a record are values, or bytes that do not decode.

## What the proofs found

- The polling loop receives worker IDs straight from the pool's channel and never adds to its
  WaitGroup, but `Release` always calls `Done`. So the first `Release` panics, and until then `Stop`
  does not wait for running jobs (`PollingLoop.FirstReleasePanics`, `PollingLoop.StopDoesNotWait`;
  `Pool.PoolAccounting` has the exact condition). The runs of `PollingLoop` go on past the panic, so
  its theorems hold of the real, shorter runs as well.
- A line goroutine returns its semaphore token before it calls `Done`. Counting goroutines until they
  are done, `MaxJobConcurrency` can be exceeded; `ProcessJobTheorems.AliveWithinLimitIff` says exactly
  when. Goroutines that still own a token, in particular those inside the inference call, respect it.
  Over a whole processor it is the same: with a live context token owners stay within NumWorkers times
  `MaxJobConcurrency` (`ProcessorLoad.LoadBound`), goroutines before `Done` do not
  (`ProcessorLoad.AliveLoadWithinIff`).
- After the context is cancelled the token-owning goroutines of a processor have no bound, unless one of
  the two limits is zero (`ProcessorLoad.LoadBoundAfterCancelIff`): each returns its token only once it
  has looked at the context. None of them enters the inference call any more, so the calls in progress
  stay within the bound at all times (`ProcessorLoad.CallsBound`).
- When `processJob` returns early on a cancelled context with lines left, the producer goroutine is stuck
  for ever in its send, because nobody receives from the unbuffered channel any more
  (`ProcessJobTheorems.StrandedForever`). That can happen exactly when the job has two lines or more
  (`ProcessJobTheorems.ProducerLeaksIff`), and it is the only deadlock with a positive
  `MaxJobConcurrency` (`ProcessJobTheorems.StuckIff`).
- With `MaxJobConcurrency` 0 a job with lines waits until its context is cancelled, if it ever is
  (`ProcessJobTheorems.DeadlockFreeUnlessStrandedIff`).
- A `Dequeue` with a negative number of entries panics on a non-empty queue and keeps the mutex
  (`MockQueue.MockBatchPriorityQueueClient.Dequeue`); the polling loop asks for one.
- Two overlapping cancels of one batch can replace `cancelled` by `cancelling`
  (`CancelStability.OverlappingCancels`); `CancelStability.CancelledIsStableIff` says exactly when
  a cancelled record is safe.
- The job database never shows a completed batch: the processor writes back the status it fetched
  (`LifecycleTheorems.RecordsKeepTheirStaticPart`). With a database that hands out copies this also
  undoes a cancel of a running batch (`CancelStability.CancellingIsOverwritten`).
- The database interface says that a Get without IDs and tags returns no records
  (internal/database/api/database.go:64); the in-memory client returns all of them, up to the limit.
  `JobStore.MockBatchDBClient.Get` follows the code.
- The database interface says that Update merges non-empty dynamic fields; the in-memory client
  replaces the whole record. On the runs of this system the two agree
  (`LifecycleTheorems.UpdateSimulatesMerge`).

## Model

| member | source | states |
|---|---|---|
| LifecycleTheorems.ExclusiveDispatch | internal/processor/worker/worker.go:111-224 | in every reachable state of any interleaving an ID's token is with one creating handler, one polling loop or one job, or queued, or withdrawn; the queue has no ID twice and no ID is given to processJob twice |
| LifecycleTheorems.NothingDisappears | internal/apiserver/batch/batch_handler.go:175-194 | over whole runs, a created ID is with a creating handler that is not rolling back, a polling loop or a job, or queued, or withdrawn, if and only if no Store, Enqueue or re-enqueue made for it in the run failed |
| LifecycleTheorems.QueueWithinStore | internal/processor/worker/worker.go:200-220 | the queue is sorted with the records' SLOs; every queued, fetched or running ID has a record, so a successful Get finds it and "does not exist" is unreachable |
| LifecycleTheorems.CancelExcludesRun | internal/apiserver/batch/batch_handler.go:368-383 | an ID whose Remove returned more than 0 is never given to processJob, before or after, and the converse |
| LifecycleTheorems.StatusHistory | internal/processor/worker/worker.go:256-261 | over whole runs, all status writes for one ID are those of its one job: an initial part of in_progress, validating, finalizing, completed, all four once that job has returned normally, and finalizing implies that all its line goroutines have ended |
| LifecycleTheorems.RecordsKeepTheirStaticPart | internal/database/api/database.go:31-38 | ID, SLO, TTL, spec and tags never change while a record exists, and its status is only validating, cancelling or cancelled |
| LifecycleTheorems.UpdateSimulatesMerge | internal/database/api/database.go:77-81 | every run with whole-record replacement is, state by state, the run with the documented merge of non-empty dynamic fields |
| StoreSpec.MergeAgreesIff | internal/database/api/database.go:77-81 | replacing one record is the documented merge if and only if the static part is unchanged and no empty field replaces a non-empty one |
| CancelStability.CancelledIsStableIff | internal/apiserver/batch/batch_handler.go:361-417 | a cancelled record stays unchanged in every continuation if and only if no other cancel of the ID is past its status check and before its write; likewise over the runs of the in-memory client, which shares its records |
| CancelStability.SeparateCancelsAreStable | internal/apiserver/batch/batch_handler.go:361-366 | if cancels of the ID never overlap after their check, cancelled is final, and every later cancel is refused |
| CancelStability.OverlappingCancels | internal/apiserver/batch/batch_handler.go:372-413 | a run of two overlapping cancels in which cancelled is written and then replaced by cancelling |
| CancelStability.ThreatOverwrites | internal/apiserver/batch/batch_handler.go:379-413 | from any reachable state with cancelled stored, a cancel past its check can run to its end and overwrite the record |
| CancelStability.CancellingIsOverwritten | internal/processor/worker/worker.go:355-357 | a run in which a cancel of a running batch stores cancelling and the job's own update then stores the record as it was fetched |
| LifecycleInvariant.NextInv | internal/processor/worker/worker.go:180-224 | every action of every actor keeps the lifecycle invariant |
| LifecycleInvariant.WithdrawInv | internal/apiserver/batch/batch_handler.go:379-383 | taking an ID out of the queue by a cancel keeps the invariant: its token is then nowhere else |
| LifecycleInvariant.DispatchInv | internal/processor/worker/worker.go:163-175 | starting the job goroutine keeps the invariant: the fetched ID was dispatched never before |
| LifecycleInvariant.IntoQueueInv | internal/processor/worker/worker.go:215-218 | enqueuing, by creation or re-enqueue, keeps the queue sorted and free of duplicates and moves the one token |
| ProcessJobTheorems.ConcurrencyBound | internal/processor/worker/worker.go:269-305 | under every schedule at most MaxJobConcurrency line goroutines own a token, and at most that many lines are inside the inference call |
| ProcessJobTheorems.AliveWithinLimitIff | internal/processor/worker/worker.go:301-305 | goroutines that have not called Done stay within MaxJobConcurrency under every schedule if and only if the job has no more lines than that, or it is 0 |
| ProcessJobTheorems.StatusOrderAndBarrier | internal/processor/worker/worker.go:339-358 | the status writes are an initial part of in_progress, validating, finalizing, completed, and all four on normal return; from the moment finalizing is about to be written every line goroutine has ended, the semaphore is empty and the WaitGroup is zero; completed is written exactly on return |
| ProcessJobTheorems.RecordIsWrittenOnce | internal/processor/worker/worker.go:352-358 | over whole runs the job updates its database record at most once, exactly once if it returns normally, and then after finalizing and before completed |
| ProcessJobTheorems.LinesConserved | internal/processor/worker/worker.go:277-346 | unreceived, in flight, succeeded, failed, skipped and abandoned lines add up to Total at every moment of every schedule; at most one is abandoned; each counter is the number of lines with that outcome |
| ProcessJobTheorems.ValidateIffNoneSkipped | internal/shared/batch/batch_job.go:52-54 | when wg.Wait has returned, Validate holds if and only if no goroutine took the cancelled branch |
| ProcessJobTheorems.CallOutcomeIsTallied | internal/processor/worker/worker.go:319-335 | a line is counted as succeeded or failed as its inference call returned, whatever else happens |
| ProcessJobTheorems.MutualExclusion | internal/processor/worker/worker.go:321-335 | at most one line goroutine is between Lock and Unlock |
| ProcessJobTheorems.RunsAreBounded | internal/processor/worker/worker.go:283-339 | no schedule is longer than 10 steps per line plus 10 |
| ProcessJobTheorems.StepDecreases | internal/processor/worker/worker.go:283-339 | every step of every goroutine lowers an explicit measure |
| ProcessJobTheorems.DeadlockFreeIff | internal/processor/worker/worker.go:283-299 | in every reachable state where the job's, the producer's or some line's goroutine has not ended one of them can move, if and only if there are no lines, or one line and MaxJobConcurrency is at least 1 |
| ProcessJobTheorems.DeadlockFreeUnlessStrandedIff | internal/processor/worker/worker.go:269-299 | apart from a producer stranded by an early return, which needs a cancelled context, some goroutine can move until all have ended if and only if MaxJobConcurrency is at least 1 or there are no lines |
| ProcessJobTheorems.StuckIff | internal/processor/worker/worker.go:283-299 | the exact deadlocks: a stranded producer after all else has ended, or a job goroutine waiting for a token of an empty semaphore capacity |
| ProcessJobTheorems.StrandedForever | internal/processor/worker/worker.go:285-298 | after an early return with lines left no continuation sends another line or closes the channel, so the producer never ends |
| ProcessJobTheorems.ProducerLeaksIff | internal/processor/worker/worker.go:285-298 | some run strands the producer if and only if the job has at least two lines |
| ProcessJobTheorems.MaximalRunsReturn | internal/processor/worker/worker.go:292-359 | a run that cannot be extended has the job goroutine over and no line goroutine left, and the producer ended unless it is stranded; uncancelled everything has ended, and without client panic it returned normally with all lines counted |
| ProcessJob.StepInv | internal/processor/worker/worker.go:236-360 | every step keeps semaphore, WaitGroup, mutex holder and tally equal to what the goroutines' positions say |
| PollingLoop.WorkerIdsConserved | internal/processor/worker/worker.go:123-176 | on every path the IDs 1..NumWorkers are partitioned among channel, loop and job goroutines, no two share one, and the send in Release never blocks |
| ProcessorLoad.LoadBound | internal/processor/worker/worker.go:123-176 | with a live context, token-owning line goroutines over all jobs never exceed NumWorkers times MaxJobConcurrency |
| ProcessorLoad.CallsBound | internal/processor/worker/worker.go:307-319 | in every reachable state, before and after the end of the context, the inference calls in progress over all jobs never exceed NumWorkers times MaxJobConcurrency |
| ProcessorLoad.LoadBoundAfterCancelIff | internal/processor/worker/worker.go:294-299 | counting states after cancellation as well, that bound on token owners holds if and only if one of the two limits is zero |
| ProcessorLoad.AliveLoadWithinIff | internal/processor/worker/worker.go:300-305 | with a live context, line goroutines that have not called Done stay within NumWorkers times MaxJobConcurrency if and only if one of the two is zero |
| PollingLoop.FirstReleasePanics | internal/processor/worker/worker.go:128-140 | the pool's counter is at zero until the first Release has completed and negative from then on |
| PollingLoop.StopDoesNotWait | internal/processor/worker/worker.go:376-380 | a reachable state with the loop gone, the counter at zero and a job still working |
| PollingLoop.SleepsIffQueueWasEmpty | internal/processor/worker/worker.go:137-155 | over whole runs, after releasing its ID the loop waits for the poll interval if the last Dequeue found nothing, and goes straight on if a fetch failed |
| Pool.PoolAccounting | internal/processor/worker/worker_pool.go:43-60 | for every client history the IDs stay partitioned, a client's Release never blocks, Done goes below zero exactly when no more IDs are out than were received past TryAcquire, and WaitAll passes exactly when the numbers are equal |
| Pool.CounterOfAcquirers | internal/processor/worker/worker_pool.go:43-60 | if all IDs are taken by TryAcquire the counter is maxWorkers minus the channel length, never negative, and WaitAll passes exactly when all IDs are home |
| Pool.DirectReceiveBreaksCounter | internal/processor/worker/worker.go:128-132 | one receive past TryAcquire: WaitAll passes with a worker out and its Release panics |
| Pool.WorkerPool.constructor | internal/processor/worker/worker_pool.go:31-39 | the fill loop leaves 1..maxWorkers in the channel, in order |
| Pool.WorkerPool.TryAcquire | internal/processor/worker/worker_pool.go:43-51 | the oldest free ID and a counted acquisition, or 0 and false with nothing changed |
| Pool.WorkerPool.Release | internal/processor/worker/worker_pool.go:53-56 | blocks exactly on a full channel, panics exactly when the counter was not positive, and sends before counting |
| QueueRefinement.RefinesStablePriorityQueue | internal/database/mock/mock_queue_client.go:39-114 | every sequence of Enqueue, Dequeue, Remove has the outputs of an abstract set-based priority queue ordered by (SLO, arrival), and the queue lists the pending entries in that order |
| QueueRefinement.EntriesConserved | internal/database/mock/mock_queue_client.go:39-114 | enqueued entries are, as a multiset, those handed out plus those still queued |
| QueueRefinement.DrainSortsStably | internal/database/mock/mock_queue_client.go:39-114 | after any sequence of operations, dequeuing everything hands out exactly what was enqueued and not handed out before, by SLO and then arrival, and empties the queue |
| QueueRefinement.PutBackMovesBehindEquals | internal/processor/worker/worker.go:213-218 | dequeuing one entry and re-enqueuing it moves it just behind its SLO equals, keeps order and multiset, and restores the queue if and only if those equals are the same entry |
| QueueRefinement.PutBackRestoresIff | internal/processor/worker/worker.go:213-218 | with distinct IDs the put-back restores the queue if and only if nothing else shares the head's SLO |
| MockQueue.MockBatchPriorityQueueClient.Enqueue | internal/database/mock/mock_queue_client.go:39-58 | search, append and in-place shift insert before the first strictly later SLO, everything else in order; the mutex is free again |
| MockQueue.MockBatchPriorityQueueClient.SearchInsertIndex | internal/database/mock/mock_queue_client.go:44-50 | the loop finds the first position with a strictly later SLO, or the end |
| MockQueue.MockBatchPriorityQueueClient.Remove | internal/database/mock/mock_queue_client.go:101-114 | splices out the first entry with the ID and returns 1, or changes nothing and returns 0 |
| MockQueue.MockBatchPriorityQueueClient.Dequeue | internal/database/mock/mock_queue_client.go:60-99 | with other clients acting between polls, ends within timeout / 10 ms + 2 polls (1 if the timeout is not positive), returning the front of the queue as of the last poll, or timing out or giving up exactly when the code does; the mutex is free unless a negative maxObjs met a non-empty queue, which panics |
| JobStore.MockBatchDBClient.Store | internal/database/mock/mock_db_client.go:37-40 | the record is stored under its ID |
| JobStore.MockBatchDBClient.Get | internal/database/mock/mock_db_client.go:42-67 | by IDs: the records found, in order; without IDs: distinct stored records, all or up to a positive limit |
| JobStore.MockBatchDBClient.Update | internal/database/mock/mock_db_client.go:69-75 | replaces an existing record, fails on a missing one |
| JobStore.MockBatchDBClient.Delete | internal/database/mock/mock_db_client.go:77-85 | removes the IDs and reports those that were there |
| StoreSpec.DeletedAreThePresent | internal/database/mock/mock_db_client.go:78-83 | the reported IDs are exactly the requested ones that were present, each once |
| StoreSpec.FoundAreTheStored | internal/database/mock/mock_db_client.go:45-53 | a Get by IDs returns the records of exactly the stored ones among the IDs, in the order asked |
| EventChannels.RegisteredMeansOpen | internal/database/mock/mock_event_client.go:44-141 | in every reachable state, misuse of close functions included, registered channels are exactly the open ones, no entry is empty, no channel is under two IDs, and no send meets a closed channel |
| EventChannels.ClosePanicsIff | internal/database/mock/mock_event_client.go:57-76 | a close function panics if and only if it ran before or the client was closed since the channel was made |
| EventChannels.BoundedFifo | internal/database/mock/mock_event_client.go:89-120 | under every interleaving, delivered plus buffered events are in order the events of exactly those sends to the channel that came when it buffered fewer than 100, all of its own ID; as many were delivered as the consumer received |
| EventChannels.SendAllDelivers | internal/database/mock/mock_event_client.go:95-117 | a whole ProducerSendEvents adds to each registered channel the events of its ID in order until it holds 100, and touches no other |
| EventChannels.OwnEventsAre | internal/database/mock/mock_event_client.go:95-106 | the events added are those whose ID is the channel's, each of them and in order |
| EventChannels.SentIdsAre | internal/database/mock/mock_event_client.go:95-117 | sentIDs lists the IDs of exactly those events that have a consumer, in order |
| EventChannels.MockBatchEventChannelClient.ConsumerGetChannel | internal/database/mock/mock_event_client.go:44-87 | a new open channel becomes the last consumer of its ID |
| EventChannels.MockBatchEventChannelClient.CloseFn | internal/database/mock/mock_event_client.go:57-76 | exactly this channel's registration goes, an empty entry is deleted, and the close panics exactly on a closed channel |
| EventChannels.MockBatchEventChannelClient.ProducerSendEvents | internal/database/mock/mock_event_client.go:89-120 | with a live context every registered channel ends with its old buffer plus its own events in order, up to 100, every other channel is unchanged, and sentIDs lists the events with a consumer; otherwise it stops at one select with everything before it complete |
| EventChannels.MockBatchEventChannelClient.Close | internal/database/mock/mock_event_client.go:126-141 | closes every registered channel without a panic and empties the registry |
| Handlers.BatchApiHandler.CreateBatch | internal/apiserver/batch/batch_handler.go:166-203 | accepted exactly if store and enqueue succeed, and then the record is stored and one entry with its SLO is added to the queue; a failed enqueue deletes the record again; a failed store changes nothing |
| Handlers.BatchApiHandler.CancelBatch | internal/apiserver/batch/batch_handler.go:326-420 | a queued batch leaves the queue and its record becomes cancelled at `now`, without an event; any other becomes cancelling at `now`, with one cancel event to its consumers that have room; final, missing and unnamed batches are refused; a failing call leaves the record as it was |
| Handlers.CreateIsALifecycleRun | internal/apiserver/batch/batch_handler.go:175-194 | what CreateBatch does alone is a whole run of one creating actor, from its begin to its end, with the same failing calls |
| Handlers.CancelIsALifecycleRun | internal/apiserver/batch/batch_handler.go:338-417 | what CancelBatch does alone is a whole run of one cancelling actor, from its begin to its end, with the same failing calls and clock |
| Poller.Processor.GetTaskFromQueue | internal/processor/worker/worker.go:180-197 | takes the head of the queue without waiting, or nothing |
| Poller.Processor.GetJobData | internal/processor/worker/worker.go:200-224 | the record of the fetched ID, or the entry back in the queue |
| Poller.Processor.PollOnce | internal/processor/worker/worker.go:135-155 | without faults the head leaves the queue and its record is dispatched; after a failed fetch the queue keeps its entries with the head just behind its SLO equals, or loses the head if the re-enqueue fails; an empty queue or a failed dequeue changes nothing |
| Poller.PollIsALifecycleRun | internal/processor/worker/worker.go:135-175 | one turn of the loop alone is a run of one polling actor that begins with its one Dequeue, has the same failing calls and the same dispatch, and ends where the next turn begins |

## Left out

- HTTP decoding and writing, routing, JSON text, request validation, logging, metrics and configuration: plumbing with no hard properties; requests, statuses and answers are values.
- The inference client, its retries and TLS: `Generate` is any success or failure that returns; a panic inside a line goroutine ends the process and so ends the run.
- Redis, PostgreSQL and file stores: not part of this model.
- ListBatches, RetrieveBatch and TTL arithmetic: read-only or standard-library parsing.
- Expiry of records, events and statuses: not implemented in the clients modelled.
- Delivery of cancel, pause and resume to a running job: the processor does not subscribe to event channels.
- A client call that fails after taking effect: calls are atomic and a failing call has no effect.
- Sharing of record pointers by the in-memory database: `JobStore` stores values. In `Lifecycle` the runs of that client are those where UpdateCall is the cancel's assignment of the new status to the shared record and a processor's Update has no effect (`CancelStability.InMemory`).
- A failing status write still counts as issued, because `processJob` ignores its error; a panicking one does not.
- One context per processor is kept in `PollingLoop`; in `Lifecycle` jobs may be cancelled independently, which allows more runs.
- The close function of a channel that is not in the registry, and handles in place of channel references: `EventChannels` names a channel by the order of creation, so aliasing of channel values is not modelled.
- The status client: its last write per ID is the last element of the status history in `Lifecycle`; the byte copies are not modelled.
- MockQueue.MockBatchPriorityQueueClient.Dequeue: the other clients that act between two polls ask for a non-negative number of entries and come when the mutex is free; what waits behind a mutex that a panic left locked is not modelled.
