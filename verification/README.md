# Verified models of the scheduler, the read and write pipeline, and the arithmetic kernels

This project models five parts of the repository in Dafny and proves what they
promise.

**The DAGR scheduler.** A pipeline's task graph is validated with Kahn's
algorithm, then driven through poll, dispatch and complete phases over a node
table, a FIFO ready queue and a pool of exclusive ranks; a failure cancels
everything below it. Dispatch refusals and completion reports are arbitrary
inputs of each cycle. `Graphs`, `DagValidation`, `RankPools`,
`RankPoolObjects`, `Scheduling`, `SchedulerInvariant`, `SchedulerRuns`,
`EventLoops` and `Orchestration` hold the graph theory, the specification
functions, the inductive invariant with its consequences over whole runs, and
the objects that update the tables in place.

**The write pipeline.** `WriteOrdering` is the worker pool's ordering protocol
as atomic steps of any number of workers, `Draining` says when it runs empty, and
`WorkerPools` is the object whose locked sections are those steps.

**The read pipeline.** `Staging`, `StagingLaws` and `StagingPools` model the
buffer allocator, `Prefetching` the sections of a look-ahead queue,
`SyncPrefetching`, `FetchSizes`, `FetchLaws` and `PrefetchQueues` the queue
without a worker pool, and `Ownership`, `ReadPath`, `ReadRuns`, `LateReads`,
`CloseRaces` and `ReadCores` the interleaving of many readers, workers, view
releases and closes over one pool. The backend driver is a function from
timestep and selection to contents that may also throw or claim any byte
count.

**Handles.** `Handles` and `HandleTables` refine a partial map from tokens to
payloads by a slab of generation-stamped slots.

**Arithmetic.** `Sync` (with `Arithmetic`) computes heartbeats and
synchronisation periods in 64-bit range; `Splines` (with `SplineLaws`),
`Gradients` (with `GradientFits`) and `Bilinear` are the column spline, the
least-squares gradient and the bilinear weight generator over real numbers.

In each component the state is a value, every operation is a function on it,
and the objects' methods are proved equal to those functions; invariants and
theorems are lemmas about the functions. `Collections` and `Reals` hold what
several components share.

Where the code and its documentation disagree the model follows the code:

* `staging_pool.hpp` (line 101) says that an oversized request grows the smallest free
  buffer; the code grows the largest, which `Staging.BestFit` shows to be the
  one that needs least growth. `Staging.GrowsSmallestExactlyWhen` says when the
  two agree, and `Staging.GrowsLargerBuffer` reaches pools where they do not.
* `prefetch_queue.hpp` (line 117) says that a returned buffer always matches the
  requested box; the look after the deadline compares no selections
  (`LateReads.AnswersMatchExactlyWhen` gives the exact condition on the
  requests, `LateReads.WrongAnswer` the failing runs).
* The guard of a close is there so that no view is live on a closed dataset; it
  does not see reads under way. `CloseRaces.ViewedLaterExactlyWhen` says exactly
  which of them can still end with a view, `LateReads.ClosingViewReached`
  reaches one.
* `dagr.hpp` (line 63) says that reclaiming defers allocated ranks; unknown ranks are
  deferred too (`Orchestration.DeferredAreAllocated`,
  `Orchestration.UnmanagedReclaimUndoesYield`).
* `worker_pool.cpp` answers OK to a submission after shutdown without
  enqueuing it (`WriteOrdering.AcceptedUnlessShutdown`,
  `WriteOrdering.AcceptedOverRun`).
* The column spline solves for half the second derivatives of the natural
  spline (`SplineLaws.SolvesIsNatural`) but evaluates them as slopes
  (`SplineLaws.EvaluatesCubic`), so lines are lost
  (`Splines.LinesReproducedExactlyWhen`).

## Model

| member | source | states |
|---|---|---|
| DagValidation.ValidateDag | libs/dagr/src/graph_orchestrator.cpp:180-242 | Kahn's algorithm is exact: accepted if and only if every endpoint is in range and the edge list has no cycle; a dangling verdict names the offending id of the first bad edge; a cycle verdict names, in id order, the least two tasks on or below a cycle, or the only one |
| DagValidation.FindDangling | libs/dagr/src/graph_orchestrator.cpp:183-191 | the first loop finds the first out-of-range edge, if any, and the id it reports |
| DagValidation.BuildAdjacency | libs/dagr/src/graph_orchestrator.cpp:193-200 | the adjacency lists hold each edge with its multiplicity, and the counters are the numbers of incoming edges |
| DagValidation.SortNodes | libs/dagr/src/graph_orchestrator.cpp:202-222 | Kahn's loop ends with every sorted task numbered after all its producers and the rest still owed an edge by an unsorted producer |
| DagValidation.FinishNode | libs/dagr/src/graph_orchestrator.cpp:212-221 | one pass of the inner loop keeps the sorting invariant; counters never underflow |
| DagValidation.SortedIsAcyclic | libs/dagr/src/graph_orchestrator.cpp:224-241 | when the sorted count reaches the task count the order it found respects every edge, so there is no cycle |
| DagValidation.UnsortedIsBelowCycle | libs/dagr/src/graph_orchestrator.cpp:225-240 | a task whose counter stayed positive lies on or below a cycle, also with duplicate edges and self-loops |
| DagValidation.BelowCycleIsUnsorted | libs/dagr/src/graph_orchestrator.cpp:225-240 | conversely every task on or below a cycle is left with a positive counter |
| DagValidation.SameCycles | libs/dagr/src/graph_orchestrator.cpp:193-200 | cycles of the configured edges are exactly the cycles of the adjacency lists |
| Graphs.BackwardClosedHasCycle | libs/dagr/src/graph_orchestrator.cpp:224-241 | a non-empty set of tasks each with a producer in the set contains a cycle |
| SchedulerInvariant.PollKeeps | libs/dagr/src/event_loop.cpp:121-131 | polling keeps the invariant and leaves no pending task whose counter is zero |
| SchedulerInvariant.PollOrder | libs/dagr/src/event_loop.cpp:121-131 | the tasks that became ready join the back of the queue in id order, each once, and nobody else moves |
| SchedulerInvariant.CancelKeeps | libs/dagr/src/event_loop.cpp:263-300 | the visited-set-free cascade ends with every consumer of a failed or cancelled task cancelled, and cancels nothing that has started |
| SchedulerInvariant.FailKeeps | libs/dagr/src/event_loop.cpp:244-300 | a failure keeps the invariant: ranks returned, one fewer running, cancelled set closed under consumers |
| SchedulerInvariant.FinishKeeps | libs/dagr/src/event_loop.cpp:216-234 | a success keeps every counter equal to the number of edges from producers that have not completed; the 32-bit decrement never wraps |
| SchedulerInvariant.StartKeeps | libs/dagr/src/event_loop.cpp:144-171 | a dispatch keeps the invariant: exactly the required ranks, disjoint from all others, within the concurrency cap |
| SchedulerRuns.DispatchKeeps | libs/dagr/src/event_loop.cpp:135-190 | the dispatch phase with any pattern of refusals keeps the invariant, disturbs no running task, and starts the front task whenever it fits; what becomes of each task is DispatchOutcome's |
| SchedulerRuns.DispatchOutcome | libs/dagr/src/event_loop.cpp:135-190 | over a whole dispatch phase a prefix of the queue leaves it, in order: of those tasks each refused one has failed and each other one runs; every other task is untouched or cancelled; and the phase ends only with the queue empty, the cap reached, or the front task's demand above the number of free ranks |
| SchedulerRuns.DispatchedByAnswer | libs/dagr/src/event_loop.cpp:177-188 | a ready task that has failed after the phase was refused, and one that runs was not |
| SchedulerRuns.CompleteKeeps | libs/dagr/src/event_loop.cpp:194-240 | the completion phase with any reports, repeated, unknown or late, does to each running task what its first report says and to nobody else more than cancel |
| SchedulerRuns.RunKeeps | libs/dagr/src/event_loop.cpp:63-77 | the whole invariant holds after any sequence of cycles with any environment |
| SchedulerRuns.FreshKeeps | libs/dagr/src/graph_orchestrator.cpp:246-266 | a freshly populated table satisfies the invariant |
| SchedulerRuns.CancelledIffFailedAncestor | libs/dagr/src/event_loop.cpp:244-300 | in every reachable state a task is cancelled exactly when some task above it has failed |
| SchedulerRuns.BelowRunningIsWaiting | libs/dagr/src/event_loop.cpp:281-291 | nothing below an unfinished task is ready, running, completed or failed, so the cascade never meets a running dependent |
| SchedulerRuns.DispatchOrder | libs/dagr/src/event_loop.cpp:121-190 | the history lists each task's dispatch at most once, and only after success of every ancestor |
| SchedulerRuns.CycleDispatches | libs/dagr/src/event_loop.cpp:63-77 | with nothing in flight, work left, no cycles and affordable demands, a cycle dispatches a task |
| SchedulerRuns.CycleShrinks | libs/dagr/src/event_loop.cpp:63-77 | a cycle in which some running task is reported makes the set of unfinished tasks strictly smaller |
| SchedulerRuns.RunTerminates | libs/dagr/src/event_loop.cpp:63-240 | if the environment reports at least one running task per cycle, everything is terminal after as many cycles as there were unfinished tasks |
| Orchestration.StepsTerminate | libs/dagr/src/graph_orchestrator.cpp:394-406 | the same across deferred reclamation, with yields and reclaims in any order between the steps: if the demands are affordable from some ranks that are never reclaimed, as many responsive steps as there are unfinished tasks complete everything |
| SchedulerRuns.FinalState | libs/dagr/src/event_loop.cpp:81-88 | a finished run holds no ranks, has nothing queued or in flight, and dispatched exactly the tasks without a failed ancestor |
| EventLoops.EventLoop.RunCycle | libs/dagr/src/event_loop.cpp:63-77 | the object's cycle is the specified cycle and answers whether all tasks are terminal |
| EventLoops.EventLoop.PollReadyNodes | libs/dagr/src/event_loop.cpp:121-131 | the scan over the node table equals its specification |
| EventLoops.EventLoop.DispatchReadyNodes | libs/dagr/src/event_loop.cpp:135-190 | the dispatch loop over queue, pool and table equals the phase that DispatchOutcome describes |
| EventLoops.EventLoop.ProcessCompletions | libs/dagr/src/event_loop.cpp:194-240 | the completion loop equals its specification |
| EventLoops.EventLoop.CompleteTask | libs/dagr/src/event_loop.cpp:216-234 | the success branch: status, ranks, counters and the decrement loop |
| EventLoops.EventLoop.PropagateFailure | libs/dagr/src/event_loop.cpp:244-300 | the breadth-first loop over the deque terminates and equals its specification |
| EventLoops.EventLoop.ReleaseRanksOf | libs/dagr/src/event_loop.cpp:221-224 | a finished or failed task's ranks return to the pool and its record is cleared |
| EventLoops.EventLoop.Create | libs/dagr/src/event_loop.cpp:35-49 | construction is refused exactly outside the two configured ranges |
| EventLoops.EventLoop.AllDone | libs/dagr/src/event_loop.cpp:81-88 | true exactly when every status is terminal |
| Orchestration.GraphOrchestrator.Construct | libs/dagr/src/graph_orchestrator.cpp:86-98 | construction fails exactly on an invalid graph or configuration; otherwise the loop satisfies the invariant on an acyclic graph with one rank per task and the whole world free |
| Orchestration.GraphOrchestrator.AdvanceStep | libs/dagr/src/graph_orchestrator.cpp:394-406 | one cycle followed by deferred reclamation |
| Orchestration.GraphOrchestrator.ProcessDeferredReclamation | libs/dagr/src/graph_orchestrator.cpp:288-302 | removes the deferred ranks that are free and forgets exactly those |
| Orchestration.GraphOrchestrator.YieldRanks | libs/dagr/src/graph_orchestrator.cpp:455-467 | adds the yielded ranks that are new |
| Orchestration.GraphOrchestrator.ReclaimRanks | libs/dagr/src/graph_orchestrator.cpp:471-485 | removes the free ones and remembers the rest |
| Orchestration.YieldMeaning | libs/dagr/src/graph_orchestrator.cpp:455-467 | after a yield the pool has exactly its own and the yielded ranks, the new ones free, and the old ones held by whom they were held by |
| Orchestration.ReclaimMeaning | libs/dagr/src/graph_orchestrator.cpp:471-485 | a reclaim takes every named free rank out of the pool at once, leaves every held one with its task, and adds exactly the named ranks it did not take to those it remembers |
| Orchestration.RanksConserved | libs/dagr/src/event_loop.cpp:135-240 | over any mix of steps, yields and reclaims: total equals available plus the sum of held set sizes, held sets are disjoint and of the required sizes, in-flight is the running count and within the cap |
| Orchestration.DeferredLeaveWhenFree | libs/dagr/src/graph_orchestrator.cpp:288-302 | a reclaimed rank in use is never taken from its task and leaves at the end of the first step in which it is free; the ranks free after a step are those free after its cycle less the deferred ones |
| Orchestration.DeferredAreAllocated | libs/dagr/include/dagr/dagr.hpp:63-65 | the interface's claim that deferred ranks are allocated ones is kept by every operation except a reclaim, which keeps it exactly when every named rank belongs to the pool |
| Orchestration.UnmanagedReclaimUndoesYield | libs/dagr/src/graph_orchestrator.cpp:471-485 | the other case, for every pipeline: a rank the pool never had is remembered, and the first step after it is yielded takes it away again, unless that step's dispatch left it with a task |
| Orchestration.RunReturnsOnlyWhenEmpty | libs/dagr/src/graph_orchestrator.cpp:341-376 | with run()'s own callbacks no number of its rounds, deferred reclamation included, finishes a non-empty pipeline |
| RankPools.AllocateMeaning | libs/dagr/src/rank_pool.cpp:23-60 | all or nothing: takes exactly count free ranks if that many are free, else changes nothing |
| RankPools.AllocatesFirst | libs/dagr/src/rank_pool.cpp:31-58 | free ranks are handed out in slot order: none is passed over |
| RankPools.ReleaseMeaning | libs/dagr/src/rank_pool.cpp:62-80 | frees exactly the named ranks that were held, and counts them |
| RankPools.AddMeaning | libs/dagr/src/rank_pool.cpp:82-102 | adds exactly the new ranks, free |
| RankPools.RemoveMeaning | libs/dagr/src/rank_pool.cpp:104-145 | swap-and-pop removes exactly the named free ranks and keeps every held one |
| RankPools.Sizes | libs/dagr/src/rank_pool.cpp:147-157 | the counters are the sizes of the free and held sets |
| RankPoolObjects.RankPool.TryAllocate | libs/dagr/src/rank_pool.cpp:23-60 | the scan over the bits equals its specification and the rollback branch cannot be reached |
| RankPoolObjects.RankPool.Release | libs/dagr/src/rank_pool.cpp:62-80 | the scan over the bits equals its specification |
| RankPoolObjects.RankPool.AddRanks | libs/dagr/src/rank_pool.cpp:82-102 | the nested loops equal their specification |
| RankPoolObjects.RankPool.RemoveAvailable | libs/dagr/src/rank_pool.cpp:104-145 | the index collection and the descending swap-and-pop equal their specification, and report the ranks removed |
| WriteOrdering.WritesRunInOrder | libs/amio/src/workers/worker_pool.cpp:151-194 | under any interleaving and any number of workers, per key the executed writes are submissions 0, 1, 2, ... each once, at most one runs, queued plus running numbers are exactly [exec_seq, next_seq), and each of them is in one place: once in the queue or in one callback |
| WriteOrdering.StepKeeps | libs/amio/src/workers/worker_pool.cpp:324-447 | every atomic step keeps the protocol invariant |
| WriteOrdering.RunKeeps | libs/amio/src/workers/worker_pool.cpp:324-447 | so does every run |
| WriteOrdering.AcceptedOverRun | libs/amio/src/workers/worker_pool.cpp:151-194 | over any run the accepted writes are, in order, exactly the submissions made before shutdown and below capacity; an answer of OK promises neither |
| WriteOrdering.AcceptedUnlessShutdown | libs/amio/src/workers/worker_pool.cpp:151-194 | one submission: an answer of OK means the write was enqueued exactly when the pool was not shut down; a full queue consumes no sequence number |
| WriteOrdering.TryStarts | libs/amio/src/workers/worker_pool.cpp:351-452 | what one execution attempt starts: the write in front when its turn has come, otherwise a queued prefetch than which no queued one is nearer; exactly that leaves its queue, and the worker stays idle exactly when there is neither |
| WriteOrdering.PrefetchesRunOnce | libs/amio/src/workers/worker_pool.cpp:196-213 | over every run the prefetches submitted before shutdown are, with multiplicity, those queued, those inside a callback and those that have run; the counter is the number of finished ones, and a drained pool has run each exactly once |
| WriteOrdering.SomeTaskEligible | libs/amio/src/workers/worker_pool.cpp:355-396 | with writes queued and none running, some queued task's turn has come |
| WriteOrdering.RotationFindsWork | libs/amio/src/workers/worker_pool.cpp:361-396 | a task whose turn has come has started after more tries than there are tasks in front of it, whatever submissions, completions and other tries happen in between |
| WriteOrdering.KeyCompletes | libs/amio/src/workers/worker_pool.cpp:324-447 | however many submissions keep arriving, an accepted write has run after one lap of the workers for each write of its key that is still ahead of it, and one for itself |
| Draining.DrainCompletes | libs/amio/src/workers/worker_pool.cpp:236-243 | without further submissions the predicate drain() waits for comes true, both queues empty and nothing in flight, within as many rounds as there were queued tasks, and one more if a worker was busy; every accepted write has run, per key in submission order, and every accepted prefetch once |
| Draining.RoundExists | libs/amio/src/workers/worker_pool.cpp:324-447 | from every reachable state such a round exists exactly when there is a worker or nothing is queued |
| Draining.DrainExists | libs/amio/src/workers/worker_pool.cpp:236-243 | so with a worker any number of rounds can be run from any such state |
| WorkerPools.WorkerPool.SubmitWriteTask | libs/amio/src/workers/worker_pool.cpp:151-194 | the locked submission equals its specification and keeps the invariant |
| WorkerPools.WorkerPool.SubmitPrefetchTask | libs/amio/src/workers/worker_pool.cpp:196-213 | a prefetch is queued unless the pool is shut down |
| WorkerPools.WorkerPool.BeginOne | libs/amio/src/workers/worker_pool.cpp:351-399 | the locked half of an execution attempt, pop, compare, re-enqueue or start with the prefetch fallback, equals the step that TryStarts describes |
| WorkerPools.WorkerPool.EndCallback | libs/amio/src/workers/worker_pool.cpp:415-434 | after the callback, thrown or not, exec_seq advances by one |
| WorkerPools.WorkerPool.FinishOne | libs/amio/src/workers/worker_pool.cpp:436-437 | the completion and in-flight counters match the histories of writes and prefetches |
| WorkerPools.WorkerPool.IsDrained | libs/amio/src/workers/worker_pool.cpp:236-243 | the drain predicate holds exactly when both queues are empty and no worker is busy, and then every accepted write has run, per key in order, and every accepted prefetch once |
| Staging.BestFit | libs/amio/src/staging/staging_pool.cpp:226-257 | the smallest sufficient committed free buffer, else an uncommitted one, else the free buffer that needs least growth |
| Staging.GrowsSmallestExactlyWhen | libs/amio/src/staging/staging_pool.hpp:100-105 | when a buffer has to grow it is a largest free one; it is a smallest, as the header says, exactly when all free buffers have the same capacity |
| Staging.GrowsLargerBuffer | libs/amio/src/staging/staging_pool.hpp:100-105 | a pool reachable by two requests of any two sizes and their release, in which the documented choice is not the one made |
| Staging.AcquireMeaning | libs/amio/src/staging/staging_pool.cpp:87-144 | fails exactly when every slot is held and none may be added; otherwise hands out an unheld slot with room and disturbs no other |
| Staging.ReuseAllocatesNothing | libs/amio/src/staging/staging_pool.cpp:242-247 | with a sufficient committed buffer free no storage is touched and the smallest such is used |
| Staging.RunKeeps | libs/amio/src/staging/staging_pool.cpp:87-178 | over any run the free list has no duplicates, is exactly the slots without references, stays sorted by capacity; capacities never shrink; slots never exceed the ceiling; committed bytes are within ceiling times the larger of nominal and largest request |
| Staging.ReleaseKeeps | libs/amio/src/staging/staging_pool.cpp:146-170 | the sorted insertion keeps the invariant |
| Staging.InitialKeeps | libs/amio/src/staging/staging_pool.cpp:35-79 | a new pool satisfies it |
| StagingLaws.InitialMeaning | libs/amio/src/staging/staging_pool.cpp:35-79 | its slots are all there, free and empty, and none of their memory is committed |
| StagingLaws.CommitsGrowth | libs/amio/src/staging/staging_pool.cpp:204-272 | every operation changes the committed bytes by exactly what the slot it hands out grows by: nothing on reuse, return or a further reference |
| StagingLaws.GrantsAreEmpty | libs/amio/src/staging/staging_pool.cpp:146-152 | a buffer is always handed out with no used bytes, however it was filled before it was returned |
| StagingLaws.StaysClean | libs/amio/src/staging/staging_pool.cpp:87-178 | every operation keeps the slots that nobody holds empty |
| StagingLaws.FilledStaysClean | libs/amio/src/prefetch/prefetch_queue.cpp:393-396 | so does a driver filling a buffer its fetch holds |
| StagingLaws.ReferencesBalance | libs/amio/src/staging/staging_pool.cpp:146-178 | over any run the references of a slot are those it had, plus its grants and added references, less its releases |
| StagingLaws.ReusesReturned | libs/amio/src/staging/staging_pool.cpp:156-163 | a buffer returned last serves the next request it fits, unless a smaller free one does |
| StagingPools.StagingPool.Acquire | libs/amio/src/staging/staging_pool.cpp:87-144 | the retry loop with auto-growth equals its specification |
| StagingPools.StagingPool.Release | libs/amio/src/staging/staging_pool.cpp:146-170 | dropping a reference equals its specification |
| StagingPools.StagingPool.FindBestFit | libs/amio/src/staging/staging_pool.cpp:226-257 | the three scanning passes equal their specification |
| StagingPools.StagingPool.EnsureStorage | libs/amio/src/staging/staging_pool.cpp:259-272 | storage is replaced only when too small |
| StagingPools.StagingPool.RemoveFromFreeList | libs/amio/src/staging/staging_pool.cpp:274-285 | one reference, a new stamp, out of the free list |
| StagingPools.StagingPool.AddReference | libs/amio/src/staging/staging_pool.cpp:172-178 | one more reference |
| StagingPools.StagingPool.CommittedBytes | libs/amio/src/staging/staging_pool.cpp:204-211 | the sum of all capacities |
| Prefetching.BboxSameMeaning | libs/amio/src/prefetch/prefetch_queue.cpp:44-62 | two selections count as the same exactly when the driver is handed the same box |
| Prefetching.SectionsKeep | libs/amio/src/prefetch/prefetch_queue.cpp:218-300 | a timestep is in at most one of being fetched, staged and failed, and pending is exactly what is being fetched until cancellation |
| Prefetching.DropAllKeeps | libs/amio/src/prefetch/prefetch_queue.cpp:237-254 | cancelling releases exactly the staged slots |
| SyncPrefetching.ReadsRefineDriver | libs/amio/src/prefetch/prefetch_queue.cpp:79-206 | after any sequence of reads, look-ahead calls, returns and cancellations from an empty queue: every buffer handed out still holds the driver's record for its timestep and box, and the next read that succeeds delivers the same for its own, in a buffer nobody else holds |
| SyncPrefetching.CallsKeep | libs/amio/src/prefetch/prefetch_queue.cpp:79-254 | every such sequence keeps the queue's invariant and every delivered buffer |
| SyncPrefetching.GetBufferMeaning | libs/amio/src/prefetch/prefetch_queue.cpp:79-206 | one read in synchronous mode, whatever selections came before: an OK result holds exactly the driver's record for this timestep and this box, in a buffer nobody else holds; an error comes with its cause and is never a timeout; FetchLaws.ReadyWhen and RefusedWhen say which answer it is |
| FetchSizes.PayloadMeaning | libs/amio/src/prefetch/prefetch_queue.cpp:323-357 | the computed size is the element size times the number of index vectors the box selects in its counted dimensions, modulo 2^64, whenever the element size is known and those extents are positive |
| FetchSizes.IndicesMeaning | libs/amio/src/prefetch/prefetch_queue.cpp:326-333 | those index vectors are exactly the ones below the extents in every dimension |
| FetchSizes.AcquireBytesMeaning | libs/amio/src/prefetch/prefetch_queue.cpp:321-361 | a fetch asks for the true size of its box, else of the whole record, modulo 2^64, and for one nominal buffer when that is nothing |
| FetchLaws.ReadyWhen | libs/amio/src/prefetch/prefetch_queue.cpp:79-206 | told from the state and the driver alone: if the true size is below 2^64 and the driver neither throws nor fills more than that, a read of a timestep without a recorded failure is ready exactly when the timestep is staged or the pool is not exhausted, and reports backpressure otherwise |
| FetchLaws.RefusedWhen | libs/amio/src/prefetch/prefetch_queue.cpp:79-206 | a recorded failure is returned first; a cancelled queue and a driver that throws are backend failures; a full pool is backpressure, before the driver is asked |
| FetchLaws.CancelRefuses | libs/amio/src/prefetch/prefetch_queue.cpp:237-316 | after a cancellation, whatever is called, the driver is never called again and every read is refused |
| FetchLaws.GetTracks | libs/amio/src/prefetch/prefetch_queue.cpp:92-142 | the first read schedules exactly the depth timesteps from its own on that exist, later reads only their own, and every read takes its own timestep off the books |
| FetchLaws.StaysAhead | libs/amio/src/prefetch/prefetch_queue.cpp:208-216 | reading timestep after timestep, each read followed by its replenishment: after every read exactly the next depth timesteps that exist are fetched or failed already |
| FetchLaws.SectionsInSequence | libs/amio/src/prefetch/prefetch_queue.cpp:271-433 | a synchronous fetch equals the sections of an asynchronous one run in sequence, so both models share one fetch |
| FetchLaws.LastLook | libs/amio/src/prefetch/prefetch_queue.cpp:188-203 | the last look reports a timeout exactly when the timestep is neither staged nor failed, and leaves every other entry alone |
| SyncPrefetching.NextKeeps | libs/amio/src/prefetch/prefetch_queue.cpp:208-216 | scheduling ahead keeps the invariant and disturbs no delivered buffer |
| SyncPrefetching.FetchKeeps | libs/amio/src/prefetch/prefetch_queue.cpp:271-433 | a fetch lands the record, correctly labelled, in a slot nobody held, or records a failure with its cause, and touches no held slot |
| SyncPrefetching.CancelKeeps | libs/amio/src/prefetch/prefetch_queue.cpp:237-254 | cancelling frees every staged buffer and no other |
| SyncPrefetching.ReturnKeeps | libs/amio/src/c_boundary/amio_core.cpp:1224-1253 | a holder returning its buffer keeps the queue's invariant |
| PrefetchQueues.PrefetchQueue.GetBuffer | libs/amio/src/prefetch/prefetch_queue.cpp:79-206 | latch, kick-off, fast path, slow path and deadline equal the specification |
| PrefetchQueues.PrefetchQueue.KickOff | libs/amio/src/prefetch/prefetch_queue.cpp:97-106 | the look-ahead window opens at the requested timestep, min(depth, total - t) fetches long |
| PrefetchQueues.PrefetchQueue.Look | libs/amio/src/prefetch/prefetch_queue.cpp:108-137 | the check for a failure or a matching buffer, releasing a stale one |
| PrefetchQueues.PrefetchQueue.AfterDeadline | libs/amio/src/prefetch/prefetch_queue.cpp:188-203 | the last look, which compares no selections |
| PrefetchQueues.PrefetchQueue.ScheduleFetch | libs/amio/src/prefetch/prefetch_queue.cpp:271-301 | a fetch is scheduled unless cancelled or already tracked |
| PrefetchQueues.PrefetchQueue.FetchRecord | libs/amio/src/prefetch/prefetch_queue.cpp:313-418 | acquire, read, capacity guard, release on failure |
| PrefetchQueues.PrefetchQueue.BytesFor | libs/amio/src/prefetch/prefetch_queue.cpp:321-361 | how many bytes a fetch asks for, window, else record, else nominal, equals the number that FetchSizes.AcquireBytesMeaning explains |
| PrefetchQueues.PrefetchQueue.ScheduleNext | libs/amio/src/prefetch/prefetch_queue.cpp:208-216 | T + depth is scheduled if it exists |
| PrefetchQueues.PrefetchQueue.CancelPending | libs/amio/src/prefetch/prefetch_queue.cpp:237-254 | releases the staged buffers in timestep order and forgets everything |
| PrefetchQueues.PrefetchQueue.constructor | libs/amio/src/prefetch/prefetch_queue.cpp:20-38 | an empty queue; a depth outside its range is moved to the nearer end |
| PrefetchQueues.SameSelection | libs/amio/src/prefetch/prefetch_queue.cpp:44-62 | the comparison loop equals its specification |
| PrefetchQueues.DriverBox | libs/amio/src/prefetch/prefetch_queue.cpp:380-391 | the rank is kept, entries up to the rank are copied, the rest are zero |
| ReadRuns.SingleOwnership | libs/amio/src/c_boundary/amio_core.cpp:1087-1253 | after any run of reads, fetches, view releases and closes a slot is in exactly one of: the free list, one fetch inside the driver, one staged entry, one reader's hands, one view |
| LateReads.AnswersMatchExactlyWhen | libs/amio/src/prefetch/prefetch_queue.hpp:117-119 | the header promises that a returned buffer always matches the requested box; for reads under two valid windows of one shape, in any runs from an unused pool with room, that holds for every view if and only if the windows are the same box |
| LateReads.OneSelectionReadsRight | libs/amio/src/prefetch/prefetch_queue.cpp:79-206 | in any run in which a variable is read, and its fetches scheduled, under one selection as far as the driver can tell, every view of it shows the requested record, also those taken after the deadline |
| ReadRuns.PunctualViewsMatch | libs/amio/src/prefetch/prefetch_queue.cpp:79-173 | in any run in which no read waits past its deadline every view shows exactly the requested record and box, whatever selections are mixed |
| LateReads.WrongAnswer | libs/amio/src/prefetch/prefetch_queue.cpp:177-206 | for any two windows and contents that differ under them, a run of two reads ends with a view of the first window's bytes for a request of the second |
| CloseRaces.ViewedLaterExactlyWhen | libs/amio/src/c_boundary/amio_core.cpp:486-497 | from every state of the invariant, whatever else is going on: a view of a dataset can appear without a new read of it exactly when somebody is past its queues, holds a view, or waits for a timestep that is staged, past the cancellation check, or can still be scheduled; the close guard asks none of this |
| CloseRaces.AcquiresCanBeViewed | libs/amio/src/c_boundary/amio_core.cpp:1140-1178 | in particular a fetch that finds the pool full still ends in a view in some run, whoever holds the slots: fetches may fail, views may be released, and staged buffers are read or cancelled |
| ReadRuns.QuietForever | libs/amio/src/c_boundary/amio_core.cpp:486-497 | a dataset with no reader inside and no view has none after any run without a new read of it |
| LateReads.ClosingViewReached | libs/amio/src/c_boundary/amio_core.cpp:1140-1178 | from every unused pool with room a run passes the close guard during a read and ends with a view on the closing dataset |
| ReadRuns.RunDrains | libs/amio/src/prefetch/prefetch_queue.cpp:237-316 | over any run after cancellation a queue stages only what was already staged or past the cancellation check |
| ReadPath.StepKeeps | libs/amio/src/c_boundary/amio_core.cpp:1087-1253 | every interleaved section keeps ownership, labels, counts, tokens and queues consistent |
| ReadRuns.RunKeeps | libs/amio/src/c_boundary/amio_core.cpp:1087-1253 | so does every run |
| ReadPath.ViewShowsRecord | libs/amio/src/c_boundary/amio_core.cpp:1140-1175 | a view shows its variable's record at its timestep, under the requested box unless the buffer was taken after the deadline, within capacity |
| ReadPath.ViewIsStable | libs/amio/src/c_boundary/amio_core.cpp:1224-1253 | a live view survives every step but its own release, and its bytes do not change |
| ReadPath.CloseNeedsNoViews | libs/amio/src/c_boundary/amio_core.cpp:486-497 | a close gets past its guard exactly when no view of the dataset is counted: every one is uncounted again, or minted and not yet counted |
| ReadPath.FetchCanFinish | libs/amio/src/prefetch/prefetch_queue.cpp:393-432 | the buffer of a fetch inside the driver is still its own when the driver returns |
| ReadPath.MintKeeps | libs/amio/src/c_boundary/amio_core.cpp:1173-1175 | inserting the handle moves the buffer from the reader to the view, which nobody has counted yet |
| ReadPath.CountViewKeeps | libs/amio/src/c_boundary/amio_core.cpp:1178 | counting a view keeps the outstanding count equal to the number of counted views |
| ReadPath.ReleaseViewKeeps | libs/amio/src/c_boundary/amio_core.cpp:1231-1235 | returning a view's buffer frees its slot while the view is still counted and its token taken |
| ReadPath.UncountKeeps | libs/amio/src/c_boundary/amio_core.cpp:1237-1245 | uncounting keeps the outstanding count equal to the number of counted views |
| ReadPath.CancelKeeps | libs/amio/src/c_boundary/amio_core.cpp:509-517 | cancelling a variable's queue gives its staged buffers back |
| ReadPath.ResolveKeeps | libs/amio/src/c_boundary/amio_core.cpp:916-964 | a variable's read state is created at most once per dataset |
| Ownership.InOnePlace | libs/amio/src/staging/staging_pool.cpp:146-170 | given the pool and ownership invariants, a slot is free or held by exactly one owner |
| ReadCores.ValidateBbox | libs/amio/src/c_boundary/amio_core.cpp:857-883 | accepts exactly the boxes of the variable's rank all of whose selected indices exist, with strides and extents at least one |
| ReadCores.ReadCore.BeginRead | libs/amio/src/c_boundary/amio_core.cpp:1087-1133 | the checks in the source's order, each with its status, and the effect of those before it |
| ReadCores.ReadCore.ResolveVariable | libs/amio/src/c_boundary/amio_core.cpp:916-964 | returns the cached state or creates one, failing exactly when the variable is new and cannot be described |
| ReadCores.ReadCore.MintView | libs/amio/src/c_boundary/amio_core.cpp:1173-1178 | the end of a read equals the two steps insert and count |
| ReadCores.ReadCore.ReleaseView | libs/amio/src/c_boundary/amio_core.cpp:1224-1253 | a release equals the three steps return the buffer, uncount, free the token |
| ReadCores.ReadCore.BeginClose | libs/amio/src/c_boundary/amio_core.cpp:495-497 | refused exactly while the outstanding count is positive |
| Handles.LookupMeaning | libs/amio/src/c_boundary/handle_table.cpp:55-96 | lookup is the partial map's: success exactly on live tokens of the right kind, with their payload; zero is never live |
| Handles.InsertMeaning | libs/amio/src/c_boundary/handle_table.cpp:14-53 | insert binds a token that is neither zero nor live and changes nothing else; it returns zero exactly when all 2^32 - 1 slots are live |
| Handles.GrowsOnlyWhenFull | libs/amio/src/c_boundary/handle_table.cpp:14-40 | the table grows, by one slot, exactly when all its slots are live and one more is allowed |
| Handles.ReusesLastReleased | libs/amio/src/c_boundary/handle_table.cpp:19-26 | the slot released last is reused first, under its next generation |
| Handles.ReleaseMeaning | libs/amio/src/c_boundary/handle_table.cpp:98-131 | release removes exactly a live token of the right kind, and reports the two errors otherwise |
| Handles.StaleUntilWrapped | libs/amio/src/c_boundary/handle_table.cpp:118-129 | over any later run, a released token is live again exactly when its slot is live and has been released a multiple of 2^32 - 1 times |
| Handles.GenerationAfter | libs/amio/src/c_boundary/handle_table.cpp:122-128 | a slot's generation after any run is a function of the number of its releases |
| Handles.PackRoundTrip | libs/amio/src/c_boundary/handle_table.hpp:154-164 | unpacking undoes packing |
| Handles.UnpackRoundTrip | libs/amio/src/c_boundary/handle_table.hpp:154-164 | packing undoes unpacking |
| HandleTables.HandleTable.Insert | libs/amio/src/c_boundary/handle_table.cpp:14-53 | recycles the last free slot, else appends one, else returns zero |
| HandleTables.HandleTable.Lookup | libs/amio/src/c_boundary/handle_table.cpp:55-96 | the chain of checks equals its specification |
| HandleTables.HandleTable.Release | libs/amio/src/c_boundary/handle_table.cpp:98-131 | the chain of checks, the generation bump that skips zero and the free list equal their specification |
| Sync.SyncPeriodMeaning | libs/tick/src/sync.cpp:24-41 | the result is l exactly when all steps are positive and l is their least common multiple and fits in 64 bits; overflow exactly when some all-positive prefix has no common multiple in range; otherwise the non-positive step |
| Sync.OrderIndependent | libs/tick/src/sync.cpp:24-41 | the period, and whether there is one, does not depend on the order of the steps; with positive steps neither does the error |
| Sync.OutcomeOrderFree | libs/tick/src/sync.cpp:24-41 | the whole outcome, error included, is the same for every order of the steps exactly when all are positive or the positive ones have a common multiple in range |
| Sync.HeartbeatMeaning | libs/tick/src/sync.cpp:9-22 | the heartbeat is the greatest common divisor, or the non-positive-step error |
| Sync.HeartbeatDividesPeriod | libs/tick/src/sync.cpp:9-41 | the heartbeat divides the period |
| Sync.GuardExact | libs/tick/src/sync.cpp:36-37 | the division guard fires exactly when the product exceeds the range |
| Sync.ComputeSyncPeriod | libs/tick/src/sync.cpp:24-41 | the loop equals its specification; no intermediate value leaves the 64-bit range |
| Sync.ComputeHeartbeat | libs/tick/src/sync.cpp:9-22 | the loop equals its specification |
| Arithmetic.LcmLeast | libs/tick/src/sync.cpp:34-39 | a / gcd * b is a common multiple that divides every common multiple |
| Splines.SolveColumnSpline | libs/axis/src/detail/tspack.cpp:46-74 | for three nodes and more, whatever the nodes, the in-place result satisfies every tridiagonal equation with zero ends; for two it is the slope; for fewer nothing changes |
| Splines.SolutionUnique | libs/axis/src/detail/tspack.cpp:54-73 | that system has no other solution |
| Splines.Eliminate | libs/axis/src/detail/tspack.cpp:55-69 | forward elimination leaves coefficients in [0, 1/2) and the eliminated right-hand sides |
| Splines.PivotPositive | libs/axis/src/detail/tspack.cpp:65-66 | so every denominator is positive and its fallback is never taken |
| Splines.Substitute | libs/axis/src/detail/tspack.cpp:70-73 | back substitution, in place |
| Splines.Interpolates | libs/axis/src/detail/tspack.cpp:10-22 | the cubic passes through both nodes, whatever the slopes |
| SplineLaws.EvaluatesCubic | libs/axis/src/detail/tspack.cpp:10-22 | every cubic is reproduced, at every point, from its values and its first derivatives at the two nodes; an empty interval yields the lower value |
| SplineLaws.CubicExists | libs/axis/src/detail/tspack.cpp:10-22 | there is such a cubic for any two values and slopes |
| SplineLaws.SolvesIsNatural | libs/axis/src/detail/tspack.cpp:54-73 | on increasing nodes a vector solves the system exactly when it is half the second derivatives of the natural cubic spline: pieces through the nodes that join with continuous slope and do not bend at the ends |
| SplineLaws.SolvesIsNaturalPushed | libs/axis/src/detail/tspack.cpp:57-60 | on any nodes it is that of the nodes with every gap that is not positive made 1e-15 wide |
| Splines.TwoNodesReproduceLines | libs/axis/src/detail/tspack.cpp:10-22 | with two nodes the line through them is reproduced |
| Splines.LinesReproducedExactlyWhen | libs/axis/src/detail/tspack.cpp:10-73 | with three nodes and more, solving and evaluating reproduces a line exactly when it is level, or at the ends and the middle of an interval |
| Gradients.CramerSolves | libs/axis/src/solver/gradient_reconstructor.cpp:33-57 | unless the determinant test fails, Cramer's rule returns the one solution of the symmetric system |
| Gradients.ExactOnAffine | libs/axis/src/solver/gradient_reconstructor.cpp:76-137 | if the data are affine on a cell and its neighbours, at least three of them, and the test passes, the cell's gradient is the exact coefficient vector |
| GradientFits.RawFits | libs/axis/src/solver/gradient_reconstructor.cpp:76-137 | with three neighbours and a determinant that passes, the gradient is the one least-squares fit: over all the cell's neighbours no other vector has as small a sum of squared misfits; otherwise it is zero |
| Gradients.DegenerateExactlyWhen | libs/axis/src/solver/gradient_reconstructor.cpp:33-44 | the determinant vanishes exactly on flat stencils, those whose offsets are all orthogonal to some direction |
| Gradients.FlatIsZero | libs/axis/src/solver/gradient_reconstructor.cpp:76-137 | on a flat stencil the gradient is zero, whatever the data |
| Gradients.AffineExactlyWhen | libs/axis/src/solver/gradient_reconstructor.cpp:76-137 | data affine on the stencil are reproduced exactly when there are three neighbours and the test passes, or the coefficients are zero |
| Gradients.LimiterBounds | libs/axis/src/solver/gradient_reconstructor.cpp:144-197 | with the limiter on, every neighbour reconstruction lies in the stencil's range up to 1e-30 |
| GradientFits.FactorLargest | libs/axis/src/solver/gradient_reconstructor.cpp:160-192 | the factor is the largest in [0, 1] under which no significant change leaves the range of the stencil |
| GradientFits.RangeAttained | libs/axis/src/solver/gradient_reconstructor.cpp:150-158 | both ends of that range are values of the cell or a neighbour |
| Gradients.LimitedExactOnAffine | libs/axis/src/solver/gradient_reconstructor.cpp:144-197 | on such a cell the limiter changes nothing |
| Gradients.Compute | libs/axis/src/solver/gradient_reconstructor.cpp:66-200 | the two loops over cells equal their specification |
| Gradients.CellGradient | libs/axis/src/solver/gradient_reconstructor.cpp:77-137 | the accumulation of the normal equations over all neighbours equals the function that RawFits describes |
| Gradients.LimitCell | libs/axis/src/solver/gradient_reconstructor.cpp:145-197 | the range, the factor and its clamp |
| Bilinear.GeneratedExact | libs/axis/src/solver/weight_generator_bilinear_rect_nonuniform.cpp:58-115 | applied to samples of any a + bx + cy + dxy at the cell centres, row c of the matrix returns that function at destination c's centroid clamped to the hull of the centres |
| Bilinear.WeightsArePartition | libs/axis/src/solver/weight_generator_bilinear_rect_nonuniform.cpp:98-108 | four in-range columns with non-negative weights that sum to one |
| Bilinear.FractionMeaning | libs/axis/src/solver/weight_generator_bilinear_rect_nonuniform.cpp:90-99 | the clamped position stands for the clamped coordinate |
| Bilinear.ClampIsNearest | libs/axis/src/solver/weight_generator_bilinear_rect_nonuniform.cpp:90-99 | the clamped coordinate is the one in the hull of the centres that is nearest |
| Bilinear.EnclosesOnce | libs/axis/src/solver/weight_generator_bilinear_rect_nonuniform.cpp:74-88 | the interval is determined by the coordinate |
| Bilinear.Generate | libs/axis/src/solver/weight_generator_bilinear_rect_nonuniform.cpp:26-115 | the generator pushes, row by row, the four entries of each destination's stencil |
| Bilinear.Locate | libs/axis/src/solver/weight_generator_bilinear_rect_nonuniform.cpp:75-88 | upper bound and clamping find the enclosing interval, or the nearest end one |
| Bilinear.UpperBound | libs/axis/src/solver/weight_generator_bilinear_rect_nonuniform.cpp:75-76 | the number of centres not above the value |
| Bilinear.StencilFor | libs/axis/src/solver/weight_generator_bilinear_rect_nonuniform.cpp:75-99 | both coordinates' interval and clamped position |
| Bilinear.CellCentroid | libs/axis/src/solver/weight_generator_bilinear_rect_nonuniform.cpp:59-72 | the mean of the vertices |
| Bilinear.CentroidBalances | libs/axis/src/solver/weight_generator_bilinear_rect_nonuniform.cpp:59-72 | it is the one point from which the deviations of the vertices add up to zero |
| Bilinear.CellCentres | libs/axis/src/solver/weight_generator_bilinear_rect_nonuniform.cpp:37-44 | midpoints of consecutive edges |

## Left out

- Orchestration.RunReturnsOnlyWhenEmpty: exceptions and messages of `run()` after the loop are not modelled; the loop does not end on a non-empty pipeline.
- ReadCores.ValidateBbox: the corner of a box is computed in unbounded integers; boxes whose corner overflows 64-bit arithmetic are outside what it says about the source.
- PrefetchQueues.PrefetchQueue.GetBuffer: a synchronous caller enters the wait loop once, since nobody else can wake it; spurious wake-ups and other threads are the subject of `ReadPath`.
- ReadPath.ReleaseViewKeeps: a token is released once, after its read has returned it; two releases of one token racing past the handle lookup are not distinguished.
- ReadPath.MintKeeps: the token is any unused one (`Handles.InsertMeaning` supplies it).
- EventLoops.EventLoop.DispatchReadyNodes: tasks that need zero ranks are excluded, because allocation throws on them; `populate_nodes` always sets one.
- WriteOrdering.TryStarts: which of several equally near prefetches starts is left open, as the source's priority queue leaves it.
- Draining.DrainCompletes: rounds exist (`Draining.RoundExists`), but that the threads are scheduled in rounds, with enough tries and started callbacks returning, is an assumption that stands for time. `WriteOrdering.KeyCompletes` makes the same assumption lap by lap.
- Gradients.Compute: rounding, and division by tiny determinants, are not modelled; all arithmetic is over the reals. The parallel loops are run in index order, since each cell writes only its own gradient.
- Splines.SolveColumnSpline: two coincident nodes as the whole column divide by zero in the source and are excluded; rounding is not modelled.
- Bilinear.Generate: grids with fewer than two cells in a direction, edges that do not increase and cells without vertices are excluded, as the source divides by zero or reads past its arrays there.
- The tension branch of `evaluate_spline`, spherical geometry and vector rotation: transcendental functions.
- `force_cancel_in_flight` and shutdown: they cancel without touching dependents; all scheduler statements are about runs up to that call.
- Deadlock detection, logging, timestamps, condition variables and memory orders: every lock-protected section is one step, `exec_seq` is read and written atomically, and timeouts are steps that may happen at any time.
- Worker-pool backpressure (it gives up after a second and enqueues anyway), the legacy submission overloads whose zero is ambiguous, outcome recording and thread pinning.
- Submissions that race with the shutdown flag: a submission sees the flag as it is when its section runs.
- The 64-bit sequence and completion counters of the worker pool are unbounded.
- `amio_write`, `flush` and `wait`: wall-clock polling, and a pending write is counted even when its submission was refused.
- Communicator split and release, MPI, Kokkos, NetCDF, PROJ, YAML parsing, bindings and concrete drivers: foreign libraries.
- `schedule_initial` and the diagnostic counters of the queue and the pool: easy members beside those modelled.
- The node table is stored by columns (status, counters, ranks) instead of one record per node; node names are ids.
- The completion callback is a list of reports per cycle; callbacks that call back into the loop are not modelled.
