# Verified model of the DAR runtime

DAR runs tasks on worker nodes. Inside a worker process a FIFO, first-fit scheduler hands queued tasks to worker threads
and keeps a resource pool per worker. Above the processes a control plane reserves capacity on nodes, launches tasks over
gRPC, collects their results, cancels them, and fails them when their node dies. This project models both state machines
and the fixed-point resource arithmetic they share, and proves what they keep.

| files | content |
|---|---|
| `common.dfy`, `resources.dfy`, `wire.dfy` | statuses, identifiers, finite sums; resource sets and pools; wire conversions |
| `task_manager.dfy`, `task_history.dfy` | task records; what each call answers and does, and what a record tells about its history |
| `scheduling.dfy`, `scheduling_outcomes.dfy`, `scheduler.dfy` | the scheduler's transactions as functions; everything they can come to; the objects that refine them |
| `local_runtime.dfy`, `local_invariant.dfy`, `local_workers.dfy`, `local_steps.dfy` | one runtime process as a step system, and its invariant |
| `local_theorems.dfy`, `local_progress.dfy`, `local_leak.dfy`, `local_notify.dfy`, `local_answers.dfy` | what every run of it guarantees; why draining ends; the leak it does not exclude; who is asleep on the condition variable; what clients can rely on |
| `node_registry.dfy`, `failure_detector.dfy` | node lifetimes, reservations, liveness over whole runs |
| `cluster_ledger.dfy`, `control_plane.dfy`, `control_invariant.dfy`, `control_books.dfy`, `control_theorems.dfy`, `control_answers.dfy`, `control_plane_object.dfy` | the reservation ledger and the control plane; when exactly its books balance; what it answers |
| `worker_service.dfy`, `worker_answers.dfy`, `node_manager.dfy`, `cluster.dfy` | idempotent launches, bounded redelivery, and the whole cluster over an unreliable network |
| `cluster_runs.dfy` | runs of the whole cluster on which something goes wrong |

How it is built. Each critical section of the source is one function from state to state. Classes with the source's fields
and loops are proved to compute those functions; what the functions come to is stated apart from them, over the state a
caller sees (the lemmas named `Answers` and `Outcomes`); and step systems interleave them: one step per critical section, with the
gaps of `worker.cpp:246-260` and `scheduler.cpp:491-509` left open. Theorems are about all finite runs. The network is the
set of all messages ever sent, so a message may be lost, duplicated and reordered at will; a request reaches whichever
processes were started at its endpoint. Handler outcomes, transport outcomes, clocks and random identifiers are parameters;
identifiers are only assumed fresh.

What the proofs found out about the code:

- A worker is idle again before its idle callback has taken its reservation back. If the scheduler dispatches to it in that
  gap, `running_.emplace` records nothing and the reservation is never returned. This happens exactly for requests that fit
  on one worker together: `NothingDroppedUnlessTwoFit` and `TwoThatFitCanLeak`. No run makes it good (`DroppedNeverReturns`),
  and a task that `Submit` accepted can wait for ever because of it (`LeakCanStarve`). Such starvation is the only thing that
  leaves a task queued in a quiet runtime (`NoStuckQueue`, `StarvedTaskWaits`). As long as handlers return and threads that can
  move do, it is also the only thing that keeps `Shutdown`'s wait for the queue from coming to an end (`DrainCanProceed`,
  `DrainIsBounded`), and it does keep it (`StarvedDrainHangs`).
- `Scheduler::Cancel` calls `notify_one` on a condition variable on which `Drain` may sleep beside the scheduler thread
  (`scheduler.cpp:209`, `scheduler.cpp:534`). A notification is missed exactly when a queued task is cancelled while both sleep
  and the wrong one is woken (`NothingMissedExactlyWhen`). After a leak this can be the last one: on the run of
  `CancelCanHangShutdown` the queue has drained and `Shutdown` never returns. Without it `DrainNeverDeadlocks`.
- `NodeRegistry::Release` carries no incarnation, `SubmitTask` rolls back without looking at its record, and a node that was
  removed may register again under the same incarnation with a full pool. On every run the books balance all along, and no
  release has failed, if and only if every step was `Sound` (`BooksBalanceExactlyWhen`, for the control plane and for the
  cluster): the three releasing steps find the reservation still held on the registered lifetime, or nothing to release on a
  registered node, and no registration starts a lifetime on which somebody holds something. Orderly runs are sound
  (`OrderlyIsSound`). Four runs of the whole cluster are not: `LostRepliesBreakRollback`, `RestartBreaksReport`,
  `RemovalBreaksReport` (removed and registered again under one incarnation: the report is refused although the node runs the
  very lifetime the task was placed on) and `RestartAbortsSweep` (the next incarnation registers between the scan that
  reported a node dead and `HandleNodeDead`: the sweep is abandoned, and no later scan reports that lifetime again,
  `SupersededIsNeverReported`).
- `SubmitTask`'s OK means that a worker process at the chosen node's endpoint answered OK to that very execution. The answer
  is an admission if it is the original's own or a replay sent after the verdict was stored; from the placeholder it is one
  only if the verdict stored later is OK (`SubmitOkMeans`). `SubmitSucceedsForNobody` is a run on which it is not: SubmitTask
  succeeds for a task that no process has.
- The worker's memory of executions dies with its process: a copy of a launch that reaches a restarted worker is submitted
  again (`RestartSubmitsAgain`), and that is the only way to cross `Runtime::Submit` twice (`OnlyRestartsRepeat`).
- The comment at `control_plane.cpp:292` says that after a failed dispatch the worker never accepted the task; on the run of
  `LostRepliesBreakRollback` it has finished it. The model follows the code.
- `TaskManager::Complete` does not ask whether the task is running: its gate lets a queued task through if the outcome says
  Cancelled (`CallAnswers`). No worker makes such a call (`WorkerCallsSucceed`).
- `CanTransition` allows cancelling pending and scheduled tasks; `TaskManager` does not, and the model follows `TaskManager`.
- The comment at `worker_service.h:106` says completed executions stay unknown; the code keeps them known for as long as the
  process lives, and so does the model.

## Model

| member | source | states |
|---|---|---|
| `Resources.IsValidResourceName` | cpp/src/dar/core/resource.cpp:14-39 | accepts exactly the non-empty names over letters, digits, `_`, `-` and `.` |
| `Resources.ResourceSet.Set` | cpp/src/dar/core/resource.cpp:98-122 | rejects bad names and negative quantities without effect; zero erases the entry; a canonical map stays canonical |
| `Resources.ResourcePool.CanFit` | cpp/src/dar/core/resource.cpp:138-151 | the loop answers whether every requested quantity is available, a missing resource counting as zero |
| `Resources.ResourcePool.Acquire` | cpp/src/dar/core/resource.cpp:153-181 | all or nothing; the two loops compute the pointwise difference with empty entries erased, no subtraction leaves int64 and no `Set` fails |
| `Resources.ResourcePool.Release` | cpp/src/dar/core/resource.cpp:183-213 | all or nothing; succeeds exactly when no more is given back than is lent out, and no addition leaves int64 |
| `Resources.PoolStaysOk` | cpp/src/dar/core/resource.h:142-167 | 0 <= available <= total for every resource and canonical maps survive both operations, successful or not |
| `Resources.PoolAnswers` | cpp/src/dar/core/resource.cpp:153-213 | an acquisition succeeds exactly if every requested quantity is there, a release exactly if every one was lent out; success moves exactly the request, failure changes nothing and has its own code |
| `Resources.NamesByCode` | cpp/src/dar/core/resource.cpp:14-39 | the accepted names, by character code |
| `Resources.AcquireReleaseRestores` | cpp/src/dar/core/resource.cpp:153-213 | acquire then release cannot fail and restores the exact map |
| `Resources.ReleaseAcquireRestores` | cpp/src/dar/core/resource.cpp:153-213 | release then acquire cannot fail and restores the exact map |
| `Resources.AcquiresCommute` | cpp/src/dar/core/resource.cpp:153-181 | two acquisitions that both succeed succeed in the other order too, with the same result |
| `Resources.ReleasesCommute` | cpp/src/dar/core/resource.cpp:183-213 | two releases that both succeed succeed in the other order too, with the same result |
| `Resources.AcquireReleaseCommute` | cpp/src/dar/core/resource.cpp:153-213 | an acquisition and a release that are both possible can be done in either order, with the same result |
| `Wire.QuantityRoundTrip` | cpp/src/dar/core/resource.cpp:48-78 | with every double operation off by at most 2^-53 relatively, in any direction, each quantity below 2^51 units comes back exactly |
| `Wire.BoundIsTight` | cpp/src/dar/core/resource.cpp:48-78 | 2^51 is the best bound of that error model: an admissible rounding changes the quantity 2^51 |
| `Wire.WholeUnits` | cpp/src/dar/core/resource.cpp:48-78 | a whole number of units decodes to ten thousand quantities each, whatever the rounding |
| `Wire.DecodesNearest` | cpp/src/dar/core/resource.cpp:48-78 | a decoded quantity is the nearest one up to the rounding of one product; negative, non-finite and too large doubles are rejected, and no other above the least |
| `Wire.SetDouble` | cpp/src/dar/core/resource.cpp:80-96 | a double is stored as its nearest quantity or rejected without effect (bad name, not finite, negative, too large) |
| `Wire.ResourcesToProto` | cpp/src/dar/serialization/serialization.cpp:268-285 | the loop encodes every entry and nothing else |
| `Wire.ResourcesFromProto` | cpp/src/dar/serialization/serialization.cpp:287-318 | all entries or none in any walk order: an unacceptable entry gives InvalidArgument and leaves the output alone |
| `Wire.ResourcesRoundTrip` | cpp/src/dar/serialization/serialization.cpp:268-318 | decoding the encoding of a canonical resource set with quantities below 2^51 units gives the same map |
| `Wire.DecodesEachEntry` | cpp/src/dar/serialization/serialization.cpp:287-318 | a wire map decodes exactly if every entry is acceptable, to its entries that are not zero |
| `Wire.StatusNumbers` | proto/common.proto:19-31 | status codes travel as the protocol's numbers, keep their message except for Ok, and any other number is an internal error |
| `Wire.StateNumbers` | proto/task.proto:10-19 | terminal states travel as the protocol's numbers, on both sides |
| `Wire.StatusRoundTrip` | cpp/src/dar/serialization/serialization.cpp:80-262 | a status survives the wire exactly when it is one the factory functions can make (no message on Ok) |
| `Wire.ReportedStateFaithful` | cpp/src/dar/worker/result_reporter.cpp:14-31 | reporter and control service together map terminal states, and only those, to terminal states, without confusing two |
| `TaskManagement.Lifecycle.TransitionTo` | cpp/src/dar/core/lifecycle.cpp:73-87 | moves exactly along the published relation; never lowers the rank and never leaves a terminal state |
| `TaskManagement.GateIsNarrower` | cpp/src/dar/runtime/task_manager.cpp:18-51 | every transition the manager allows is published and raises the rank; it refuses only the cancellation of pending and scheduled tasks |
| `TaskHistory.PublishedRelation` | cpp/src/dar/core/lifecycle.cpp:13-87 | the published relation leaves no terminal state, aborts any other, and otherwise goes up by exactly one rank; terminal are exactly the states nothing leaves |
| `TaskHistory.GateMoves` | cpp/src/dar/runtime/task_manager.cpp:18-51 | the gate moves one record by one lifecycle step or aborts a queued one; a refusal changes nothing |
| `TaskManagement.TaskManager.TransitionLocked` | cpp/src/dar/runtime/task_manager.cpp:18-51 | the in-place gate: moves one record or nothing |
| `TaskManagement.TaskManager.Register` | cpp/src/dar/runtime/task_manager.cpp:54-94 | a second registration and an empty handler are refused without effect; otherwise a pending record is added |
| `TaskManagement.TaskManager.MarkQueued` | cpp/src/dar/runtime/task_manager.cpp:96-109 | only a pending task becomes queued; anything else is refused without effect |
| `TaskManagement.TaskManager.MarkScheduled` | cpp/src/dar/runtime/task_manager.cpp:111-143 | only a queued task becomes scheduled, and worker, execution and one more attempt are bound together |
| `TaskManagement.TaskManager.MarkRunning` | cpp/src/dar/runtime/task_manager.cpp:145-156 | only a scheduled task starts running; anything else is refused without effect |
| `TaskManagement.TaskManager.Complete` | cpp/src/dar/runtime/task_manager.cpp:160-229 | an accepted completion commits the outcome in the terminal state its status asks for, with exactly one event carrying it |
| `TaskManagement.TaskManager.Cancel` | cpp/src/dar/runtime/task_manager.cpp:231-347 | aborts a queued task with its one event, sets the sticky token of a running one, refuses every other |
| `TaskManagement.TaskManager.GetResult` | cpp/src/dar/runtime/task_manager.cpp:440-482 | an unknown task is NotFound; a wait that ends early is DeadlineExceeded; a terminal task gives its stored status, and its result only on success |
| `TaskManagement.TaskManager.GetSpec` | cpp/src/dar/runtime/task_manager.cpp:381-397 | the stored request of a known task, NotFound for any other |
| `TaskManagement.TaskManager.GetCancellationToken` | cpp/src/dar/runtime/task_manager.cpp:420-438 | the sticky token of a known task, NotFound for any other |
| `TaskManagement.PerformTouchesOne` | cpp/src/dar/runtime/task_manager.cpp:18-347 | a call changes at most the record it names; a failed call changes nothing; an event is emitted exactly on becoming terminal |
| `TaskManagement.PerformKeeps` | cpp/src/dar/runtime/task_manager.cpp:18-347 | every call keeps well-formed records and one event per terminal task; terminal records, requests, tokens and bindings never change back |
| `TaskManagement.HistoryIsSound` | cpp/src/dar/runtime/task_manager.cpp:54-347 | over every history: at most one attempt per task and exactly one completion event per terminal task, carrying the record |
| `TaskManagement.HistoryOnlyMovesForward` | cpp/src/dar/runtime/task_manager.cpp:54-347 | over every history a record only moves forward and is frozen once terminal |
| `TaskManagement.RemainingDecreases` | cpp/src/dar/runtime/task_manager.cpp:96-347 | every enqueue, dispatch, start, completion and queued cancellation strictly lowers the summed remaining rank; nothing raises it |
| `TaskManagement.ProgressIsBounded` | cpp/src/dar/runtime/task_manager.cpp:54-347 | over every history there are at most four lifecycle steps per registered task |
| `TaskHistory.CallAnswers` | cpp/src/dar/runtime/task_manager.cpp:54-347 | every call's answer is decided by the state of the task it names, in the states listed there; a refusal changes nothing and emits nothing |
| `TaskHistory.CallEffects` | cpp/src/dar/runtime/task_manager.cpp:54-347 | what each accepted call leaves of the one record it names: Succeeded for Ok, Aborted for Cancelled, Failed for anything else; a running task that is cancelled gets its token set and nothing more |
| `TaskHistory.CallEvents` | cpp/src/dar/runtime/task_manager.cpp:160-347 | an event comes exactly from completing a task or cancelling a queued one, and carries what the record holds then |
| `TaskHistory.VerdictsMatch` | cpp/src/dar/runtime/task_manager.cpp:160-347 | over every history the state of a terminal record and the status it carries say the same |
| `TaskHistory.TerminalComesFrom` | cpp/src/dar/runtime/task_manager.cpp:160-347 | over every history a terminal record is the outcome of one completion that was accepted, or of the cancellation that found it queued |
| `TaskHistory.TokenExactlyWhen` | cpp/src/dar/runtime/task_manager.cpp:231-347 | over every history a token is set exactly if some cancellation found the task queued or running |
| `TaskHistory.BindingComesFrom` | cpp/src/dar/runtime/task_manager.cpp:111-143 | over every history worker and execution are those of the MarkScheduled call that found the task queued |
| `TaskHistory.RequestComesFrom` | cpp/src/dar/runtime/task_manager.cpp:54-94 | over every history a task's request is that of the call that registered it |
| `Scheduling.FirstFit` | cpp/src/dar/scheduler/placement.cpp:5-28 | the earliest offered worker whose available capacity fits, or none if none fits |
| `Scheduling.TryScheduleIsAtomic` | cpp/src/dar/scheduler/scheduler.cpp:280-485 | with the scheduler lock free in a started runtime, whichever idle worker with room placement comes to: the head is dispatched to that very worker, or, if placement comes to none, nothing changes; none of the rollback branches of 361-427 is taken |
| `SchedulingOutcomes.IdleIsOrderWithoutBusy` | cpp/src/dar/worker/worker_pool.cpp:136-152 | the idle list is the pool's order with every worker left out that is not idle |
| `SchedulingOutcomes.PlacementIsEarliest` | cpp/src/dar/scheduler/placement.cpp:5-28 | placement comes to the earliest idle worker of the pool's order that has every requested quantity left, or to none if there is none |
| `SchedulingOutcomes.EarliestIsUnique` | cpp/src/dar/scheduler/placement.cpp:5-28 | there is at most one such worker, so that the statement decides the choice |
| `SchedulingOutcomes.HeadGoesToEarliest` | cpp/src/dar/scheduler/scheduler.cpp:280-485 | in a ready state the head goes to that worker, with its record, slot, pool and ledger entry changed and nothing else; it goes nowhere, and nothing changes, exactly if there is none or the scheduler is stopping |
| `SchedulingOutcomes.TransactionOutcomes` | cpp/src/dar/scheduler/scheduler.cpp:280-485 | everything the transaction can come to from any state with pools in order: whatever makes it give up, pools and slots are exactly restored, and only a head that is not queued is lost from the queue |
| `SchedulingOutcomes.EnqueueOutcomes` | cpp/src/dar/scheduler/scheduler.cpp:133-169 | Enqueue takes exactly a pending task of a started scheduler that is not stopping |
| `SchedulingOutcomes.CancelOutcomes` | cpp/src/dar/scheduler/scheduler.cpp:171-221 | Cancel in each state of the task: NotFound, out of the queue and aborted, token set, or refused without effect |
| `SchedulingOutcomes.IdleOutcomes` | cpp/src/dar/scheduler/scheduler.cpp:487-523 | OnWorkerIdle takes out exactly that worker's ledger entry, and asks for a wake-up exactly in a running scheduler |
| `SchedulingOutcomes.SlotAnswers` | cpp/src/dar/worker/worker.cpp:94-175 | each of the three slot calls is accepted in one situation only, Unavailable means not started or stopping, and a refusal changes nothing |
| `Scheduling.HandoverSucceeds` | cpp/src/dar/scheduler/scheduler.cpp:432-485 | after Pop nothing can fail any more; an existing running_ entry is kept by emplace |
| `Scheduling.CancelNeverHalfDone` | cpp/src/dar/scheduler/scheduler.cpp:189-212 | cancelling a queued task removes it from the queue and aborts it, never only one of the two |
| `Scheduling.RemoveFirstOnce` | cpp/src/dar/scheduler/task_queue.cpp:59-73 | find-and-erase on a duplicate-free queue removes exactly that task and keeps the order |
| `SchedulerObjects.TaskQueue.Push` | cpp/src/dar/scheduler/task_queue.cpp:7-16 | appends |
| `SchedulerObjects.TaskQueue.Pop` | cpp/src/dar/scheduler/task_queue.cpp:23-42 | takes the oldest, or reports an empty queue |
| `SchedulerObjects.TaskQueue.Peek` | cpp/src/dar/scheduler/task_queue.cpp:44-57 | shows the oldest, or reports an empty queue |
| `SchedulerObjects.TaskQueue.Remove` | cpp/src/dar/scheduler/task_queue.cpp:59-73 | the search loop erases the first occurrence, or reports that there is none |
| `SchedulerObjects.ResourceManager.RegisterWorker` | cpp/src/dar/scheduler/resource_manager.cpp:7-28 | a worker is registered once, with everything available |
| `SchedulerObjects.ResourceManager.CanFitTotal` | cpp/src/dar/scheduler/resource_manager.cpp:45-75 | the loop compares with total, not available, capacity |
| `SchedulerObjects.ResourceManager.Acquire` | cpp/src/dar/scheduler/resource_manager.cpp:77-88 | finds the worker's pool object and takes from it, or reports an unknown worker; every other pool is untouched |
| `SchedulerObjects.ResourceManager.Release` | cpp/src/dar/scheduler/resource_manager.cpp:90-102 | finds the worker's pool object and gives back to it, or reports an unknown worker; every other pool is untouched |
| `SchedulerObjects.SelectWorker` | cpp/src/dar/scheduler/placement.cpp:5-28 | the loop computes the first fit |
| `SchedulerObjects.Worker.Reserve` | cpp/src/dar/worker/worker.cpp:94-115 | only an idle, started worker can be reserved |
| `SchedulerObjects.Worker.Dispatch` | cpp/src/dar/worker/worker.cpp:117-151 | only a reserved worker with an empty mailbox takes work |
| `SchedulerObjects.Worker.ReleaseReservation` | cpp/src/dar/worker/worker.cpp:153-175 | only an unused reservation can be given back |
| `SchedulerObjects.Worker.Take` | cpp/src/dar/worker/worker.cpp:177-210 | a stopping worker empties its mailbox before it exits |
| `SchedulerObjects.Worker.BecomeIdle` | cpp/src/dar/worker/worker.cpp:245-248 | the worker is idle again and nothing else about it changes |
| `SchedulerObjects.WorkerPool.IdleWorkers` | cpp/src/dar/worker/worker_pool.cpp:136-152 | the loop lists the idle workers in pool order: the order with every other worker left out |
| `SchedulerObjects.WorkerPool.TryReserve` | cpp/src/dar/worker/worker_pool.cpp:154-177 | reserves the named worker object, or reports a stopped pool or an unknown worker; every other worker is untouched |
| `SchedulerObjects.WorkerPool.ReleaseReservation` | cpp/src/dar/worker/worker_pool.cpp:179-196 | gives the named worker object's reservation back, or reports a stopped pool or an unknown worker; every other worker is untouched |
| `SchedulerObjects.WorkerPool.DispatchReserved` | cpp/src/dar/worker/worker_pool.cpp:198-216 | puts the work into the named worker object's mailbox, or reports a stopped pool or an unknown worker; every other worker is untouched |
| `SchedulerObjects.Scheduler.Enqueue` | cpp/src/dar/scheduler/scheduler.cpp:133-169 | marks the task queued, appends it and asks for a wake-up together, or changes nothing |
| `SchedulerObjects.Scheduler.Cancel` | cpp/src/dar/scheduler/scheduler.cpp:171-221 | takes a queued task out of the queue and aborts it together; otherwise leaves the queue alone |
| `SchedulerObjects.Scheduler.TryScheduleOne` | cpp/src/dar/scheduler/scheduler.cpp:280-485 | the step-by-step transaction over the worker, pool and queue objects, with its rollbacks, computes the transaction all run theorems step by; in a ready state the head goes to the earliest idle worker with room |
| `SchedulerObjects.Scheduler.OnWorkerIdle` | cpp/src/dar/scheduler/scheduler.cpp:487-523 | its three sections compose to erase, release, request a wake-up |
| `SchedulerObjects.Runtime.Submit` | cpp/src/dar/runtime/runtime.cpp:104-188 | closed, invalid, handlerless, infeasible and duplicate submissions are refused in that order without effect; an admitted one is registered and enqueued |
| `SchedulerObjects.Runtime.IsFeasible` | cpp/src/dar/runtime/runtime.cpp:127-149 | the loop finds out whether some worker could ever hold the request |
| `LocalOtherSteps.RunKeeps` | cpp/src/dar/scheduler/scheduler.cpp:133-544 | every interleaving of clients, scheduler thread, worker threads and shutdown keeps the whole invariant of the local runtime; placement may come to any worker that releases in the meantime make eligible |
| `LocalOtherSteps.EnqueueSucceeds` | cpp/src/dar/runtime/runtime.cpp:163-187 | the Enqueue inside Submit cannot fail, because shutdown waits for the lifecycle lock |
| `LocalOtherSteps.NothingThrownAway` | cpp/src/dar/worker/worker.cpp:62-76 | when shutdown resets a joined worker its mailbox is already empty |
| `LocalTheorems.ResourcesConserved` | cpp/src/dar/scheduler/scheduler.cpp:361-523 | at every point of every run, per worker and resource: total = available + running_ entry + release in flight + reservations emplace dropped |
| `LocalTheorems.PendingMeansBothFit` | cpp/src/dar/scheduler/scheduler.cpp:297-361 | the scheduler reserves a worker whose callback is still pending only if both requests fit in its total capacity |
| `LocalTheorems.NothingDroppedUnlessTwoFit` | cpp/src/dar/scheduler/scheduler.cpp:452-460 | if no two accepted requests fit together on one worker nothing is ever dropped and running_ lists exactly the dispatched tasks not yet taken back |
| `LocalLeak.TwoThatFitCanLeak` | cpp/src/dar/worker/worker.cpp:245-260 | conversely, any two requests that fit together give a reachable quiet state in which the second one is missing from the pool |
| `LocalTheorems.DroppedNeverReturns` | cpp/src/dar/scheduler/scheduler.cpp:452-523 | on every run the dropped amount of each worker and resource never shrinks |
| `LocalTheorems.StarvedTaskWaits` | cpp/src/dar/scheduler/scheduler.cpp:297-361 | on every run a queued task for which the dropped amounts leave no worker room is never dispatched; it waits until it is cancelled |
| `LocalLeak.LeakCanStarve` | cpp/src/dar/worker/worker.cpp:245-260 | after the leak any task that fits on a worker, but not next to the leaked request, can be accepted and queued in a quiet state from which no run dispatches it |
| `LocalTheorems.FailureBranchesUnreachable` | cpp/src/dar/scheduler/scheduler.cpp:133-485 | in every reachable state a transaction whose placement came to a worker dispatches to that very worker, enqueueing a submitted task and cancelling a queued one succeed; none of their failure branches is taken |
| `LocalTheorems.WorkerCallsSucceed` | cpp/src/dar/worker/worker.cpp:224-243 | in every reachable state MarkRunning, Complete and the discarded pool release succeed |
| `LocalTheorems.StrictFifo` | cpp/src/dar/scheduler/scheduler.cpp:133-221 | dispatched tasks followed by the queue are the enqueued ones minus those cancelled while queued; the queue holds exactly the Queued tasks, once each |
| `LocalTheorems.NoOvertaking` | cpp/src/dar/scheduler/scheduler.cpp:297-452 | of two dispatched tasks the one enqueued first was dispatched first |
| `LocalTheorems.NoLostWakeup` | cpp/src/dar/scheduler/scheduler.cpp:223-278 | when the loop sleeps with no wake-up pending, the head has no place to go or an idle callback is still on its way |
| `LocalTheorems.NoStuckQueue` | cpp/src/dar/scheduler/scheduler.cpp:487-523 | with the loop asleep and every worker waiting at an empty mailbox, a task is left in the queue only if what has been dropped leaves no worker room for the head ever again; with nothing dropped the queue is empty |
| `LocalTheorems.RunOwed` | cpp/src/dar/scheduler/scheduler.cpp:487-501 | on every run a running_ entry has a task still on its way through that worker, dropped reservations or not |
| `LocalTheorems.ShutdownDrains` | cpp/src/dar/runtime/runtime.cpp:214-281 | when shutdown has returned every task whose Submit returned OK is terminal, dropped reservations or not |
| `LocalProgress.DrainCanProceed` | cpp/src/dar/scheduler/scheduler.cpp:525-543 | while Shutdown waits for the queue to drain, the wait is over, or some thread can take a step, or the runtime is quiet and the head is starved |
| `LocalProgress.DrainIsBounded` | cpp/src/dar/scheduler/scheduler.cpp:525-543 | while Shutdown waits, under every interleaving with clients, the threads take at most 14 steps per queued task and 23 per worker, and 5 |
| `LocalProgress.StarvedDrainHangs` | cpp/src/dar/scheduler/scheduler.cpp:525-543 | with a starved task in the queue Shutdown's wait is not over before that task is cancelled |
| `LocalNotification.LocalRuns` | cpp/src/dar/scheduler/scheduler.cpp:223-278 | every run with threads that sleep on the condition variable is a run of the runtime's step system, so all its theorems hold |
| `LocalNotification.NothingMissedExactlyWhen` | cpp/src/dar/scheduler/scheduler.cpp:189-212 | on every run neither thread sleeps through its condition if and only if no queued task was cancelled while both slept with the notification reaching the wrong one |
| `LocalNotification.DrainNeverDeadlocks` | cpp/src/dar/scheduler/scheduler.cpp:525-543 | while Drain waits and no notification was missed, some thread can act, or the runtime is quiet and the head is starved |
| `LocalNotification.StuckForEver` | cpp/src/dar/scheduler/scheduler.cpp:525-543 | once everything has drained with both threads asleep no thread ever acts again, whatever clients do |
| `LocalNotification.CancelCanHangShutdown` | cpp/src/dar/scheduler/scheduler.cpp:205-211 | after a leak, a reachable state in which the condition Drain waits for holds and on every continuation Drain sleeps on |
| `LocalTheorems.StepIsCall` | cpp/src/dar/runtime/task_manager.cpp:54-347 | every step of the runtime is one TaskManager call or none |
| `LocalTheorems.RunIsHistory` | cpp/src/dar/runtime/task_manager.cpp:54-347 | the records and events of every run are those of some TaskManager history, so all history lemmas apply |
| `LocalAnswers.AdmitAnswers` | cpp/src/dar/runtime/runtime.cpp:104-161 | what Submit answers: closed, too large for every worker's total, known already, or admitted, in that order |
| `LocalAnswers.SubmitQueues` | cpp/src/dar/runtime/runtime.cpp:150-187 | on every run an admitted submission is registered with its request and its second step queues it last; a refused one changes nothing |
| `LocalAnswers.HeadGoesToEarliestIdle` | cpp/src/dar/scheduler/scheduler.cpp:280-485 | on every run, with no callback under way, the head of the queue goes to the earliest idle worker with room, and nowhere exactly if there is none |
| `LocalAnswers.CancelReachesRunning` | cpp/src/dar/runtime/task_manager.cpp:312-319 | on every run cancelling a running task answers Ok, sets its token, touches nothing else, and the token stays set |
| `LocalAnswers.CancelAnswers` | cpp/src/dar/scheduler/scheduler.cpp:171-221 | on every run Cancel answers NotFound, Ok or FailedPrecondition by the state of the task alone |
| `LocalAnswers.VerdictsMatchOnRuns` | cpp/src/dar/runtime/task_manager.cpp:160-229 | on every run a terminal task's state and status say the same, and a completion event says what its record says |
| `LocalAnswers.FinishCommits` | cpp/src/dar/worker/worker.cpp:224-243 | on every run the record takes exactly the status and result the handler returned, and the state they ask for |
| `NodeRegistration.NodeRegistry.RegisterNode` | cpp/src/dar/node/node_registry.cpp:25-145 | new, repeated, conflicting, stale and newer registrations, with the representation kept |
| `NodeRegistration.NodeRegistry.Heartbeat` | cpp/src/dar/node/node_registry.cpp:147-212 | refreshes the current, not dead lifetime only, with the representation kept |
| `NodeRegistration.NodeRegistry.UpdateLiveness` | cpp/src/dar/node/node_registry.cpp:214-278 | the loop rates every node once and returns the newly dead ones in registration order |
| `NodeRegistration.NodeRegistry.RemoveNode` | cpp/src/dar/node/node_registry.cpp:280-334 | removes one lifetime from map and order together, or nothing |
| `NodeRegistration.NodeRegistry.ReserveFirstFit` | cpp/src/dar/node/node_registry.cpp:387-440 | the loop debits the pool object of the first alive node that fits and publishes what is left |
| `NodeRegistration.NodeRegistry.Release` | cpp/src/dar/node/node_registry.cpp:443-469 | credits the pool object of one node and publishes what is left, or changes nothing |
| `NodeRegistration.NewlyDeadExactly` | cpp/src/dar/node/node_registry.cpp:231-277 | a scan reports exactly the nodes that die in it, each once |
| `NodeRegistration.ReserveIsExact` | cpp/src/dar/node/node_registry.cpp:399-439 | debits exactly the earliest alive node that fits by exactly the request, and nothing else; refuses only when none fits |
| `NodeRegistration.ReleaseIsExact` | cpp/src/dar/node/node_registry.cpp:443-469 | fails exactly for a missing node or more than is lent out, without effect; otherwise credits exactly the request |
| `NodeRegistration.RegisterAnswers` | cpp/src/dar/node/node_registry.cpp:25-145 | which registrations are unusable, refused, repeated or start a lifetime, and that a lifetime starts with a full pool |
| `NodeRegistration.HeartbeatAnswers` | cpp/src/dar/node/node_registry.cpp:147-212 | a heartbeat is accepted exactly from the incarnation that is registered and not dead; then the node is alive, heard now and reports what it says, and nothing else changes |
| `NodeRegistration.ScanAnswers` | cpp/src/dar/node/node_registry.cpp:214-278 | a scan rates each node that is not dead by its silence and changes nothing else; bad timeouts change nothing |
| `NodeRegistration.RemoveAnswers` | cpp/src/dar/node/node_registry.cpp:280-334 | a removal takes exactly the named lifetime out of map and order |
| `NodeRegistration.ReserveAnswers` | cpp/src/dar/node/node_registry.cpp:387-440 | a reservation is made exactly if some alive node has every quantity left, and then on the earliest in the order |
| `NodeRegistration.ReportsInOrder` | cpp/src/dar/node/node_registry.cpp:231-277 | the dead nodes are reported in registration order |
| `NodeRegistration.LivenessLeavesPools` | cpp/src/dar/node/node_registry.cpp:190-211 | heartbeats and scans never touch pools or published availability |
| `FailureDetection.RunKeepsOk` | cpp/src/dar/node/node_registry.h:107-133 | on every run the order lists exactly the registered nodes, once each, and every published availability is its pool's |
| `FailureDetection.DeadIsFinal` | cpp/src/dar/node/node_registry.cpp:75-144 | between removals of a node its incarnation never decreases and Dead lasts until a newer incarnation registers |
| `FailureDetection.ReportedOnce` | cpp/src/dar/node/failure_detector.cpp:85-106 | on a run that never removes a node no lifetime of it is reported dead twice |
| `FailureDetection.LastHeardIsLastContact` | cpp/src/dar/node/node_registry.cpp:132-204 | the recorded time is that of the last heartbeat of the registered live incarnation or of the registration that started it; heartbeats of another incarnation and repeated registrations are no sign of life |
| `FailureDetection.DeathIsSilence` | cpp/src/dar/node/node_registry.cpp:246-260 | a scan reports a lifetime exactly when it is registered, not yet dead, and silent for at least the dead timeout |
| `FailureDetection.ScanRatesBySilence` | cpp/src/dar/node/failure_detector.cpp:108-119 | a scan, at whatever time it read the clock before taking the lock, rates a live node by the time since its last contact and nothing else |
| `FailureDetection.FailureDetector.Start` | cpp/src/dar/node/failure_detector.cpp:21-58 | starts exactly with a positive interval and increasing timeouts, when not running |
| `FailureDetection.FailureDetector.ScanOnce` | cpp/src/dar/node/failure_detector.cpp:85-106 | hands every newly dead lifetime to the callback once, in order |
| `ClusterLedger.ReserveKeepsLedger` | cpp/src/dar/node/node_registry.cpp:387-440 | a reservation adds exactly its share to the current lifetime of the chosen node and keeps the books of all nodes |
| `ClusterLedger.ReleaseKeepsLedger` | cpp/src/dar/node/node_registry.cpp:443-469 | giving back what a holder holds cannot fail and keeps the books of all nodes |
| `ClusterLedger.RegisterKeepsLedger` | cpp/src/dar/node/node_registry.cpp:75-144 | a registration keeps the books when it replaces no lifetime that is still held; a repeated one resets nothing |
| `ClusterLedger.RegisterBalancesExactlyWhen` | cpp/src/dar/node/node_registry.cpp:57-144 | a registration keeps the books exactly when it starts no lifetime on which somebody holds something |
| `ClusterLedger.SecondReleaseIsSoundExactlyWhen` | cpp/src/dar/node/node_registry.cpp:443-469 | a release for somebody who holds nothing is sound exactly when nothing is released on a registered node |
| `ClusterLedger.ReleaseIsSoundExactlyWhen` | cpp/src/dar/node/node_registry.cpp:443-469 | a release carries no incarnation: it is sound exactly when the holder's lifetime is still the registered one, or it holds nothing |
| `ControlPlaneInvariant.RunKeepsShape` | cpp/src/dar/control/control_plane.cpp:152-692 | on every run records match what was issued, each issued execution belongs to one task, and a node-death sweep has changed exactly what it visited |
| `ControlPlaneInvariant.RunKeepsLedger` | cpp/src/dar/control/control_plane.cpp:152-692 | every orderly run keeps the ledger; no release of a report, node death or rollback fails |
| `ControlPlaneTheorems.ClusterConservation` | cpp/src/dar/control/control_plane.cpp:201-308 | at every point of every orderly run: pool total = available + open records of the current lifetime + submissions in flight, and no release has failed |
| `ControlPlaneBooks.RollbackSoundExactlyWhen` | cpp/src/dar/control/control_plane.cpp:284-308 | from balanced books, the rollback's release keeps them and succeeds exactly when the erased record still held its reservation and the node still runs that lifetime, or nothing is released on a registered node |
| `ControlPlaneBooks.ReportSoundExactlyWhen` | cpp/src/dar/control/control_plane.cpp:590-623 | from balanced books, the first report is settled soundly exactly when the node still runs the lifetime the task was placed on, or the task holds nothing on a registered node |
| `ControlPlaneBooks.VisitSoundExactlyWhen` | cpp/src/dar/control/control_plane.cpp:656-689 | from balanced books, the visit to an orphan is settled soundly exactly when the node still runs the lifetime that died, or the task holds nothing on a registered node; a release that fails abandons the sweep and leaves the record open |
| `ControlPlaneBooks.BooksBalanceExactlyWhen` | cpp/src/dar/control/control_plane.cpp:152-692 | on every run, whatever its order: the books of every node balance all along, and no release has failed, if and only if every step so far was sound |
| `ControlPlaneBooks.OrderlyIsSound` | cpp/src/dar/control/control_plane.cpp:152-692 | every step of an orderly run is sound |
| `ControlPlaneTheorems.SupersededIsNeverReported` | cpp/src/dar/node/node_registry.cpp:231-277 | once a newer incarnation is registered no scan reports the old lifetime, unless the node is removed first |
| `ControlPlaneTheorems.NodeDeathSettles` | cpp/src/dar/control/control_plane.cpp:634-692 | on orderly runs, in any visiting order, a node-death sweep makes every record of the lifetime final, changes no record of another lifetime and none that was final, and leaves only submissions in flight on the node |
| `ControlPlaneTheorems.SweepNeverAborts` | cpp/src/dar/control/control_plane.cpp:656-689 | on orderly runs a node-death sweep is never abandoned: until it ends it still has to visit exactly what was recorded and has not been visited |
| `ControlPlaneTheorems.TerminalRecordsStay` | cpp/src/dar/control/control_plane.cpp:456-490 | through reports, repeats, cancellations and node deaths a terminal record never changes, until its own submission's rollback erases it for good |
| `ControlPlaneTheorems.ReleasedAtMostOnce` | cpp/src/dar/control/control_plane.cpp:569-623 | reports and node deaths give back each reservation at most once, and exactly when the record becomes final; on orderly runs a rollback gives back only what nobody else did |
| `ControlPlaneAnswers.ReportAnswers` | cpp/src/dar/control/control_plane.cpp:531-624 | what a report is answered, by the table: too early, unknown, foreign, repeated, conflicting, or settled with exactly its content |
| `ControlPlaneAnswers.FirstReportWins` | cpp/src/dar/control/control_plane.cpp:565-590 | on every run, once a report is committed, the same report is answered Ok and any other is refused for as long as the record is there, and neither changes anything |
| `ControlPlaneAnswers.CancelAnswers` | cpp/src/dar/control/control_plane.cpp:340-428 | a running task is never refused by the table and its worker is asked exactly if its node is registered, current and not dead; an ended one is refused |
| `ControlPlaneAnswers.PublishAnswers` | cpp/src/dar/control/control_plane.cpp:456-490 | the mark goes only to the same execution and never over an end |
| `ControlPlaneAnswers.LostMeans` | cpp/src/dar/control/control_plane.cpp:640-689 | node death fails exactly the records of that very incarnation that have not ended, as Unavailable and without a result |
| `ControlPlaneAnswers.OpenRecordsAreBlank` | cpp/src/dar/control/control_plane.cpp:238-274 | on every run a record that has not ended carries no status, result or media type |
| `ControlPlaneObject.ControlPlane.SubmitTask` | cpp/src/dar/control/control_plane.cpp:152-319 | one undisturbed call: refused without effect, placed and recorded, or rolled back to exactly the registry and table it started from; once placed it answers what the dispatch came to |
| `ControlPlaneObject.ControlPlane.RollBack` | cpp/src/dar/control/control_plane.cpp:284-308 | erase, then release: the dispatch failure is returned, or Internal when the release fails too |
| `ControlPlaneObject.ReserveReleaseRestores` | cpp/src/dar/control/control_plane.cpp:201-308 | an undisturbed reservation and rollback restore the registry exactly |
| `ControlPlaneObject.ControlPlane.ReportTaskResult` | cpp/src/dar/control/control_plane.cpp:531-624 | first writer wins, an identical repeat is OK, a conflicting one is refused, and nothing is committed when the release fails |
| `ControlPlaneObject.ControlPlane.HandleNodeDead` | cpp/src/dar/control/control_plane.cpp:634-692 | the loop, in any order: OK means exactly the orphans were failed; with balanced books it is always OK and gives back exactly the orphans' shares |
| `ControlPlaneObject.ControlPlane.CancelTask` | cpp/src/dar/control/control_plane.cpp:340-493 | one undisturbed call, outcome by outcome: every refusal leaves the record alone; a running task on a live current node is marked exactly if its worker answered OK |
| `ControlPlaneObject.ControlPlane.Publish` | cpp/src/dar/control/control_plane.cpp:456-490 | the recheck: a completion that came first, another execution or a vanished record wins |
| `NodeManagement.DispatchTask` | cpp/src/dar/node/node_manager.cpp:48-164 | at most two identical copies; another copy only after an ambiguous failure; the first answer is final; otherwise Unavailable |
| `NodeManagement.CancelTask` | cpp/src/dar/node/node_manager.cpp:166-223 | one attempt; the worker's answer is final; otherwise Unavailable |
| `WorkerService.WorkerServiceImpl.Claim` | cpp/src/dar/worker/worker_service.cpp:305-336 | replay, refuse or claim, under one lock |
| `WorkerService.WorkerServiceImpl.LaunchTask` | cpp/src/dar/worker/worker_service.cpp:134-360 | an undisturbed launch takes the three ledger steps, a replay none, and answers what later replays will be told |
| `WorkerService.WorkerServiceImpl.CancelTask` | cpp/src/dar/worker/worker_service.cpp:362-454 | unknown, foreign and refused executions never reach the runtime; any other does, and the runtime's answer is returned |
| `WorkerService.WorkerServiceImpl.OnCompletion` | cpp/src/dar/worker/worker_service.cpp:98-132 | reports under the remote execution, and only tasks that have one |
| `WorkerService.AtMostOnce` | cpp/src/dar/worker/worker_service.cpp:305-342 | under any deliveries each execution crosses Runtime::Submit at most once, keeps its task, and no handler is entered twice |
| `WorkerService.ReplayAnswers` | cpp/src/dar/worker/worker_service.cpp:308-356 | replays are told the OK placeholder until the original stored its status, and that status ever after |
| `WorkerService.PlaceholderCanMislead` | cpp/src/dar/worker/worker_service.cpp:323-356 | a run on which a redelivered launch is told OK although the original is then refused |
| `WorkerService.AdmissionIsAcceptance` | cpp/src/dar/worker/worker_service.cpp:338-356 | under any deliveries the runtime has a task exactly if one of its executions was accepted by Runtime::Submit |
| `WorkerService.CallbackFindsExecution` | cpp/src/dar/worker/worker_service.cpp:98-132 | a completion callback always finds an execution, bound to the completed task |
| `WorkerService.CancelSetsToken` | cpp/src/dar/runtime/task_manager.cpp:260-319 | once Runtime::Cancel answered OK the task's token is set for good |
| `WorkerAnswers.LaunchAnswers` | cpp/src/dar/worker/worker_service.cpp:305-336 | a known execution is replayed to its own task and refused to any other; an unknown one is claimed |
| `WorkerAnswers.DeliverBinds` | cpp/src/dar/worker/worker_service.cpp:305-336 | a claim binds execution, task and request to each other, and nothing else changes |
| `WorkerAnswers.SubmitAnswers` | cpp/src/dar/worker/worker_service.cpp:338-342 | a refused launch leaves no task, a known task is not submitted again, any other is queued with its request |
| `WorkerAnswers.CrossingDecides` | cpp/src/dar/worker/worker_service.cpp:338-356 | on every run the stored verdict is the refusal the launch met, AlreadyExists, or Ok with the task there under the launch's own request |
| `WorkerAnswers.CheckAnswers` | cpp/src/dar/worker/worker_service.cpp:395-445 | the identity check passes exactly for an execution that is known, bound to that task and not refused |
| `WorkerAnswers.OnlyCheckedReachRuntime` | cpp/src/dar/worker/worker_service.cpp:395-454 | on every run a cancellation reaches the runtime only after a check that found its execution bound to that task and not refused |
| `WorkerAnswers.LegitimateCancelWorks` | cpp/src/dar/worker/worker_service.cpp:429-454 | on every run a cancellation of an admitted execution passes, and if its task is running when the runtime is asked, the answer is Ok and the token is set for good |
| `Cluster.Agreement` | cpp/src/dar/control/control_plane.cpp:531-692 | under loss, duplication and reordering a terminal record is the node-death failure or exactly the state, status and result that a process at the endpoint of the record's node committed, under the record's own execution |
| `Cluster.CancellationSound` | cpp/src/dar/control/control_plane.cpp:429-490 | a record says cancel-requested only if a process at the endpoint of the record's node has set that task's sticky token |
| `Cluster.CompletionWins` | cpp/src/dar/control/control_plane.cpp:456-490 | a completion that arrived during the cancel RPC is never overwritten; its record can only be erased, for good |
| `Cluster.ExecutionsBelongToOneTask` | cpp/src/dar/worker/worker_service.cpp:308-336 | across all processes an execution is bound to the one task it was issued for, known only at the endpoint it was issued for, and crosses Runtime::Submit at most once in each process |
| `Cluster.OnlyRestartsRepeat` | cpp/src/dar/worker/worker_service.cpp:308-342 | across the whole cluster an execution crosses Runtime::Submit twice only in two different processes started at one endpoint |
| `Cluster.OkReplyMeans` | cpp/src/dar/worker/worker_service.cpp:308-356 | on every run the sender of an OK launch reply knows that execution, bound to that task; once the launch is settled there the task is admitted if and only if the reply was the original's own, or a replay after the verdict was stored, or the stored verdict is OK |
| `Cluster.SubmitOkMeans` | cpp/src/dar/control/control_plane.cpp:272-318 | from the moment SubmitTask has an OK on, some process at the chosen node's endpoint has answered OK to that very execution, with all that such an answer means |
| `Cluster.ReportIsFaithful` | cpp/src/dar/worker/result_reporter.cpp:46-104 | the report of a completion, decoded, is what the worker's record says, under the execution issued for it |
| `Cluster.ControlRuns` | cpp/src/dar/control/control_plane.cpp:152-692 | every run of the cluster, seen from the control plane, is a run of its own step system, orderly if the cluster's is, so its theorems hold here |
| `Cluster.ClusterBooksBalance` | cpp/src/dar/control/control_plane.cpp:201-308 | on every orderly run of the whole cluster each pool lends out exactly what open records and submissions in flight hold, and no release has failed |
| `Cluster.BooksBalanceExactlyWhen` | cpp/src/dar/control/control_plane.cpp:152-692 | on every run of the whole cluster the books balance all along, and no release has failed, if and only if every step so far was sound |
| `Cluster.RunKeeps` | cpp/src/dar/control/control_plane.cpp:152-692 | on every run of the cluster each message in flight says only what its sender has done, and each record only what some message or a node death said |
| `ClusterRuns.SubmitSucceedsForNobody` | cpp/src/dar/worker/worker_service.cpp:323-356 | a cluster run that ends in SubmitTask's OK with the record open and the task in no process |
| `ClusterRuns.LostRepliesBreakRollback` | cpp/src/dar/control/control_plane.cpp:284-308 | a cluster run on which the worker runs and reports the task while every answer to the launch is lost: the rollback erases the finished record and its release fails |
| `ClusterRuns.RestartBreaksReport` | cpp/src/dar/control/control_plane.cpp:597-606 | a cluster run on which the worker's next incarnation registers before its report arrives: the report is refused and the record stays open |
| `ClusterRuns.RemovalBreaksReport` | cpp/src/dar/node/node_registry.cpp:57-144 | a cluster run on which the node is removed and registers again under the same incarnation: the report is refused although the record's lifetime is the registered one and no release had failed |
| `ClusterRuns.RestartAbortsSweep` | cpp/src/dar/control/control_plane.cpp:634-689 | a cluster run on which the next incarnation registers between the scan and HandleNodeDead: the sweep is abandoned and the orphan stays open |
| `ClusterRuns.RestartSubmitsAgain` | cpp/src/dar/worker/worker_service.cpp:308-342 | a cluster run on which a restarted worker submits the same execution a second time |

## Left out

- gRPC servers, channels, contexts, deadlines and the connection pool: an RPC is a message, or a transport outcome passed in.
- Real threads and memory order: steps are atomic per critical section, and nothing is claimed about fairness. Waits are guards,
  except in `local_notify.dfy`, which leaves out spurious wake-ups; there a notification comes with the change it announces.
- The pybind11 bindings and the Python SDK: thin wrappers.
- Identifier generation, printing and hashing, status names and the text of most failure messages: only the code of a failed
  operation is modelled, except where a status is stored or sent.
- TaskSpec, AgentSpec and RetryPolicy validation, HandlerRegistry and handler bodies: a handler is its outcome.
- Concurrent Start or Shutdown calls and restart of a runtime: outside the stated lifecycle.
- TryScheduleOne is one step that commits at its end; what other threads do meanwhile shows only in what placement comes to
  (`LocalRuntime.MayPick`), since the rest of the transaction reads nothing they can change to its harm.
- Runtime::Submit inside a worker process of the cluster is one step; in the local runtime its registration and its enqueueing
  are two.
- The worker processes of the cluster make any TaskManager calls in any order, which covers the local runtime
  (`LocalTheorems.StepIsCall`) and more.
- A completion may be reported any number of times, and a process may make every runtime call at any time: the cluster model
  has more behaviours than one callback per completion allows.
- Wire.FromDouble: returns nothing for a scaled value of exactly 2^63, where std::llround is undefined.
- ControlPlaneObject.ControlPlane.SubmitTask: stated for a call nobody interrupts; the interleavings are `control_plane.dfy`.
- ControlPlaneObject.ControlPlane.CancelTask: stated for a call nobody interrupts; the interleavings are `control_plane.dfy`.
- WorkerService.WorkerServiceImpl.LaunchTask: stated for a call nobody interrupts; the interleavings are the step system above it.
- LaunchTask's decoding failures, and the object-store, lease and query messages without an implementation: easy members.
