# Verified model of the mission-scheduling stack

This project models, in Dafny, the parts of the platform that decide *what runs when*: the task
graph, the mission loop, the per-worker lanes, the reasoning coordinator, the symbol resolver behind
context building, sub-task execution with commit and rollback, the crash policy, task assignment and
the merge queue. The results hold for all inputs, all runs and all
interleavings that meet the conditions their rows name and the assumptions listed below.
`dafny verify dfyconfig.toml` checks the whole project.

## How the model is built

| file | what it models |
|---|---|
| `Common.dfy` | identifiers, options, duplicate-free sequences, the pigeonhole principle |
| `TaskGraph.dfy` | Kahn's algorithm over an incrementally kept in-degree index, layering, naive rescan |
| `Mission.dfy` | the mission loop as a state machine: one step is what runs between two awaits |
| `MissionSafety.dfy` | the invariant every step keeps |
| `MissionTheorems.dfy` | bookkeeping, dispatch safety, least fixpoint, confluence |
| `MissionTermination.dfy` | bounded runs, progress, bounded retries, one queueing and one pop per task |
| `MissionOutcomes.dfy` | when an attempt passes, what its report says, hand-offs, orders, batch sizes and final statuses |
| `MissionPlans.dfy` | the mission loop against a naive evaluation, the task graph and the execution batches of its plan |
| `MissionObjects.dfy` | the ready queue and the mission object with their loops, tied to the state machine |
| `Lanes.dfy` | promise-chain lanes and the dispatcher |
| `Reasoning.dfy` | the worker's single-flight check and the coordinator split at its awaits |
| `Resolver.dfy`, `ContextSlices.dfy` | transitive symbol resolution and the nesting filter |
| `TaskExecution.dfy` | patches, workspace updates, bounded retries, commit and rollback |
| `Lifecycle.dfy` | crash window, quarantine and back-off |
| `Assignment.dfy` | worker selection and batch-aware assignment |
| `MergeQueue.dfy` | the stable priority queue |

Code that updates objects is modelled as classes and methods with loops; each method is tied to a
function of the old state, and the properties are lemmas about those functions. Asynchronous code is
a state machine: bodies suspended at an await may be resumed in any order, and `Execute` picks the
next one arbitrarily. The order in which a JavaScript `Map` or `Set` is iterated is left arbitrary.

What the program asks of the outside world is an input. A `World` in the mission model answers a
dispatch from the task, the attempt number and the hand-off it was given, a verification from the
report, and a merge from the attempt; two runs have "the same outcomes" when they have the same
`World`. Sub-task execution takes provider answers, verification results, write failures and commit
results as inputs; the crash policy takes explicit times.

Assumptions taken from the program's callers: task ids in a plan are unique, `maxParallelWorkers` is
at least one (`RunsEndIffWidth` shows what happens otherwise), worker ids in the store are unique,
request ids differ where a result about the request table needs it (`TableKeepsThrown`),
crash times do not go back, and a rollback restores the last snapshot.

## What turned out not to hold as stated

- `detectCycle` compares two counts, so it balances unprocessed tasks against processed ids that were
  never added as tasks. It is exact when only registered tasks have been given dependencies, which
  `addTask` alone always keeps, and on the two key sets no weaker condition is enough
  (`OnlyTasksIsWeakest`). `AnswerIsRightIff` says for every graph when the answer is right: on a sound
  graph exactly if no unregistered id waits for registered ones only; on an unsound one exactly if
  the two sides do not balance, which is that branch's own count put in terms of the graph: what a caller
  can check beforehand is `OnlyTasksIsWeakest`. Both failures are reached through the graph's own
  methods: `StrayRaisesFalseAlarm` and `StrayHidesCycle`.
- `getExecutionBatches` inherits this. Whenever it does not throw, its batches are exact for the ids
  that can be processed, so they partition the tasks if and only if those ids are the tasks
  (`GetExecutionBatches`). `StrayIsBatched` reaches a graph where a task on a cycle is in no batch
  and an id that was never added is in one.
- The comment on `ReasoningCoordinator` says that at most one request per worker runs at a time. That
  holds in every run whose `cancelForWorker` calls find their worker idle (`SingleFlight`). From every
  state of such a run with a busy worker, cancelling that worker and dropping one table entry admits a
  second request beside the first (`BusyCancelAdmitsSecond`); without dropping an entry it does so if
  and only if the table has room once the cancelled request is out (`WorkerCancelAdmitsSecond`). A
  request whose plugin selection or `beginExecution` throws stays in the request table unless it is
  cancelled (`TableKeepsThrown`).
- The nesting filter drops both of two different symbols that share a topmost range. Every symbol lies
  inside a kept one if and only if there is no such tie (`NoSymbolLostIffNoTie`); no line is lost if
  and only if each line of a shared topmost range also lies in an unshared one
  (`NoLineLostIffBridged`). Two declarations on one line lose it (`TieLosesLine`).
- A failed commit is ignored by the sub-task loop, and a later failure then rolls successful work back.
  No run loses work if and only if the commit works after every sub-task that can succeed and is not
  the last (`WorkIsSafeIffCommitted`, with `LosingRun` as the run that loses it). One halted run keeps
  its work if and only if the sub-tasks since the last good commit left their targets as that commit
  has them (`HaltKeepsWorkIff`).
- With `maxParallelWorkers` below one the mission loop goes round with empty batches for ever if some
  task is runnable (`RunsEndIffWidth`).

## Model

| member | source | states |
|---|---|---|
| TaskGraphs.TaskGraph.AddDependency | src/v2/application/missions/task_graph.ts:24-32 | adds one edge at most once, creates missing entries, and keeps the in-degree index equal to the number of in-edges |
| TaskGraphs.TaskGraph.AddTask | src/v2/application/missions/task_graph.ts:8-22 | overwrites the task, adds one edge per listed dependency, keeps the index exact and keeps the edge targets registered |
| TaskGraphs.AddEdgeCounts | src/v2/application/missions/task_graph.ts:24-32 | the in-degree of every id stays the number of ids with an edge to it, whether or not the edge was there |
| TaskGraphs.AddEdgesPreds | src/v2/application/missions/task_graph.ts:17-21 | after adding a task its dependencies are exactly the listed ones on top of earlier ones; no other id gains any |
| TaskGraphs.AddTaskKeepsMirror | src/v2/application/missions/task_graph.ts:8-22 | adding only new ids keeps the edges equal to the listed dependencies |
| TaskGraphs.Release | src/v2/application/missions/task_graph.ts:46-53 | processing an id lowers each dependent's remaining count by one and frees exactly those it was the last dependency of |
| TaskGraphs.GroundedIffClosedAndAcyclic | src/v2/application/missions/task_graph.ts:34-57 | all nodes can be processed if and only if every dependency is a node and the edges have no cycle |
| TaskGraphs.TaskGraph.DetectCycle | src/v2/application/missions/task_graph.ts:34-57 | answers false exactly when unprocessed tasks and processed unregistered ids balance; with registered targets exactly when the graph is sound; and for any graph exactly when this answer is right |
| TaskGraphs.AnswerIsRightIff | src/v2/application/missions/task_graph.ts:34-57 | on a sound graph the answer is right iff no unregistered id waits for registered ones only; on an unsound one iff the two sides do not balance |
| TaskGraphs.OnlyTasksIsWeakest | src/v2/application/missions/task_graph.ts:24-57 | given the registered and the indexed ids, the answer is right for all edges iff the two sets are equal |
| TaskGraphs.StrayRaisesFalseAlarm | src/v2/application/missions/task_graph.ts:24-57 | addTask and addDependency reach a sound graph for which a cycle is reported |
| TaskGraphs.StrayHidesCycle | src/v2/application/missions/task_graph.ts:24-57 | addTask and addDependency reach a graph with a cycle for which none is reported |
| TaskGraphs.TaskGraph.GetExecutionBatches | src/v2/application/missions/task_graph.ts:77-109 | fails exactly when detectCycle reports a cycle; otherwise the batches partition the processable ids, and an id's batch number is one plus the largest among its dependencies; they partition the tasks if and only if the processable ids are the tasks, as they are with registered targets |
| TaskGraphs.AllLayersAreExact | src/v2/application/missions/task_graph.ts:86-106 | listing every layer up to the first empty one batches exactly the processable ids |
| TaskGraphs.StrayIsBatched | src/v2/application/missions/task_graph.ts:24-109 | addTask and addDependency reach a graph whose batches hold an id that was never added and miss a task |
| TaskGraphs.NextBatch | src/v2/application/missions/task_graph.ts:91-106 | one pass over layer k leaves the remaining counts for the next layer and yields exactly layer k + 1 |
| TaskGraphs.ExactBatchesAreLayers | src/v2/application/missions/task_graph.ts:77-109 | the meaning of batches determines them up to order inside a batch |
| TaskGraphs.BatchesAreFewest | src/v2/application/missions/task_graph.ts:77-109 | no dependency-respecting layering has fewer layers |
| TaskGraphs.TaskGraph.GetReadyTasks | src/v2/application/missions/task_graph.ts:59-75 | returns exactly the BACKLOG or READY tasks whose dependencies are registered and COMPLETED, marks them READY and changes nothing else |
| TaskGraphs.AskingAgain | src/v2/application/missions/task_graph.ts:59-75 | a second call before anything completes returns the same tasks and changes nothing more |
| TaskGraphs.RescanYieldsBatches | src/v2/application/missions/task_graph.ts:59-109 | for a fresh plan (each id added once, no extra edges, all tasks in BACKLOG) completing everything getReadyTasks returns yields in round k exactly batch k, never stalls before the last batch and then has completed all tasks |
| MissionObjects.ReadyTaskQueue.InitializeFromPlan | src/v2/application/missions/ready_task_queue.ts:6-16 | queues exactly the tasks without dependencies, once each and in plan order, marks them READY and blocks the others |
| MissionObjects.ReadyTaskQueue.UnlockReadyTasks | src/v2/application/missions/ready_task_queue.ts:18-35 | makes READY exactly the blocked or pending tasks whose dependencies have all completed, and appends those not queued yet, once each and in plan order |
| MissionObjects.ReadyTaskQueue.PopNextReadyTask | src/v2/application/missions/ready_task_queue.ts:37-39 | takes the oldest queued task, or nothing from an empty queue |
| MissionObjects.MissionExecution.PopBatch | src/v2/application/missions/mission_execution_orchestrator.ts:97-104 | takes queued tasks in order until the queue is empty or the width is reached |
| MissionObjects.MissionExecution.CollectHandoff | src/v2/application/missions/mission_execution_orchestrator.ts:134-145 | the hand-off has an entry for exactly the dependencies with a filed report |
| MissionObjects.MissionExecution.StepBody | src/v2/application/missions/mission_execution_orchestrator.ts:112-255 | a task body resumed from any await performs exactly the step of the state machine enabled there |
| MissionObjects.MissionExecution.Execute | src/v2/application/missions/mission_execution_orchestrator.ts:88-283 | the loop terminates; it performs a run of the state machine, ends in the least fixpoint, reports success exactly when all tasks completed, and every completed task passed its verification and merge |
| MissionTheorems.OutcomeIsFirstPass | src/v2/application/missions/mission_execution_orchestrator.ts:125-197 | the retry loop ends with the first passing attempt, or with the last attempt of the budget if none passes; PassesIff says when an attempt passes |
| MissionOutcomes.PassesIff | src/v2/application/missions/mission_execution_orchestrator.ts:161-190 | an attempt passes if and only if the dispatch succeeded with a COMPLETED report, its verification succeeded and its merge did |
| MissionOutcomes.EndingsOfAttempt | src/v2/application/missions/mission_execution_orchestrator.ts:159-183 | the report and verification each of the four endings of an attempt leaves, with the notes added to the summary |
| MissionOutcomes.JoinPush | src/v2/application/missions/mission_execution_orchestrator.ts:182 | errors are joined in order with a comma and a space between them |
| MissionOutcomes.CompletedWasVerified | src/v2/application/missions/mission_execution_orchestrator.ts:125-210 | a completed task has its worker's report filed with a successful verification, both from the first attempt within the budget that passed |
| MissionOutcomes.FailedTriedAll | src/v2/application/missions/mission_execution_orchestrator.ts:125-197 | a failed task was dispatched exactly maxTaskRetries + 1 times and no attempt passed |
| MissionOutcomes.FinalStatuses | src/v2/application/missions/mission_execution_orchestrator.ts:206-248 | at the end a task is COMPLETED or FAILED as listed, and BLOCKED if it was never started |
| MissionTheorems.HandoffAsksForRepair | src/v2/application/missions/mission_execution_orchestrator.ts:134-153 | every attempt's hand-off repeats the dependencies' entries and carries the latest verification reached exactly when it failed |
| MissionSafety.StepKeepsInv | src/v2/application/missions/mission_execution_orchestrator.ts:90-264 | every step of every body and of the loop keeps the invariant |
| MissionSafety.RunKeepsInv | src/v2/application/missions/mission_execution_orchestrator.ts:90-264 | the invariant holds in every state of every interleaving |
| MissionTheorems.BookkeepingAlways | src/v2/application/missions/mission_execution_orchestrator.ts:57-66 | at every await the four id lists are duplicate-free and disjoint, at most maxParallelWorkers run, completedTaskIds equals completedSet; at loop heads the lists cover the plan |
| MissionTheorems.DispatchIsSafe | src/v2/application/missions/mission_execution_orchestrator.ts:134-158 | a task is dispatched only when every dependency has completed with a filed COMPLETED report, so the hand-off has an entry for each |
| MissionOutcomes.HandoffRepeatsReports | src/v2/application/missions/mission_execution_orchestrator.ts:134-145 | a hand-off entry repeats worker, summary, created and modified files of the dependency's filed report |
| MissionOutcomes.QueueIsFifo | src/v2/application/missions/ready_task_queue.ts:6-39 | the ready queue starts with the tasks without dependencies in plan order, loses its front to a batch, grows at its end by what an unlock frees in plan order, and changes in no other step |
| MissionOutcomes.BatchSize | src/v2/application/missions/mission_execution_orchestrator.ts:97-104 | a batch takes as many queued tasks as there are, up to the width |
| MissionOutcomes.ListsKeepOrder | src/v2/application/missions/mission_execution_orchestrator.ts:113-248 | waiting and running tasks keep their order; starts, completions and failures are appended |
| MissionTheorems.LeastFixpoint | src/v2/application/missions/mission_execution_orchestrator.ts:90-283 | at the end the completed tasks with their reports are the least fixpoint of "dependencies completed and own outcome succeeds"; failed and pending tasks are exactly characterised |
| MissionTheorems.CompletedIsEarned | src/v2/application/missions/mission_execution_orchestrator.ts:206-244 | whatever set contains all it earns contains every completed task with the same report |
| MissionTheorems.SuccessIffAllCompleted | src/v2/application/missions/mission_execution_orchestrator.ts:267-283 | comparing lengths decides whether all tasks completed |
| MissionTheorems.Confluence | src/v2/application/missions/mission_execution_orchestrator.ts:90-283 | two finished runs of one plan against one World agree on completed, failed, pending, reports and success, for any interleavings and any widths |
| MissionTermination.StepLeavesLess | src/v2/application/missions/mission_execution_orchestrator.ts:90-197 | every step lowers a measure of tasks not popped and attempts left |
| MissionTermination.RunsAreBounded | src/v2/application/missions/mission_execution_orchestrator.ts:90-264 | no run is longer than a bound in the plan's size and the retry budget, cyclic and incomplete plans included |
| MissionTermination.NeverStuck | src/v2/application/missions/mission_execution_orchestrator.ts:90-264 | a run that has not ended can always take another step |
| MissionTermination.RunsEndIffWidth | src/v2/application/missions/mission_execution_orchestrator.ts:90-109 | runs are bounded if and only if the width is at least one or nothing is runnable; otherwise rounds with empty batches repeat for ever |
| MissionTermination.TriesAreBounded | src/v2/application/missions/mission_execution_orchestrator.ts:125-158 | each task is started at most once and dispatched at most maxTaskRetries + 1 times |
| MissionTermination.RunQueuesAndPopsOnce | src/v2/application/missions/ready_task_queue.ts:6-39 | in every run a task of the plan enters the ready queue at most once, counting initializeFromPlan and every unlock, and is popped at most as often as it was queued |
| MissionTermination.QueuedAndPoppedOnce | src/v2/application/missions/ready_task_queue.ts:6-39 | along a run's states a task has been queued once exactly if it is in the queue or its body has begun, and popped once exactly if its body has begun |
| MissionPlans.ResultIsNaive | src/v2/application/missions/mission_execution_orchestrator.ts:90-283 | the completed tasks and reports of every finished run are those of as many naive rounds as the plan has tasks, where a round tries every task whose dependencies completed, all at once |
| MissionPlans.SucceedsIffSound | src/v2/application/missions/mission_execution_orchestrator.ts:90-283 | a mission succeeds if and only if the task graph of its plan is closed and acyclic and every task passes when handed its dependencies' reports in the naive evaluation, which no run enters |
| MissionPlans.PopsStartLayers | src/v2/application/missions/mission_execution_orchestrator.ts:90-112 | with room for the whole plan and no failure so far, k pops have started exactly the first k layers of the graph, in every interleaving |
| MissionPlans.PopsTakeBatches | src/v2/application/missions/mission_execution_orchestrator.ts:97-104 | then the k-th pop takes exactly batch k of the execution batches |
| MissionPlans.UngroundedStayPending | src/v2/application/missions/mission_execution_orchestrator.ts:90-109 | tasks on a cycle, behind one or behind a missing dependency stay pending whatever the outcomes |
| Lanes.Refines | src/v2/application/worker/worker_runtime.ts:17-32 | every event of a promise-chain lane is the corresponding event of a first-in first-out single server |
| Lanes.LaneIsFifo | src/v2/application/worker/worker_runtime.ts:17-40 | requests are served in order of arrival; queueDepth is enqueued minus started; busy means some run has not settled |
| Lanes.CallsStartInOrder | src/v2/application/worker/worker_runtime.ts:19-29 | the k-th executor call is for the k-th request, starts only after all earlier runs settled (by rejection too) and never overlaps another |
| Lanes.LaneMovesOn | src/v2/application/worker/worker_runtime.ts:19-30 | a lane with unfinished runs is never stuck |
| Lanes.WorkerRuntime.Add | src/v2/application/worker/worker_runtime.ts:17-32 | enqueue chains the request on the tail and makes it the new tail |
| Lanes.WorkerRuntime.OnPreviousSettled | src/v2/application/worker/worker_runtime.ts:21-25 | the continuation moves one request from queued to active |
| Lanes.WorkerRuntime.OnExecutorSettled | src/v2/application/worker/worker_runtime.ts:24-28 | active is cleared whether the executor resolved or rejected |
| Lanes.WorkerRuntime.IsBusy | src/v2/application/worker/worker_runtime.ts:34-36 | busy exactly when some enqueued run has not settled |
| Lanes.WorkerRuntime.QueueDepth | src/v2/application/worker/worker_runtime.ts:38-40 | the number of requests waiting to start |
| Lanes.DefaultWorkerDispatcher.GetRuntime | src/v2/application/missions/worker_dispatcher.ts:16-23 | one lane per worker: an existing runtime is reused, a missing one is created empty, no two workers share one |
| Lanes.DefaultWorkerDispatcher.DispatchWorkerTask | src/v2/application/missions/worker_dispatcher.ts:11-14 | the request joins its own worker's lane and no other lane changes |
| Lanes.OneActiveCallPerWorker | src/v2/application/missions/worker_dispatcher.ts:11-23 | in every reachable dispatcher each worker has at most one executor call under way |
| Lanes.DispatcherRunsLanes | src/v2/application/missions/worker_dispatcher.ts:11-23 | seen from one worker every dispatcher run is a run of that worker's lane, fed with the requests dispatched to it |
| Lanes.DispatcherIsFifo | src/v2/application/missions/worker_dispatcher.ts:11-23 | in every dispatcher run each worker's executor calls start in order of dispatch, one after the other settled; its depth is dispatched minus started |
| Reasoning.Worker.BeginExecution | src/v2/domain/employees/worker.ts:92-100 | throws exactly when an execution is active and then changes nothing; otherwise activates the execution |
| Reasoning.Worker.CompleteExecution | src/v2/domain/employees/worker.ts:102-121 | ends the active execution and records it; without one it does nothing |
| Reasoning.CompletedRecords | src/v2/domain/employees/worker.ts:108-120 | the history is the newest 25 completions, newest first, and the token total is the sum over all completions |
| Reasoning.SingleFlight | src/v2/application/reasoning/reasoning_coordinator.ts:72-195 | in every interleaving whose cancelForWorker calls find their worker idle, at most one request per registered worker is executing and activeExecution names it |
| Reasoning.EndIsRecorded | src/v2/application/reasoning/reasoning_coordinator.ts:142-194 | in every such run, when a call ends its worker's history starts with the call's task and COMPLETED or FAILED as the plugin reported, the worker is idle, its tokens are added, no other worker changes, and the caller gets the same answer |
| Reasoning.EndWithoutExecution | src/v2/domain/employees/worker.ts:102-104 | a call that ends when its worker has no execution leaves every worker as it is |
| Reasoning.CancelIsRecorded | src/v2/application/reasoning/reasoning_coordinator.ts:59-62 | a cancelled execution is recorded as INTERRUPTED without tokens |
| Reasoning.TurnedDownIff | src/v2/application/reasoning/reasoning_coordinator.ts:72-86 | a request is rejected at once if and only if five are in the table or its worker is executing |
| Reasoning.BusyCancelAdmitsSecond | src/v2/application/reasoning/reasoning_coordinator.ts:51-66 | from every such reachable state with a busy worker, cancelForWorker and dropping one table entry admit a second executing request |
| Reasoning.WorkerCancelAdmitsSecond | src/v2/application/reasoning/reasoning_coordinator.ts:51-91 | without dropping an entry, cancelForWorker admits the second request if and only if the table without the cancelled request is below its limit |
| Reasoning.TableIsBounded | src/v2/application/reasoning/reasoning_coordinator.ts:73-86 | with every kind of cancellation the request table never exceeds its limit |
| Reasoning.TableKeepsThrown | src/v2/application/reasoning/reasoning_coordinator.ts:86-111 | with distinct request ids and without cancellations the table holds exactly the requests in flight and those that threw |
| Reasoning.ReasoningCoordinator.BeginRequest | src/v2/application/reasoning/reasoning_coordinator.ts:72-93 | rejects at the limit or for a busy worker, otherwise enters the request in the table |
| Reasoning.ReasoningCoordinator.AfterSelection | src/v2/application/reasoning/reasoning_coordinator.ts:93-111 | drops the request without a plugin, otherwise begins the execution or throws and leaves the entry |
| Reasoning.ReasoningCoordinator.AfterExecution | src/v2/application/reasoning/reasoning_coordinator.ts:142-194 | removes the entry and completes whatever execution the worker has |
| Reasoning.ReasoningCoordinator.AfterPluginCancel | src/v2/application/reasoning/reasoning_coordinator.ts:51-66 | removes the entry it had read and completes whatever execution the worker has by then |
| Reasoning.ReasoningCoordinator.CancelRequest | src/v2/application/reasoning/reasoning_coordinator.ts:197-205 | removes the entry and says whether there was one; workers are untouched |
| Resolver.ResolveDependencies | src/infrastructure/parser/dependency_resolver.ts:5-60 | terminates on cyclic references; the local results are exactly the reachable local symbols other than the start; with references that hold no colon the external results are exactly, for each reachable non-local name, its first exporting other file |
| Resolver.FindExporter | src/infrastructure/parser/dependency_resolver.ts:37-53 | the file found is the first other file with a symbol of that name whose type is 'export' or whose text holds `export `; None means that there is none |
| Resolver.ExternalOfIsFirst | src/infrastructure/parser/dependency_resolver.ts:37-53 | the recursive search answers e if and only if e is that first exporter |
| Resolver.ExportedMeans | src/infrastructure/parser/dependency_resolver.ts:41-43 | a symbol counts as exported if and only if its type is 'export' or its text reads something, `export `, something |
| Resolver.ExportIsResolved | src/infrastructure/parser/dependency_resolver.ts:36-53 | a reachable name no local symbol has gets an external result when another file declares it with text that starts with `export ` |
| Resolver.FindIsFirst | src/infrastructure/parser/dependency_resolver.ts:28 | the local match is the first symbol of the name |
| Resolver.ClosedIsReachable | src/infrastructure/parser/dependency_resolver.ts:19-35 | the visited set at the end is exactly what the start reaches |
| Resolver.PlainNamesAreExact | src/infrastructure/parser/dependency_resolver.ts:45-51 | when no reference holds a colon, the map of external results holds exactly the wanted ones, whatever the file paths look like |
| Resolver.PlainNamesDiffer | src/infrastructure/parser/dependency_resolver.ts:46 | wanted results of references without a colon never share a key |
| Resolver.OneExternalPerName | src/infrastructure/parser/dependency_resolver.ts:37-53 | at most one external result per name |
| ContextSlices.NoSymbolLostIffNoTie | src/infrastructure/parser/context_builder.ts:88-102 | for symbols with distinct (name, type): kept symbols are pairwise not nested; every symbol lies inside a kept one if and only if no two symbols share a topmost range |
| ContextSlices.LineFate | src/infrastructure/parser/context_builder.ts:88-102 | for symbols with distinct (name, type): a line of the list lies in some topmost range, and is printed exactly when one of those is not shared |
| ContextSlices.NoLineLostIffBridged | src/infrastructure/parser/context_builder.ts:88-102 | for symbols with distinct (name, type): no line is lost if and only if each line of a shared topmost range also lies in an unshared one |
| ContextSlices.TieLosesLine | src/infrastructure/parser/context_builder.ts:88-102 | two different symbols on one line drop each other and the line |
| ContextSlices.EntrySymbolsDistinct | src/infrastructure/parser/context_builder.ts:86-102 | the resolver's results and the target have distinct keys, as the filter needs |
| ContextSlices.DropNestedFilters | src/infrastructure/parser/context_builder.ts:102 | the filter takes each position of the list once or leaves it out, in order |
| ContextSlices.KeptListIsDetermined | src/infrastructure/parser/context_builder.ts:88-102 | for a list without repetitions, order and the symbols inside no other symbol determine the kept list |
| ContextSlices.SliceEntry | src/infrastructure/parser/context_builder.ts:86-112 | prints exactly the target and needed local symbols that lie in the lines of no other of them, each once and in their order, the target first if kept, with the two exact conditions for losing nothing |
| TaskExecution.GeneratePatches | src/core/application/services/patch_generator.ts:15-52 | all patches or none: refuses when a block names no file or a file that is not allowed |
| TaskExecution.PatchesAreConfined | src/core/application/services/patch_generator.ts:27-45 | every patch goes to an allowed file and carries trimmed content |
| TaskExecution.PatchesFollowBlocks | src/core/application/services/patch_generator.ts:15-52 | one patch per block, to the file its name is matched to and with its trimmed content, if and only if every block can be placed |
| TaskExecution.MatchMeans | src/core/application/services/patch_generator.ts:28-30 | a name is matched to the first allowed file that reads as something followed by that name |
| TaskExecution.TrimMeans | src/core/application/services/patch_generator.ts:54-56 | trimming cuts the white space off both ends, all of it and nothing else |
| TaskExecution.UpdateWorkspace | src/core/application/services/workspace_updater.ts:13-53 | applies the patches in order, skips those equal to the current content, and reports what it did up to an exception |
| TaskExecution.UpdateReports | src/core/application/services/workspace_updater.ts:18-35 | a path is in modifiedFiles if and only if some patch to it differed from the trimmed content it met, and in filesSkipped if and only if some patch repeated it |
| TaskExecution.UpdateWrites | src/core/application/services/workspace_updater.ts:23-34 | a path not reported modified has not changed; one that is holds its last patch exactly |
| TaskExecution.CrashKeepsReports | src/core/application/services/workspace_updater.ts:36-52 | an exception keeps what the earlier patches did and reported and may leave something in its own file |
| TaskExecution.AppliedStaysInside | src/core/application/services/workspace_updater.ts:18-38 | only the target changes, and afterwards its trimmed content is the last patch |
| TaskExecution.TryAttempt | src/core/application/services/task_execution_service.ts:221-400 | one attempt changes the tree only through its patches and passes only if the update and the verification do |
| TaskExecution.RunSubTask | src/core/application/services/task_execution_service.ts:211-401 | the retry loop; totalRetryCount, counted at the head of each retry turn, and the history, pushed at the end of the turn before, both grow by the sub-task's retry count |
| TaskExecution.RetryLoopFacts | src/core/application/services/task_execution_service.ts:211-401 | whatever its attempts wrote, a sub-task changes only its target and stays within the retry budget |
| TaskExecution.RetryLoopCounts | src/core/application/services/task_execution_service.ts:211-215 | both counters grow by the number of retries although they are stepped at different points |
| TaskExecution.LoopReports | src/core/application/services/task_execution_service.ts:313-316 | a sub-task reports its target modified, or skipped, if and only if one of its attempts wrote, or repeated, it |
| TaskExecution.FirstPassDecides | src/core/application/services/task_execution_service.ts:211-401 | SUCCESS if and only if an attempt within the budget passes with no provider crash before it; the retry count is the index of the attempt that decided |
| TaskExecution.ResultsHaveShape | src/core/application/services/task_execution_service.ts:127-477 | results are SUCCESS* and then at most one FAILED; totalRetryCount and the history length are both the sum of the retry counts, each within the budget |
| TaskExecution.StatusesHaveShape | src/core/application/services/task_execution_service.ts:406-481 | without a context error statuses read SUCCESS*, then perhaps one FAILED followed only by SKIPPED, and the three counts add up to the total |
| TaskExecution.SubTasksAreConfined | src/core/application/services/task_execution_service.ts:380-475 | at every boundary the tree differs from the initial one only at targets of SUCCESS sub-tasks |
| TaskExecution.TreeIsSnapshot | src/core/application/services/task_execution_service.ts:380-475 | when commits succeed the tree equals the last snapshot at every sub-task boundary |
| TaskExecution.HaltKeepsWorkIff | src/core/application/services/task_execution_service.ts:381-475 | a halted run keeps its successful work if and only if the sub-tasks since the last good commit left their targets as that commit has them; other runs keep it |
| TaskExecution.WorkIsSafeIffCommitted | src/core/application/services/task_execution_service.ts:381-475 | for given commit results, no answers, verifications or initial tree lose work if and only if every sub-task that can succeed and is not the last is committed |
| TaskExecution.LosingRun | src/core/application/services/task_execution_service.ts:381-475 | where such a commit fails, a concrete run loses the file that sub-task wrote |
| TaskExecution.PlanReports | src/core/application/services/task_execution_service.ts:313-316 | the modified and skipped files of a plan are exactly the targets some attempt of some sub-task wrote or repeated, failed ones included |
| TaskExecution.ResultReports | src/core/application/services/task_execution_service.ts:483-530 | what the caller gets: those files, the results and both counters, or nothing after a context error |
| TaskExecution.ContextErrorStops | src/core/application/services/task_execution_service.ts:157-173 | a context error leaves SUCCESS* before it, its own sub-task RUNNING and the rest PENDING |
| TaskExecution.ExecuteTask | src/core/application/services/task_execution_service.ts:127-512 | the nested loops compute the plan run: tree, snapshot, results, counters, history length, file reports and statuses |
| Lifecycle.PrunedIsHistory | src/v2/application/worker/worker_lifecycle_policy.ts:61-64 | the pruned crash list filtered at any later time equals the full history filtered to the window |
| Lifecycle.InWindowKeeps | src/v2/application/worker/worker_lifecycle_policy.ts:62 | pruning keeps a time stamp as often as it occurs exactly when it is younger than the window |
| Lifecycle.QuarantineIsExact | src/v2/application/worker/worker_lifecycle_policy.ts:66-74 | a worker is quarantined exactly when its last recorded crash exceeded the limit in its window, and no earlier one did |
| Lifecycle.NextDecision | src/v2/application/worker/worker_lifecycle_policy.ts:54-77 | the next decision is a function of the full history |
| Lifecycle.RestartsAreBounded | src/v2/application/worker/worker_lifecycle_policy.ts:61-89 | between clears any span shorter than windowMs holds at most maxCrashesInWindow restart decisions |
| Lifecycle.BackoffGrows | src/v2/application/worker/worker_lifecycle_policy.ts:76-77 | the back-off never decreases with the count and never exceeds its ceiling |
| Lifecycle.BackoffDoubles | src/v2/application/worker/worker_lifecycle_policy.ts:76-77 | the first delay is the base, capped; each further crash doubles the delay until the ceiling, where it stays |
| Lifecycle.WorkerLifecyclePolicy.OnWorkerFailed | src/v2/application/worker/worker_lifecycle_policy.ts:54-80 | handles one crash of one worker and leaves every other worker's record alone |
| Lifecycle.WorkerLifecyclePolicy.GetCrashCount | src/v2/application/worker/worker_lifecycle_policy.ts:96-99 | counts every recorded crash in the window, although the list is pruned |
| Lifecycle.WorkerLifecyclePolicy.ClearQuarantine | src/v2/application/worker/worker_lifecycle_policy.ts:103-106 | forgets one worker's crashes and quarantine and nothing else |
| Assignment.SkillChoiceIsFirstIdle | src/v2/application/worker/worker_store.ts:48-54 | the first idle skill match in store order, or the first match if none is idle |
| Assignment.MemberChoiceIsFirstIdle | src/v2/application/organization/department_orchestrator.ts:57-67 | the first idle member in store order, or the first member if none is idle |
| Assignment.ReuseOnlyWhenForced | src/v2/application/missions/task_assignment_engine.ts:42-47 | the choice is an unused worker if and only if some unused worker has the skill or belongs to the department |
| Assignment.SkillComesFirst | src/v2/application/missions/task_assignment_engine.ts:42-49 | an unused skill match wins over the department, an unused member over a used one, and nobody is chosen only for an empty department |
| Assignment.MatchesMeans | src/v2/application/worker/worker_store.ts:52 | a skill fits when it is the wanted text, holds it or is held by it |
| Assignment.CaseIsIgnored | src/v2/application/worker/worker_store.ts:49-53 | capabilities that differ in case only find the same worker |
| Assignment.DepartmentsOfCapabilities | src/v2/application/missions/task_assignment_engine.ts:6-15 | Architecture, QA and Documentation go to their departments and everything else to Backend |
| Assignment.AssignRecords | src/v2/application/missions/task_assignment_engine.ts:42-60 | an assignment records the task, the department of its capability and the selected worker |
| Assignment.StaffedBatchesDoNotDouble | src/v2/application/missions/task_assignment_engine.ts:35-69 | with enough members in every target department each task of a batch gets a worker of its own |
| Assignment.AssignPlanTasks | src/v2/application/missions/task_assignment_engine.ts:31-74 | the nested loops make the assignments batch by batch and keep both indexes and the task fields in step with them; batches that list each task once make the indexes exact inverses of the task fields |
| Assignment.PlanLogOnce | src/v2/application/missions/task_assignment_engine.ts:33-41 | batches that list each task id once assign no task twice |
| Assignment.PlanIndexesAreInverse | src/v2/application/missions/task_assignment_engine.ts:51-60 | for such batches each index lists a task under a key exactly when the task records that key |
| Assignment.PlanInOrder | src/v2/application/missions/task_assignment_engine.ts:35-69 | assignments are made batch by batch and, in a batch, in its order |
| Assignment.IndexesKeepOrder | src/v2/application/missions/task_assignment_engine.ts:56-60 | both indexes list their tasks in the order of the assignments |
| MergeQueues.StableSortIsUnique | src/v2/application/verification/merge_queue.ts:23 | descending order and the order inside each priority determine the queue |
| MergeQueues.SortIsStable | src/v2/application/verification/merge_queue.ts:22-23 | the sort used by the model is descending and stable |
| MergeQueues.EnqueueLands | src/v2/application/verification/merge_queue.ts:22-23 | sorting the whole queue again only puts the new candidate behind everything of its priority or higher; no waiting candidates change places |
| MergeQueues.HeadIsOldestOfHighest | src/v2/application/verification/merge_queue.ts:29-35 | the head is the oldest live candidate of maximal priority |
| MergeQueues.RemoveServes | src/v2/application/verification/merge_queue.ts:37-44 | removing a candidate from the queue keeps the queue the stable sort of the remaining arrivals |
| MergeQueues.MergeQueue.Enqueue | src/v2/application/verification/merge_queue.ts:12-27 | the candidate becomes the newest live one, the queue stays the stable sort of the live ones, and the waiting ones keep their order |
| MergeQueues.MergeQueue.Dequeue | src/v2/application/verification/merge_queue.ts:29-35 | removes and returns the oldest live candidate of maximal priority, or nothing when none is live |
| MergeQueues.MergeQueue.Cancel | src/v2/application/verification/merge_queue.ts:37-44 | removes the oldest live candidate of the task among those of its highest priority, exactly when the task has one |

## Left out

- Cancelling a mission, `retryTaskAfterReview` and exceptions inside a task body: the mission model covers runs without them.
- References that hold a colon, which the parser never takes from a source file: two wanted external results may then share the key `path:name` and one of them is kept (`KeyedExternals`).
- Events, `persistTask`, review requests and messages: only the awaits they add are kept, as points where bodies interleave.
- The verification and backoff awaits inside one attempt: an attempt is two steps, dispatch and settle, because nothing shared is read or written in between.
- The wait loop for running tasks at a loop head: `BookkeepingAlways` shows that nothing runs at a loop head, so it is never entered.
- A dependency whose id is the literal `verificationFailure`: the hand-off keeps dependency entries and the last failed verification in separate fields.
- Sharing of task objects between the graph and its callers: tasks are values in the graph's table, and a caller completing a task is part of the rescan model.
- The order of results that come from iterating a Map or a Set: results are characterised as sets, or for every iteration order.
- Removal and restart of workers while a request is in flight, and the terminal log, in the coordinator.
- Worker process states other than BUSY and IDLE changes made by an execution: the process supervisor is not part of this model.
- Parsing, the file cache, the choice of the target symbol by a regular expression and the grouping of external symbols per file in the context builder; the filter lemmas hold for any list.
- The response parser, validator and prompts: an attempt's answer is an input that yields code blocks or a failure.
- Provider or verification commands that write files themselves, files that git ignores, and rollbacks that fail.
- White space other than space, tab, carriage return and line feed in `trim`, and letters outside ASCII in `toLowerCase`.
- The sleep before a restart and the check that the worker still exists after it.
- Capabilities that name a built-in property of JavaScript objects, such as `constructor`, in the department table.
- Candidate ids, enqueue times and the status field in the merge queue.
- Telemetry, dashboards, stores, plugins, process handling and planning from keyword tables: they would only add easy members.
