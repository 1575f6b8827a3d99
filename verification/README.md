# Workflow engine of the video editing platform: model and proofs

This project models the task manager's workflow engine and the three parts of the platform
that meet it: the render strategy that writes workflows, the worker that executes tasks, and
two accounting loops (retrying with a random delay, uploading in parts).

A workflow definition is parsed into a DAG, checked for cycles, stored, and run by a scheduler
that reacts to messages: task started, completed or failed, artifact uploaded, hold request,
heartbeat, worker stale.  The state is a set of nodes with a status and a retry count, a
priority queue, workers with the node they work on and a hold list, the published artifacts,
and the scheduling calls that a handler starts without awaiting them.

## How it is built

* `SchedulerModel` gives every handler as a function on that state.  `Step` is one message,
  timer or un-awaited call; `Exec` a run; a run is honest if workers report only on the node
  they were given.  The safety, progress and termination theorems are about `Exec`.
* `DagEntities`, `CycleDetector`, `DagParser`, `DagStorage`, `Services` and `SchedulerService`
  are the same code as classes, objects and loops.  Their methods are proved against the
  functions: `Scheduler.Handle` takes the stored collections through exactly one `Step`, and
  `Scheduler.HandleAll` through `Exec`.  `WorkflowsService.Create` starts such a run.
* `Reporting`, `Dispatching` and `HoldRequests` say what one step of each kind does to the
  statuses, the queue, the workers and the calls, told from edges, criteria, priorities and times
  alone; `RenderedTasks`, `UploadEntries` and `ExecutorReports` do the same for a rendered
  workflow, the stored parts of an upload and the events of a task.
* `NodeMachine` views the stored nodes as a machine of single guarded updates, so that its
  theorems hold for any interleaving of handlers.
* `Guarantees` and `Completion` collect what a workflow owner can rely on, from the creation of
  the workflow on.  `Blocking`, `Feasibility` and `Dropped` say what can never run, which makes
  the theorems of `Completion` exact.
* `Limits` proves where the code falls short of its names and messages, with the exact
  condition; `Witnesses`, `SelfDependency` and `CycleWitness` give an input for each case.

Modelling decisions:

* One stored DAG.  Node ids carry only the workflow's name, so workflows with the same name
  would share ids; distinct names are assumed.
* One handler, or one un-awaited scheduling call, is one atomic step on fresh data.  Inside a
  step a repeated guarded update gives the same answer as the first try, so the retry strategy
  shows only in a hold request, whose attempts may each take another task out of the queue.
  `NodeMachine` needs none of this.
* Saving the artifact store is taken to have an effect, although the transaction around it is
  never committed (`task-manager/src/artifact-store/artifact-store.service.ts`).
* A node may be reported on by anybody in `Step`; the theorems say where honest workers are
  needed.  Artifacts may be reported by anyone at any time.
* Entries with the same priority and the same time leave the queue in insertion order; the clock
  of the model advances with every entry.
* A stale check and a heartbeat are events that may happen at any time.
* Input validation is not part of the model.  Where the code can throw on odd input (an artifact
  edge with an empty artifact id, an unknown edge type) the condition is stated:
  `RequirementsChecker.Checkable`, `WorkflowsService.NamedArtifacts`.
* Numbers of the scripting language are real numbers; how a number is written inside an artifact
  id is a parameter.

Where the code differs from its own names, comments or messages, the model follows the code:

* Canceling all pending tasks of a DAG cancels one (`Limits.CancelReachesAll`).
* The requeue of the held tasks of a stale worker never takes place, since no node on hold may
  be queued (`Placement.StaleRequeueDoesNothing`).
* A worker that is stale when its finished task is followed up gets no work again, whatever
  heartbeats it sends (`Limits.ExactStranding`, `Limits.StrandedForever`,
  `Witnesses.WorkerIsStranded`).
* A hold request can take a task from the head of the queue and lose it (`Placement.ExactLoss`,
  `Witnesses.TaskIsLost`), which then never runs (`Dropped.DroppedForever`).
* A task on hold is handed out and started without a look at its dependencies
  (`Limits.ExactEarlyStart`, `Witnesses.TaskStartsEarly`).
* A failure reported without a start is ignored, although the worker reports it for a task that
  it cannot construct; the task then blocks its node and its worker
  (`TaskExecutor.NeverStartedBlocks`).
* A task that depends on itself is accepted, and its workflow cannot be completed
  (`Completion.AcceptedCanFinish`, `SelfDependency.SelfDependentStalls`).
* The description of a cycle lists the whole search path and closes it with its first node,
  which need not lie on the cycle (`CycleDetector.HasCycles`, `CycleWitness.MisleadingDescription`).
* With the configured jitter a later retry never waits longer than an earlier one with the same
  draw (`RandomBackoff.BacksOffExactly`).

## Model

| member | source | states |
|---|---|---|
| `Guarantees.SinglePlace` | task-manager/src/scheduler/scheduler.service.ts:116-194 | On every honest run from creation, with heartbeats, stale workers, holds, failures and requeues, a node occurs at most once across queue, hold lists and workers, so no task is on two workers |
| `Guarantees.Conservation` | task-manager/src/scheduler/scheduler.service.ts:242-299 | Every Queued node is in exactly one place, the queue or a worker's work; every Running node is at exactly one worker; a node on hold has exactly one place unless a hold request dropped one |
| `Guarantees.SafeDependencies` | task-manager/src/scheduler/scheduler.service.ts:231-240 | In every reachable state a node that was never on hold is queued, runs, fails or has succeeded only with all its dependencies met |
| `Guarantees.SafeThroughout` | task-manager/src/scheduler/scheduler.service.ts:75-77 | Held nodes included: on an honest run from creation no node ever runs, fails or succeeds before its dependencies are met, exactly if the run never starts a task on hold with an open dependency |
| `Guarantees.TopologicalSuccess` | task-manager/src/scheduler/scheduler.service.ts:50-73 | Without hold requests the order in which nodes succeed is a topological order of the task dependencies |
| `Guarantees.BoundedWork` | task-manager/src/scheduler/scheduler.service.ts:116-134 | On every honest run a node is started at most maxRetryCount + 1 times, and the number of status changes is bounded by the measure of the initial state |
| `Guarantees.NoDeadlock` | task-manager/src/scheduler/scheduler.service.ts:301-313 | An acyclic workflow never gets stuck: until all nodes have succeeded some node is queued or running in its place, or is on hold, failed or canceled, or a result is still unpublished; and every single Pending node is reached by a path of dependencies from such a node |
| `Guarantees.AcceptedNeverStuck` | task-manager/src/dag/dag.service.ts:43-97 | The same, per node as well, for every definition that the parser accepts and in which no task depends on itself |
| `Completion.CanAlwaysFinish` | task-manager/src/scheduler/scheduler.service.ts:50-73 | After any honest run of an accepted definition, holds included, the run can be continued to the success of every task exactly if nothing has failed for good or was canceled, every task on hold still has a place, and no task depends on itself; if only results of succeeded tasks are published, artifact dependencies count too, for unique producers |
| `Completion.ExactCompletion` | task-manager/src/scheduler/scheduler.service.ts:64-194 | The same for any stored workflow: the third condition is that no set of tasks waits for itself |
| `Completion.AcceptedCanFinish` | task-manager/src/workflows/workflows.service.ts:36-44 | An accepted definition can be completed from its creation exactly if no task depends on itself, by a task dependency or, where only own results are published, by an artifact |
| `Completion.OwnResultsSuffice` | task-manager/src/scheduler/scheduler.service.ts:136-145 | Without self references some run that publishes only results of succeeded tasks completes the workflow, however many tasks produce an artifact |
| `SelfDependency.SelfDependentStalls` | task-manager/src/dag/cycle-detector/strategies/dfs.strategy.ts:52-55 | A definition of one task that depends on itself is accepted, and no honest run completes it; if it depends on its own artifact, none does unless somebody else uploads that |
| `Feasibility.ExactFeasibility` | task-manager/src/dag/cycle-detector/strategies/dfs.strategy.ts:36-64 | In an accepted definition some tasks wait for each other exactly if a task depends on itself |
| `Blocking.BlockedForever` | task-manager/src/scheduler/scheduler.service.ts:231-240 | Tasks that wait for each other stay Pending, or are canceled, over every honest run: none of them is ever queued or put on hold |
| `Dropped.DroppedForever` | task-manager/src/scheduler/scheduler.service.ts:331-335 | A task on hold without a place stays on hold without a place over every honest run, so it never runs |
| `Completion.CanFinish` | task-manager/src/scheduler/scheduler.service.ts:162-194 | From every state with the invariants in which nothing failed or was canceled, no task on hold lost its place and no set of tasks waits for itself, there is a run to the success of every node |
| `Completion.Advance` | task-manager/src/scheduler/scheduler.service.ts:242-299 | Each round of reports, publications, recruiting a new worker, or letting a worker give up a task on hold, lowers a lexicographic measure |
| `Completion.LeftDrops` | task-manager/src/dag/dag.service.ts:27-35 | No step raises the measure of attempts and statuses left, and a step that changes a status lowers it |
| `Completion.StepKeepsNames` | task-manager/src/workers/workers.service.ts:35-64 | No step gives two workers the same name |
| `NodeMachine.CasSafety` | task-manager/src/dag/dag.service.ts:254-327 | One guarded update: Succeeded stays, Pending is not entered, the retry count grows exactly with an entry into Failed, and a start needs an attempt |
| `NodeMachine.CasRunSafety` | task-manager/src/dag/dag.service.ts:27-35 | For every sequence of guarded updates, honest or not: Succeeded is absorbing, Pending is never entered, retries count the failures, starts never exceed failures plus one |
| `NodeMachine.StepIsCas` | task-manager/src/scheduler/scheduler.service.ts:64-77 | What any handler does to the stored nodes is a sequence of guarded updates |
| `NodeMachine.RunEvolves` | task-manager/src/dag/dag.service.ts:254-278 | Along any run succeeded nodes stay succeeded, left nodes never return to Pending, artifacts only grow |
| `Placement.StepKeeps` | task-manager/src/scheduler/scheduler.service.ts:136-194 | Every honest step keeps: each node in at most one place, statuses that fit the places, every Queued node in a place and every Running node at a worker |
| `Placement.RunKeeps` | task-manager/src/scheduler/scheduler.service.ts:116-194 | The same over whole runs, and for nodes on hold as long as no hold request drops a task |
| `Placement.ExactLoss` | task-manager/src/scheduler/scheduler.service.ts:315-338 | An honest step loses a task exactly when it is an accepted hold request without a look-ahead while the head of the queue is on hold |
| `Placement.StaleRequeueDoesNothing` | task-manager/src/scheduler/scheduler.service.ts:147-160 | The requeue of the held tasks of a stale worker changes nothing, since none of them may be queued |
| `Placement.QueueOutstandingEffect` | task-manager/src/scheduler/scheduler.service.ts:50-62 | Queueing the outstanding nodes marks exactly these as Queued and appends exactly these in order |
| `Placement.ForFreeWorkerKeeps` | task-manager/src/scheduler/scheduler.service.ts:162-176 | A dispatch to a free worker, conflicting or not, moves a task without losing or doubling it |
| `Placement.AfterNodeKeeps` | task-manager/src/scheduler/scheduler.service.ts:242-258 | Forcing the next task on the worker of a finished node loses and doubles no task |
| `Placement.FailedKeeps` | task-manager/src/scheduler/scheduler.service.ts:116-134 | A failure moves the node from its worker to the queue, or gives it up, in one place at a time |
| `Placement.OnlyThere` | task-manager/src/workers/workers.service.ts:77-81 | A node that a worker works on is in no queue entry, no hold list and at no other worker |
| `Dispatching.FollowUpHandsOut` | task-manager/src/scheduler/scheduler.service.ts:242-258 | The online worker of a finished node at once works on its first task on hold, which leaves its hold list; if it holds none, on the node of an entry that no other precedes by priority and age, which leaves the queue; only if both are empty it has no work; nothing else changes |
| `Dispatching.FollowUpIgnored` | task-manager/src/scheduler/scheduler.service.ts:243-248 | The follow-up of a node that no online worker has changes nothing |
| `Dispatching.FreeWorkerGetsNext` | task-manager/src/scheduler/scheduler.service.ts:162-176 | A worker without work that is offered some gets the next task in the same way, for any queue and any workers |
| `Dispatching.BusyWorkerRequeues` | task-manager/src/scheduler/scheduler.service.ts:171-175 | A worker that has work keeps it; the task taken for it comes to the end of the queue with a new time, from its hold list or the head of the queue |
| `Dispatching.BeatBringsOnline` | task-manager/src/workers/workers.service.ts:35-58 | A heartbeat brings the worker online with its work and holds as they were, or registers a new worker without work, and changes no other worker |
| `Dispatching.BeatOffersWork` | task-manager/src/workers/workers.service.ts:47-63 | A heartbeat starts a call for the worker exactly if it is new, was stale or has no work |
| `Dispatching.IdleBeatBringsWork` | task-manager/src/workers/workers.service.ts:61-63 | The heartbeat of an idle online worker followed by its call gives it the next task, whenever there is one |
| `Dispatching.GoesStaleOnly` | task-manager/src/workers/workers.service.ts:157-175 | A worker that becomes stale keeps its work and its holds, and the requeue of its holds is started |
| `Reporting.StartedOutcome` | task-manager/src/scheduler/scheduler.service.ts:75-77 | A start report makes a node Running exactly from Queued or on hold, and changes nothing else |
| `Reporting.CompletedStatuses` | task-manager/src/scheduler/scheduler.service.ts:64-73 | After a completion the node has succeeded, exactly the Pending nodes whose task sources have succeeded and whose artifacts are published are Queued, and every other status is as it was |
| `Reporting.CompletedOutcome` | task-manager/src/scheduler/scheduler.service.ts:64-73 | A completion of a Running node appends the newly Queued nodes in document order with rising times and starts one follow-up; of any other node it is ignored |
| `Reporting.UploadCompletes` | task-manager/src/scheduler/scheduler.service.ts:196-229 | A new artifact makes a Running node succeed exactly if it has criteria, every artifact criterion is published by then, and none is of unknown kind; else the node stays Running |
| `Reporting.UploadQueues` | task-manager/src/scheduler/scheduler.service.ts:136-141 | Exactly the Pending nodes whose requirements are met by then become Queued, and every other node keeps its status |
| `Reporting.UploadFollowsUp` | task-manager/src/scheduler/scheduler.service.ts:142-144 | One follow-up starts for each node that was completed, and no other call |
| `Reporting.UploadedOutcome` | task-manager/src/artifact-store/artifact-store.service.ts:29-57 | A known artifact changes nothing; a new one is published, and the newly Queued nodes are appended in document order with rising times |
| `Reporting.FailedRetries` | task-manager/src/scheduler/scheduler.service.ts:129-133 | A failure with retries left counts one, queues the node with a new time, frees its worker, and offers work to every online worker without work |
| `Reporting.FailedGivesUp` | task-manager/src/scheduler/scheduler.service.ts:117-127 | A failure without retries left makes the node Failed, cancels the first Pending node of the document and no other, and frees the worker |
| `Reporting.FreeCallsCount` | task-manager/src/scheduler/scheduler.service.ts:178-184 | One call for each online worker without work, and no other |
| `Reporting.CreatedOutcome` | task-manager/src/workflows/workflows.service.ts:36-44 | In a new workflow exactly the nodes without dependencies are Queued, in document order with rising times, and every online worker without work is offered some |
| `HoldRequests.RequestRefused` | task-manager/src/scheduler/scheduler.service.ts:79-93 | A request changes nothing unless the worker is online, holds nothing and works on a known node |
| `HoldRequests.RequestHoldsOffered` | task-manager/src/scheduler/scheduler.service.ts:315-348 | The first node of the document that waits for nothing but the success and the results of the node in work is held by the worker; the queue stays as it is |
| `HoldRequests.RequestHoldsQueued` | task-manager/src/scheduler/scheduler.service.ts:315-338 | If there is none, the first of the next four tasks in the order of leaving the queue that may be put on hold is held, and those before it are dropped |
| `HoldRequests.RequestHoldsNothing` | task-manager/src/scheduler/scheduler.service.ts:315-338 | If none of the next four may be put on hold they are dropped, and nothing is held |
| `Frontier.StepMoves` | task-manager/src/dag/dag.service.ts:27-35 | Which status changes each kind of message may cause, for every node; a node becomes Queued from Pending only with its dependencies met |
| `Frontier.StepCloses` | task-manager/src/scheduler/scheduler.service.ts:231-240 | A step of any message leaves no Pending node whose incoming edges are all satisfied |
| `Frontier.FrontierAlwaysClosed` | task-manager/src/scheduler/scheduler.service.ts:64-73 | The frontier stays closed over every run, honest or not |
| `Frontier.CreatedCloses` | task-manager/src/workflows/workflows.service.ts:36-44 | The frontier is closed right after a workflow was created |
| `Frontier.FirstQueued` | task-manager/src/scheduler/scheduler.service.ts:231-240 | A node leaves Pending, other than to Canceled or OnHold, only as Queued and with its dependencies met |
| `Frontier.CanceledStays` | task-manager/src/dag/dag.service.ts:27-35 | With honest workers a Canceled node stays Canceled, though the table lets it fail |
| `Frontier.DependencySafety` | task-manager/src/scheduler/edge-requirement-chercker/strategies/task-edge-requirements-checker.ts:11-17 | Dependencies that were met when a node was queued stay met over every honest run |
| `Frontier.SuccessOrder` | task-manager/src/scheduler/scheduler.service.ts:64-73 | Along an honest run each node that succeeds and was never on hold comes after the sources of its task edges |
| `Termination.StepKeepsBudget` | task-manager/src/scheduler/scheduler.service.ts:116-134 | With honest workers the retry count passes its limit only by one, and then the node has failed for good |
| `Termination.ChangesLowerMeasure` | task-manager/src/dag/dag.service.ts:300-327 | Every effective guarded update lowers the measure of attempts left and status rank |
| `Termination.FinitelyManyChanges` | task-manager/src/scheduler/scheduler.service.ts:116-134 | An honest run makes at most as many status changes as the initial measure |
| `Termination.StartsBounded` | task-manager/src/scheduler/scheduler.service.ts:120-129 | An honest run starts a node at most maxRetryCount + 1 times |
| `Progress.AllSucceed` | task-manager/src/scheduler/scheduler.service.ts:231-240 | If the frontier is closed, every node is Pending or Succeeded and the succeeded nodes' results are published, every node has succeeded |
| `Progress.NeverStuck` | task-manager/src/scheduler/scheduler.service.ts:301-313 | With the invariants, an unfinished workflow has a node in progress or one of the named reasons to wait |
| `Progress.PendingWaits` | task-manager/src/scheduler/scheduler.service.ts:301-313 | Every Pending node is reached by a path of dependencies from a node in progress, on hold, failed, canceled, or succeeded with results to come |
| `LookAheads.LookAheadIsDirect` | task-manager/src/scheduler/scheduler.service.ts:340-348 | With a closed frontier and one producer per artifact, every node that the look-ahead offers has an incoming edge from the node in work |
| `LookAheads.LookAheadFaithful` | task-manager/src/scheduler/scheduler.service.ts:315-348 | The look-ahead offers exactly the nodes that will be queued once the worker has reported everything, in any interleaving, except those that wait for another Running node which completes by the same artifacts |
| `LookAheads.Confluence` | task-manager/src/scheduler/scheduler.service.ts:196-229 | Every interleaving of a worker's task reports with its artifact reports and with dispatch ends in the same statuses, the node succeeded and its results published; tasks handed out from a hold list included |
| `LookAheads.InterleavingSettles` | task-manager/src/scheduler/scheduler.service.ts:136-145 | The statuses after such an interleaving in closed form |
| `Limits.CancelReachesAll` | task-manager/src/dag/dag.service.ts:280-298 | Canceling leaves no Pending node exactly when there was at most one |
| `Limits.ExactEarlyHold` | task-manager/src/scheduler/scheduler.service.ts:315-338 | An honest step lets a node out of Pending with open dependencies, by putting it on hold, exactly when it is an accepted hold request with a look-ahead |
| `Limits.HeldIsStarted` | task-manager/src/scheduler/scheduler.service.ts:284-288 | A free worker is handed its first held task and may start it; the start is early exactly if a dependency of that task is still open |
| `Limits.ExactEarlyStart` | task-manager/src/scheduler/scheduler.service.ts:75-77 | An honest step makes a node active with open dependencies exactly if it starts a task on hold one of whose dependencies is open |
| `Limits.SafeUnlessEarly` | task-manager/src/scheduler/scheduler.service.ts:75-77 | An honest run keeps the dependencies of all active nodes met in every state exactly if it has no such step |
| `Witnesses.TaskStartsEarly` | task-manager/src/scheduler/scheduler.service.ts:315-338 | A run from creation of two tasks in order: the second is held by look-ahead, the first fails, the second is handed out and runs although the first has not succeeded |
| `Witnesses.TaskIsHeldEarly` | task-manager/src/scheduler/scheduler.service.ts:340-348 | A run from creation to a hold request that lets a task through whose dependency is open |
| `Witnesses.TaskIsLost` | task-manager/src/scheduler/scheduler.service.ts:147-176 | A run from creation of two independent tasks with one worker, which goes stale and comes back, that ends with a task on hold and in no place |
| `Witnesses.WorkerIsStranded` | task-manager/src/scheduler/scheduler.service.ts:242-258 | A run from creation that ends with a stranded worker |
| `Witnesses.TaskIsUnstarted` | task-manager/src/scheduler/scheduler.service.ts:162-176 | A run from creation that ends with a task that was handed out and not started |
| `Limits.StepLeaves` | task-manager/src/workers/workers.service.ts:83-115 | A worker whose node can neither succeed nor fail, with no call left for it, is given no other work by any step |
| `Limits.ExactStranding` | task-manager/src/scheduler/scheduler.service.ts:242-258 | The last follow-up of a finished node leaves its worker with that node and no call exactly if the worker is stale at that moment |
| `Limits.StrandedForever` | task-manager/src/workers/workers.service.ts:35-64 | Such a worker gets no work again over any run |
| `Limits.UnstartedForever` | task-manager/src/scheduler/scheduler.service.ts:260-282 | A task that was handed out, from the queue or a hold list, and is never started keeps its status and stays with its worker over every honest run |
| `CycleDetector.IsCyclic` | task-manager/src/dag/cycle-detector/strategies/dfs.strategy.ts:36-64 | The search ends; true leaves a path of distinct nodes, begun where the search began, whose last node leads back into it; false leaves the stack as it was and the node finished behind all its successors |
| `CycleDetector.HasCycles` | task-manager/src/dag/cycle-detector/strategies/dfs.strategy.ts:7-34 | True exactly if there is a cycle through at least two nodes; the description is a search path closed with its first name, begun at the first node from which a cycle can be reached, and it is itself a cycle exactly if its last node leads to its first |
| `CycleWitness.MisleadingDescription` | task-manager/src/dag/cycle-detector/strategies/dfs.strategy.ts:13-23 | For X that leads into the cycle of A and B the answer is X -> A -> B -> X, and X lies on no cycle |
| `CycleDetector.Describe` | task-manager/src/dag/cycle-detector/strategies/dfs.strategy.ts:13-23 | The description is the chain of the stack's task names in insertion order, closed with the first |
| `DagGraph.CycleToIds` | task-manager/src/dag/dag.service.ts:99-122 | A cycle of node objects is a cycle of the stored ids |
| `DagGraph.CycleToNodes` | task-manager/src/dag/dag.service.ts:99-122 | A cycle of the stored ids is a cycle of node objects |
| `DagParser.Parse` | task-manager/src/dag/dag.service.ts:43-97 | Accepts exactly the definitions whose dependencies all have a source and that have no cycle through two or more tasks; the result is the described DAG; an unresolved dependency is reported before any cycle, and it is the first one |
| `DagParser.LinkAll` | task-manager/src/dag/dag.service.ts:48-84 | Links all dependencies in order, or stops at the first without a source and names it |
| `DagParser.LinkTask` | task-manager/src/dag/dag.service.ts:49-83 | Links the dependencies of one task up to the first without a source |
| `DagParser.TaskMap` | task-manager/src/dag/dag.service.ts:45 | A task name that occurs leads to the node of the last task of that name, and no other name leads anywhere |
| `DagParser.ArtifactMap` | task-manager/src/dag/dag.service.ts:46 | An artifact that is listed leads to the node of the last task that lists it, and no other artifact leads anywhere |
| `DagParser.SourceOfName` | task-manager/src/dag/dag.service.ts:45-55 | A task dependency comes from task k exactly if k has the name and no later task has it; it has no source exactly if no task has the name |
| `DagParser.SourceOfArtifact` | task-manager/src/dag/dag.service.ts:46-69 | An artifact dependency comes from task k exactly if k lists the artifact and no later task does; it has no source exactly if no task lists it |
| `DagParser.StoreEdge` | task-manager/src/dag/dag.service.ts:56-63 | An edge is pushed to its source and its target, and every node goes on holding exactly its edges |
| `DagParser.IdInjective` | task-manager/src/dag/dag.service.ts:44 | Different tasks of a workflow get different node ids |
| `DagParser.DetectorIsExact` | task-manager/src/dag/dag.service.ts:91-94 | The detector's answer on the node objects is the acyclicity of the stored workflow |
| `ParserGuarantees.IncomingMatchDependencies` | task-manager/src/dag/entities/dag-node.entity.ts:34-40 | A node's incoming edges match its dependencies one to one and in order |
| `ParserGuarantees.IncomingEdge` | task-manager/src/dag/dag.service.ts:48-84 | Incoming edge l has the kind of dependency l, its artifact exactly if it is an artifact dependency, and comes from the last task of that name or the last task that produces the artifact |
| `ParserGuarantees.StoredAtBothEnds` | task-manager/src/dag/dag.service.ts:62-63 | An edge is stored in its two end nodes as often as it was declared, and in no other node |
| `ParserGuarantees.ParsedEdgesResolved` | task-manager/src/dag/dag.service.ts:65-80 | Every edge has its source in the workflow, and an artifact edge's source lists the artifact among its results |
| `ParserGuarantees.ParsedNoSelf` | task-manager/src/dag/dag.service.ts:48-84 | Without self references no parsed edge joins a node to itself |
| `ParserGuarantees.ParsedOrder` | task-manager/src/dag/dag.service.ts:44 | The ids of a parsed workflow are listed once each |
| `DagStorage.ConvertDtoToDag` | task-manager/src/dag/dag.service.ts:124-153 | The rebuilt DAG has exactly the stored form it was built from, and its edges end in its own node objects |
| `DagStorage.StoreAndLoad` | task-manager/src/dag/dag.service.ts:99-153 | Storing and loading keeps every stored field, and every edge end is the very object in the node list with that id |
| `DagStorage.ConvertTask` | task-manager/src/dag/dag.service.ts:155-179 | The copied task has every field of the task |
| `RequirementsChecker.CheckAgrees` | task-manager/src/scheduler/edge-requirement-chercker/requirements-checker.ts:22-28 | On the edges of a loaded DAG the checker answers what the stored edge requires, and throws exactly for an edge of unknown type or an artifact edge without an artifact id |
| `RequirementsChecker.HasOpenDependencies` | task-manager/src/scheduler/scheduler.service.ts:301-313 | Throws exactly if an incoming edge cannot be checked; else the count of met requirements falls short exactly if some incoming edge is not satisfied |
| `RequirementsChecker.GetOutstandingTasksOfDag` | task-manager/src/scheduler/scheduler.service.ts:231-240 | Throws exactly if an incoming edge of a Pending node cannot be checked; else returns exactly the Pending nodes of the stored document with all dependencies met, in order |
| `Services.DagService.constructor` | task-manager/src/dag/dag.service.ts:181-186 | Saving any linked DAG with distinct ids stores its document |
| `Services.DagService.GetDagWithNodeId` | task-manager/src/dag/dag.service.ts:194-208 | Found exactly if the document contains the node; the loaded DAG shows the stored document |
| `Services.DagService.SetNodeStatus` | task-manager/src/dag/dag.service.ts:254-278 | Succeeds exactly if the node's status may proceed; then that node alone changes, and the returned DAG shows it |
| `Services.DagService.CancelAllPendingTasksOf` | task-manager/src/dag/dag.service.ts:280-298 | Cancels the first Pending node in document order, if there is one |
| `Services.DagService.IncreaseRetryCountOfNodeAndSetStatusFailed` | task-manager/src/dag/dag.service.ts:300-327 | Succeeds exactly if the node may fail; then its count grows by one and it is Failed, in one update |
| `Services.FirstPending` | task-manager/src/dag/dag.service.ts:280-291 | The positional update reaches the first Pending node of the order |
| `Services.ArtifactStoreService.AddArtifactToStore` | task-manager/src/artifact-store/artifact-store.service.ts:29-57 | Adds the artifact exactly if it is new; the store only grows and never holds an artifact twice |
| `Services.TaskQueueService.EnqueueNode` | task-manager/src/task-queue/task-queue.service.ts:19-29 | Appends an entry stamped with a time later than all before |
| `Services.TaskQueueService.Dequeue` | task-manager/src/task-queue/task-queue.service.ts:31-41 | Takes out the first entry by priority, then age, and nothing from an empty queue |
| `Services.WorkersService.UpdateWorkOfWorker` | task-manager/src/workers/workers.service.ts:83-105 | Without force it assigns exactly if the worker is stored and has no work, else reports a conflict; with force it assigns if the worker is stored |
| `Services.WorkersService.ClearWorkOfWorkerWorkingOn` | task-manager/src/workers/workers.service.ts:127-135 | Frees the first worker on the node and no other |
| `Services.WorkersService.AddTaskToWorkerHold` | task-manager/src/workers/workers.service.ts:117-125 | Appends the task to the hold list of the named worker, if that is stored |
| `Services.WorkersService.UnholdOneOf` | task-manager/src/workers/workers.service.ts:137-155 | An empty hold list is an error that changes nothing; else returns the first held task of the given record and drops the first of the stored one |
| `Services.WorkersService.ProcessHeartbeat` | task-manager/src/workers/workers.service.ts:35-64 | Registers an unknown worker, brings a known one online, and returns the old record |
| `Services.WorkersService.MarkStale` | task-manager/src/workers/workers.service.ts:157-175 | Marks the named worker as stale and changes nothing else |
| `SchedulerModel.MinIndex` | task-manager/src/task-queue/task-queue.service.ts:31-32 | The chosen entry is preceded by no other, and it is the first such entry |
| `SchedulerService.Scheduler.QueueDagNode` | task-manager/src/scheduler/scheduler.service.ts:186-194 | Marks and enqueues the node exactly if it may be queued, else changes nothing |
| `SchedulerService.Scheduler.QueueOutStandingTasks` | task-manager/src/scheduler/scheduler.service.ts:50-62 | Queues the outstanding nodes of the document |
| `SchedulerService.Scheduler.TaskStarted` | task-manager/src/scheduler/scheduler.service.ts:75-77 | The stored state after a start report is the model's |
| `SchedulerService.Scheduler.TaskCompleted` | task-manager/src/scheduler/scheduler.service.ts:64-73 | The stored state after a completion report is the model's |
| `SchedulerService.Scheduler.TaskFailed` | task-manager/src/scheduler/scheduler.service.ts:116-134 | The stored state after a failure report is the model's: retry while the count allows it, else give up |
| `SchedulerService.Scheduler.UpdateDagNodeStati` | task-manager/src/scheduler/scheduler.service.ts:196-229 | Completes exactly the Running nodes whose criteria are met, in order, and the loaded DAG goes on showing the document |
| `SchedulerService.MeetsCriteria` | task-manager/src/scheduler/scheduler.service.ts:203-215 | The count of met criteria is complete exactly if every artifact criterion is published and none is of unknown kind; task criteria count as met |
| `SchedulerService.MarkInMemory` | task-manager/src/scheduler/scheduler.service.ts:224 | A status assigned to a loaded node object is seen through every edge of the loaded DAG |
| `SchedulerService.Scheduler.OnArtifactUploaded` | task-manager/src/scheduler/scheduler.service.ts:136-145 | Completes nodes, queues what became outstanding, and starts a call for each completed node |
| `SchedulerService.Scheduler.ArtifactUploaded` | task-manager/src/artifact-store/artifact-store.service.ts:29-57 | A known artifact changes nothing; a new one is published and handled |
| `SchedulerService.Scheduler.GetNextQueuedTaskToScheduleFor` | task-manager/src/scheduler/scheduler.service.ts:284-299 | The worker's first held task, else the head of the queue, is taken out |
| `SchedulerService.Scheduler.ScheduleTaskForFreeWorker` | task-manager/src/scheduler/scheduler.service.ts:162-176 | Assigns the next task, or requeues it when the worker has work |
| `SchedulerService.Scheduler.ScheduleTaskForWorkerWorkingOnNode` | task-manager/src/scheduler/scheduler.service.ts:242-258 | Replaces the finished work of an online worker by its next task, or frees it |
| `SchedulerService.Scheduler.GetTasksThatWouldGetScheduledIfNodeGetsCompleted` | task-manager/src/scheduler/scheduler.service.ts:340-348 | Marking a node in memory and adding its results yields exactly the nodes outstanding in that hypothetical state |
| `SchedulerService.Scheduler.TryHold` | task-manager/src/scheduler/scheduler.service.ts:315-338 | One attempt: the candidate is held exactly if it may be, else a dequeued candidate is lost |
| `SchedulerService.Scheduler.PutTaskOnHoldFor` | task-manager/src/scheduler/scheduler.service.ts:97 | The repeated attempts lead where the model's attempts lead |
| `SchedulerService.Scheduler.TaskHoldRequested` | task-manager/src/scheduler/scheduler.service.ts:79-113 | Refuses the request unless the worker is online, holds nothing and works on a known node; else puts a task on hold |
| `SchedulerService.Scheduler.OnWorkerStale` | task-manager/src/scheduler/scheduler.service.ts:147-160 | Tries to requeue each held task and drops a hold entry for each that could be queued |
| `SchedulerService.Scheduler.Heartbeat` | task-manager/src/workers/workers.service.ts:35-64 | A new, formerly stale or free worker is announced as having no work |
| `SchedulerService.Scheduler.Handle` | task-manager/src/scheduler/scheduler.service.ts:64-184 | Every message, timer and un-awaited call takes the stored collections through exactly one step of the model |
| `SchedulerService.Scheduler.HandleAll` | task-manager/src/scheduler/scheduler.service.ts:64-184 | A whole run of messages ends in the state of the model's run, so the theorems on runs hold for the stored collections |
| `WorkflowsService.Create` | task-manager/src/workflows/workflows.service.ts:36-44 | Succeeds exactly for the definitions that parse; the stored collections are then in the model's initial state |
| `WorkflowsService.ParsedIsFresh` | task-manager/src/dag/dag.service.ts:329-335 | In a parsed document every node is Pending and has no retries |
| `TaskQueueOrder.DrainSorts` | task-manager/src/task-queue/task-queue.service.ts:31-32 | Emptying the queue yields a permutation of it in which nothing must precede an earlier entry |
| `TaskQueueOrder.QueueConserves` | task-manager/src/task-queue/task-queue.service.ts:19-41 | In any run of enqueues and dequeues, what was there and what was put in is taken out or left |
| `TaskQueueOrder.FirstComeFirstServed` | task-manager/src/task-queue/task-queue.service.ts:31-32 | In any such run, entries of the same priority leave in the order in which they arrived |
| `TaskQueueOrder.StepStamps` | task-manager/src/scheduler/scheduler.service.ts:171-175 | Every step of the scheduler leaves the queue in the order of its stamps, requeued tasks included |
| `TaskQueueOrder.HeadIsOldest` | task-manager/src/task-queue/task-queue.service.ts:31-32 | In every reachable state the head beats every other entry strictly, by priority or by age |
| `RandomBackoff.Strategy.Execute` | task-manager/src/function-executor/strategies/random-backoff.ts:15-33 | At most maxRetries + 1 calls; the first success is returned; the last error is thrown only if all calls failed; one delay for each failure |
| `RandomBackoff.BoundedWait` | task-manager/src/function-executor/strategies/random-backoff.ts:22-24 | After n failures the total positive delay is at most base·n + (2^n − 1)·base·max(0, 2·jitter − 1), whatever is drawn |
| `RandomBackoff.ExecutionWait` | task-manager/src/scheduler/scheduler.service.ts:42-47 | The bound for one execution; at a jitter of at most one half it is the base delay per allowed call |
| `RandomBackoff.BacksOffExactly` | task-manager/src/function-executor/strategies/random-backoff.ts:22-23 | With the same draw a later delay is longer exactly if 2·jitter·draw exceeds one, which never holds at one half |
| `RandomBackoff.DelayDoubles` | task-manager/src/function-executor/strategies/random-backoff.ts:22-24 | The first delay is twice the jitter times the draw times the base delay, and with the same draw the distance to the base delay doubles with every retry |
| `RandomBackoff.DelayRange` | task-manager/src/function-executor/strategies/random-backoff.ts:22-24 | The draws between zero and one give exactly the delays from base·(1 − 2^n) up to, not including, base·(1 + 2^n·(2·jitter − 1)) |
| `UploadService.UploadStore.AddFilePart` | api/src/upload/upload.service.ts:44-72 | The stored upload after sending one part, taken or refused by the storage, and whether the upload is finished by it |
| `UploadService.UploadStore.SetUploadPartCompletedAndUpdateSize` | api/src/upload/upload.service.ts:112-128 | The first entry of the part number is completed and the counter grows by the size |
| `UploadService.UploadStore.SetUploadPartFailed` | api/src/upload/upload.service.ts:130-141 | The first entry of the part number is marked as failed |
| `UploadService.ExactAccounting` | api/src/upload/upload.service.ts:112-141 | An update keeps the counter equal to the size of the completed entries exactly if it touches no entry completed with bytes in it |
| `UploadService.ExactRun` | api/src/upload/upload.service.ts:44-72 | After any interleaving of sends from a new upload the counter equals the size of the completed entries exactly if no update of the run touched an entry completed with bytes in it: a miscount is never made good |
| `UploadService.RunAccounted` | api/src/upload/upload.service.ts:44-72 | Over any interleaving of sends, failures and retries that reports nothing for a completed part, the counter is the size of the completed entries, duplicates included |
| `UploadService.FinishedOnce` | api/src/upload/upload.service.ts:64-69 | With non-empty parts an upload is finished at most once, whatever is sent again |
| `UploadService.FinishedIsWhole` | api/src/upload/upload.service.ts:63-66 | When a run without resent parts finishes the upload, the completed entries hold exactly the expected bytes |
| `UploadEntries.EntryOfSend` | api/src/upload/upload.service.ts:112-141 | After any interleaving of sends, failures and retries the entry of each send is at its place in the list: the first entry of a part number has the status of the last report, and the size and etag of the last success even after a failure; every later entry stays as it was begun |
| `UploadEntries.SendOfEntry` | api/src/upload/upload.service.ts:143-157 | Every entry of the list was begun by a send, and the list has them in the order of the sends |
| `UploadEntries.CountsReceived` | api/src/upload/upload.service.ts:112-128 | The counter is the sum of the sizes of all successes of parts that were begun, a part that succeeds twice counted twice |
| `TaskExecutor.Executor.ExecuteTask` | worker/lib/tasks/exec/TaskExecutor.cs:35-103 | The events with their texts fired for a task message, in every case of parsing, construction, processing and of listeners that throw, and what escapes to the caller |
| `ExecutorReports.ReportsInFull` | worker/lib/tasks/exec/TaskExecutor.cs:65-93 | A task that produces its results fires its start, its completion and one event for each result, in order and with these texts, and nothing escapes, if no listener throws |
| `ExecutorReports.ReportsUpToThrow` | worker/lib/tasks/exec/TaskExecutor.cs:70-102 | If the listeners of an event are the first to throw, exactly the events up to it are fired and then a failure with what they threw; what the listeners of the failure throw escapes |
| `ExecutorReports.ReportsThrowing` | worker/lib/tasks/exec/TaskExecutor.cs:70-102 | A task whose processing throws fires its start and one failure, with its own message or that of the listeners of the start |
| `ExecutorReports.ReportsNeverStarted` | worker/lib/tasks/exec/TaskExecutor.cs:43-68 | A message that cannot be parsed, has no factory, or whose constructor throws fires one failure with its id and text, and only what that event's listeners throw escapes |
| `TaskExecutor.SuccessStreams` | worker/lib/tasks/exec/TaskExecutor.cs:70-93 | A successful task sends Started and Completed on one queue and an artifact per result on the other |
| `TaskExecutor.SuccessfulTask` | worker/lib/tasks/exec/TaskExecutor.cs:65-94 | Every interleaving of the two streams makes the node succeed, from Queued or on hold, publishes its results and ends in the same statuses |
| `TaskExecutor.ThrowingTask` | worker/lib/tasks/exec/TaskExecutor.cs:95-102 | A task that throws costs one retry and is queued again, or has failed for good when its retries are used up |
| `TaskExecutor.FailureReport` | worker/lib/tasks/exec/TaskExecutor.cs:43-68 | The task manager ignores the worker's reports exactly of tasks that never started: unparsable, without a factory, or with a throwing constructor |
| `TaskExecutor.UnknownTaskIsNoNode` | worker/lib/tasks/exec/TaskExecutor.cs:45-48 | The id reported for an unparsable message is the id of no node |
| `TaskExecutor.NeverStartedBlocks` | worker/lib/tasks/exec/TaskExecutor.cs:55-68 | After the report of a task that never started, its node keeps its status and its worker stays occupied over every later honest run |
| `RenderStrategy.GenerateRenderWorkflow` | api/src/render/render-strategies/simple-single-layer-render.strategy.ts:12-93 | Accepts exactly the scenes with one layer, a clip in it and a file for each cut clip; the name, description, tasks and completion criteria of the workflow, the warnings, and the clips left sorted and starting at zero; each error |
| `RenderStrategy.PrepareCuts` | api/src/render/render-strategies/simple-single-layer-render.strategy.ts:30-49 | One Split task for each cut clip and the map of artifacts, or the first cut clip without a file |
| `RenderStrategy.Sort` | api/src/render/render-strategies/simple-single-layer-render.strategy.ts:66 | Sorting in place is the stable sort by start time |
| `RenderStrategy.ShiftToZero` | api/src/render/render-strategies/simple-single-layer-render.strategy.ts:75-82 | Every clip is shifted by the start of the first one |
| `RenderStrategy.CheckGaps` | api/src/render/render-strategies/simple-single-layer-render.strategy.ts:69-73 | One warning, with its length, for each gap between neighbours |
| `RenderedTasks.SplitCuts` | api/src/render/render-strategies/simple-single-layer-render.strategy.ts:31-46 | Task k is named Split, has no dependencies, cuts the k-th cut clip from and to the times of its cut out of the first file of its name, and its only result and only criterion is the artifact of that cut |
| `RenderedTasks.CutPositions` | api/src/render/render-strategies/simple-single-layer-render.strategy.ts:31 | The cut clips keep their order and their number |
| `RenderedTasks.SplicesFile` | api/src/render/render-strategies/simple-single-layer-render.strategy.ts:84-86 | File k of the Splice task is the artifact of the last cut clip with the id of the k-th clip in order of start times, or the uploaded file if the id is never cut |
| `RenderedTasks.DependsOnCuts` | api/src/render/render-strategies/simple-single-layer-render.strategy.ts:60-63 | The Splice task depends on one artifact for each cut id, in the order in which the ids are first cut, each that of the last cut clip of the id |
| `RenderedTasks.GapPositions` | api/src/render/render-strategies/simple-single-layer-render.strategy.ts:69-73 | The warnings are, in order, exactly those of the neighbours that do not touch, each with their ids and the length of the gap |
| `RenderGuarantees.SortIsStable` | api/src/render/render-strategies/simple-single-layer-render.strategy.ts:66 | The order is a permutation, ascending, and keeps clips with the same start in their order |
| `RenderGuarantees.PreparedIsLast` | api/src/render/render-strategies/simple-single-layer-render.strategy.ts:48 | A clip id leads to the artifact of the last cut clip of that id |
| `RenderGuarantees.OwnArtifact` | api/src/render/render-strategies/simple-single-layer-render.strategy.ts:84-86 | A cut clip is spliced from its own artifact exactly if the last cut clip of its id has that artifact |
| `RenderGuarantees.WaitsForItsFiles` | api/src/render/render-strategies/simple-single-layer-render.strategy.ts:60-63 | The Splice task depends on an artifact exactly if some clip is spliced from it as its prepared file |
| `RenderGuarantees.FilesInOrder` | api/src/render/render-strategies/simple-single-layer-render.strategy.ts:84-86 | One file for each clip in the order of start times: the prepared artifact, else the uploaded file |
| `RenderGuarantees.RenderedParses` | api/src/render/render-strategies/simple-single-layer-render.strategy.ts:12-93 | Every generated workflow parses without error and without a cycle |
| `RenderGuarantees.ReadyWhenCut` | api/src/render/render-strategies/simple-single-layer-render.strategy.ts:60-63 | A Split task is ready while Pending; the Splice task is ready exactly if it is Pending and all cut artifacts are published |
| `RenderGuarantees.StartsWithCuts` | api/src/render/render-strategies/simple-single-layer-render.strategy.ts:31-49 | The initially outstanding nodes are exactly the Split tasks, or the Splice task if there are none |
| `RenderGuarantees.RenderRuns` | api/src/render/render-strategies/simple-single-layer-render.strategy.ts:12-93 | Over every honest run the Splice task is at work only with all cut files there, and the workflow never gets stuck |
| `RenderGuarantees.RenderCanFinish` | api/src/render/render-strategies/simple-single-layer-render.strategy.ts:12-93 | Every generated workflow can be completed by an honest run that publishes only results of succeeded tasks |

## Left out

- RandomBackoff.Strategy.Execute: computes delays over real numbers, not with rounding.
- SchedulerService.Scheduler.PutTaskOnHoldFor: the four attempts are one step; other handlers between two attempts are not modelled.
- UploadService.UploadStore.AddFilePart: sends one part at a time; interleaved sends are the runs of UploadService.Run.
- RenderStrategy.GenerateRenderWorkflow: clips are values in the layer's array, so two entries that are the same object are not modelled.
- Several DAGs in one database, and workflows that share a name.
- Interleavings inside a handler, other than through NodeMachine.
- Messages to workers: the task message after an assignment and the prefetch command of a hold request.
- What the task manager does with a workflow's own completion criteria and status, and the notification that it has finished.
- Message transport, database drivers, object storage, controllers, logging and dependency injection.
- Cutting, splicing and analysing video, and the file system.
- Input validation, the web frontend, and the edits of scenes and workspaces.
- Timeouts, retry delays, error actions and cleanup policies, which the scheduler never reads.
- Choosing between render strategies, since there is only one.
