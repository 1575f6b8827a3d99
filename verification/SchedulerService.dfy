/** The scheduler's handlers over the stored collections.  Each method is proved to do to
    the stored state what the scheduler model says. */
module SchedulerService {
  import opened WorkflowTypes
  import opened DagEntities
  import opened DagStorage
  import opened SchedulerModel
  import opened WorkflowGraph
  import opened RequirementsChecker
  import opened Services

  /** The node object carries the task that the workflow has under its id. */
  ghost predicate Known(n: DagNode, wf: Workflow) {
    n.id in wf.nodes && n.task == wf.nodes[n.id].task
  }

  class Scheduler {
    const dagService: DagService
    const artifactStore: ArtifactStoreService
    const taskQueue: TaskQueueService
    const workersService: WorkersService
    var calls: multiset<Call>  // scheduling calls that were started and not awaited

    constructor (dagService: DagService, artifactStore: ArtifactStoreService, taskQueue: TaskQueueService,
                 workersService: WorkersService)
      requires dagService.Valid() && EdgesCheckable(WorkflowOf(dagService.nodes)) && workersService.Valid()
      ensures Valid() && this.dagService == dagService && this.artifactStore == artifactStore
      ensures this.taskQueue == taskQueue && this.workersService == workersService && calls == multiset{}
    {
      this.dagService, this.artifactStore := dagService, artifactStore;
      this.taskQueue, this.workersService := taskQueue, workersService;
      calls := multiset{};
    }

    ghost function Repr(): set<object> {
      {this, dagService, artifactStore, taskQueue, workersService}
    }

    ghost predicate Valid()
      reads this, dagService, workersService
    {
      dagService.Valid() && EdgesCheckable(WorkflowOf(dagService.nodes)) && workersService.Valid()
    }

    /** The state of the model that the stored collections show. */
    ghost function Snapshot(): (s: State)
      requires Valid()
      reads this, dagService, artifactStore, taskQueue, workersService
      ensures WF(s)
    {
      DocumentWF(dagService.nodes);
      State(WorkflowOf(dagService.nodes), StatusMap(dagService.nodes), RetryMap(dagService.nodes),
            ToSet(artifactStore.publishedArtifacts), taskQueue.queue, taskQueue.clock, workersService.workers, calls)
    }

    // -------------------------------------------------------------- queueing

    /** Moves the node to a status that its stored status may proceed to. */
    method MarkNode(n: NodeId, to: DagNodeStatus) returns (dag: Option<Dag>)
      requires Valid()
      modifies dagService
      ensures Valid()
      ensures dag.Some? <==> CanMove(old(Snapshot()), n, to)
      ensures Snapshot() == if dag.Some? then Mark(old(Snapshot()), n, to) else old(Snapshot())
      ensures dag.Some? ==> Shows(dag.value, dagService.nodes)
    {
      dag := dagService.SetNodeStatus(n, to);
    }

    /** Puts a node of the workflow into the queue. */
    method EnqueueNode(node: DagNode)
      requires Valid() && Known(node, Snapshot().wf)
      modifies taskQueue
      ensures Valid() && Snapshot() == Enqueue(old(Snapshot()), node.id)
    {
      taskQueue.EnqueueNode(node.id, node.task);
    }

    /** Marks the node as Queued and enqueues it. */
    method QueueDagNode(node: DagNode) returns (ok: bool)
      requires Valid()
      requires Known(node, Snapshot().wf)
      modifies dagService, taskQueue
      ensures Valid()
      ensures ok <==> CanMove(old(Snapshot()), node.id, Queued)
      ensures Snapshot() == if ok then QueueNode(old(Snapshot()), node.id) else old(Snapshot())
    {
      var dag := MarkNode(node.id, Queued);
      if dag.None? {
        return false;
      }
      EnqueueNode(node);
      return true;
    }

    /** Queues the given nodes one after the other, up to the first that cannot be queued. */
    method QueueNodes(outstanding: seq<DagNode>)
      requires Valid() && forall n :: n in outstanding ==> Known(n, Snapshot().wf)
      modifies dagService, taskQueue
      ensures Valid() && Snapshot() == QueueAll(old(Snapshot()), NodeIds(outstanding))
    {
      ghost var s := Snapshot();
      ghost var ids, wf, goal := NodeIds(outstanding), s.wf, QueueAll(s, NodeIds(outstanding));
      assert ids[0..] == ids;
      var i := 0;
      while i < |outstanding|
        invariant 0 <= i <= |outstanding| == |ids|
        invariant Valid() && s == Snapshot() && s.wf == wf
        invariant forall k :: 0 <= k < |outstanding| ==> Known(outstanding[k], wf)
        invariant QueueAll(s, ids[i..]) == goal
      {
        QueueAllNext(s, ids, i);
        var ok := QueueDagNode(outstanding[i]);
        if !ok {
          return;
        }
        s := Snapshot();
        i := i + 1;
      }
      assert QueueAll(s, []) == s;
    }

    /** Queues the outstanding nodes of a loaded DAG. */
    method QueueOutStandingTasks(dag: Dag)
      requires Valid() && Shows(dag, dagService.nodes)
      modifies dagService, taskQueue
      ensures Valid() && Snapshot() == QueueOutstanding(old(Snapshot()))
    {
      NodesCheckable(dagService.nodes);
      var outstanding := GetOutstandingTasksOfDag(dag, dagService.nodes, artifactStore.publishedArtifacts);
      forall n | n in outstanding.value { ShownTask(dag, dagService.nodes, n); }
      QueueNodes(outstanding.value);
    }

    // -------------------------------------------------------------- task reports

    method TaskStarted(n: NodeId)
      requires Valid()
      modifies Repr()
      ensures Valid() && Snapshot() == SchedulerModel.TaskStarted(old(Snapshot()), n)
    {
      var _ := MarkNode(n, Running);
    }

    method TaskCompleted(n: NodeId)
      requires Valid()
      modifies Repr()
      ensures Valid() && Snapshot() == SchedulerModel.TaskCompleted(old(Snapshot()), n)
    {
      var dag := MarkNode(n, Succeeded);
      if dag.Some? {
        QueueOutStandingTasks(dag.value);
        calls := calls + multiset{AfterNode(n)};
      }
    }

    /** Gives up on a node: cancels pending work and frees the node's worker. */
    method GiveUp(n: NodeId)
      requires Valid()
      modifies Repr()
      ensures Valid() && Snapshot() == ClearWorkOn(CancelFirst(old(Snapshot())), n)
    {
      dagService.CancelAllPendingTasksOf();
      workersService.ClearWorkOfWorkerWorkingOn(n);
    }

    /** Puts a failed node back into the queue and frees its worker and looks for free workers. */
    method Retry(node: DagNode)
      requires Valid() && Known(node, Snapshot().wf) && CanMove(Snapshot(), node.id, Queued)
      modifies Repr()
      ensures Valid()
      ensures var cleared := ClearWorkOn(QueueNode(old(Snapshot()), node.id), node.id);
              Snapshot() == cleared.(calls := cleared.calls + FreeWorkerCalls(cleared.workers))
    {
      var _ := QueueDagNode(node);
      workersService.ClearWorkOfWorkerWorkingOn(node.id);
      calls := calls + FreeWorkerCalls(workersService.workers);
    }

    /** Counts a failure and returns the workflow as it is then stored, if the node could fail. */
    method CountFailure(n: NodeId) returns (dag: Option<Dag>)
      requires Valid()
      modifies dagService
      ensures Valid()
      ensures dag.Some? <==> CanMove(old(Snapshot()), n, Failed)
      ensures Snapshot() == if dag.Some? then MarkFailed(old(Snapshot()), n) else old(Snapshot())
      ensures dag.Some? ==> Shows(dag.value, dagService.nodes)
    {
      ghost var s := Snapshot();
      dag := dagService.IncreaseRetryCountOfNodeAndSetStatusFailed(n);
      ghost var (t, failed) := (Snapshot(), if dag.Some? then MarkFailed(s, n) else s);
      assert t.status == failed.status && t.retries == failed.retries;
    }

    method TaskFailed(n: NodeId)
      requires Valid()
      modifies Repr()
      ensures Valid() && Snapshot() == SchedulerModel.TaskFailed(old(Snapshot()), n)
    {
      var dag := CountFailure(n);
      if dag.None? {
        return;
      }
      var node, _ := FindNode(dag.value, dagService.nodes, n);
      if node.retryCount > node.task.retryPolicy.maxRetryCount {
        GiveUp(n);
      } else {
        Retry(node);
      }
    }

    // -------------------------------------------------------------- artifacts

    /** Marks a stored Running node as Succeeded. */
    method MarkStored(ghost i: nat, n: NodeId)
      requires Valid()
      requires i < |dagService.nodes| && dagService.nodes[i].id == n && dagService.nodes[i].status == Running
      modifies dagService
      ensures Valid() && n in old(Snapshot()).status && Snapshot() == Mark(old(Snapshot()), n, Succeeded)
      ensures dagService.nodes == Update(old(dagService.nodes), i, Succeeded, old(dagService.nodes)[i].retryCount)
    {
      ByIdAt(dagService.nodes, StatusOf);
      MatchIsNode(dagService.nodes, i, Proceeding(Succeeded));
      var _ := dagService.SetNodeStatus(n, Succeeded);
    }

    /** Marks a node object as Succeeded; the stored state stays as it is. */
    method MarkLoaded(dag: Dag, ghost nodes: seq<NodeDto>, node: DagNode, ghost i: nat)
      requires Valid() && Shows(dag, nodes) && i < |dag.nodes| && dag.nodes[i] == node
      modifies node`status
      ensures Valid() && dagService.nodes == old(dagService.nodes) && Snapshot() == old(Snapshot())
      ensures Shows(dag, Update(nodes, i, Succeeded, nodes[i].retryCount))
    {
      MarkInMemory(dag, nodes, node, i);
    }

    /** Marks one Running node of a loaded DAG as Succeeded, in the document and in memory. */
    method MarkCompleted(dag: Dag, node: DagNode, ghost i: nat)
      requires Valid() && Shows(dag, dagService.nodes)
      requires i < |dag.nodes| && dag.nodes[i] == node && node.status == Running
      modifies dagService, node`status
      ensures Valid() && Shows(dag, dagService.nodes)
      ensures node.id in old(Snapshot()).status && Snapshot() == Mark(old(Snapshot()), node.id, Succeeded)
    {
      ghost var nodes := dagService.nodes;
      ShownNode(dag, nodes, i);
      MarkStored(i, node.id);
      MarkLoaded(dag, nodes, node, i);
    }

    /** Completes a node of a loaded DAG if it is Running and its completion criteria are met. */
    method CompleteIfMet(dag: Dag, node: DagNode, ghost i: nat) returns (completed: bool)
      requires Valid() && Shows(dag, dagService.nodes) && i < |dag.nodes| && dag.nodes[i] == node
      modifies dagService, node`status
      ensures Valid() && Shows(dag, dagService.nodes)
      ensures completed <==> old(node.status) == Running && CriteriaMet(node.task, old(Snapshot()).published)
      ensures completed ==> node.id in old(Snapshot()).status
      ensures Snapshot() == if completed then Mark(old(Snapshot()), node.id, Succeeded) else old(Snapshot())
    {
      if node.status != Running || node.task.completionCriteria == [] {
        return false;
      }
      completed := MeetsCriteria(node.task, artifactStore.publishedArtifacts);
      if completed {
        MarkCompleted(dag, node, i);
      }
    }

    /** Marks the Running nodes whose completion criteria are met as Succeeded, in the stored
        document and in the loaded DAG, which goes on showing the document. */
    method UpdateDagNodeStati(dag: Dag) returns (completedNodes: seq<NodeId>)
      requires Valid() && Shows(dag, dagService.nodes)
      modifies dagService, dag.nodes
      ensures Valid() && Shows(dag, dagService.nodes)
      ensures var s := old(Snapshot());
              && completedNodes == Select(s.wf.order, CompleteSet(s.wf, s.status, s.published))
              && Snapshot() == s.(status := MarkAll(s.status, completedNodes, Succeeded))
    {
      ghost var s := Snapshot();
      ghost var complete := CompleteSet(s.wf, s.status, s.published);
      completedNodes := [];
      NothingMarked(s.status);
      var i := 0;
      while i < |dag.nodes|
        invariant 0 <= i <= |dag.nodes| == |s.wf.order|
        invariant Valid() && Shows(dag, dagService.nodes)
        invariant completedNodes == Select(s.wf.order[..i], complete)
        invariant Snapshot() == s.(status := MarkAll(s.status, completedNodes, Succeeded))
      {
        var node, next := dag.nodes[i], i + 1;
        CompletionNext(dag, dagService.nodes, s, i, next);
        MarkNext(s.status, completedNodes, node.id);
        var completed := CompleteIfMet(dag, node, i);
        if completed {
          completedNodes := completedNodes + [node.id];
        }
        i := next;
      }
      assert s.wf.order[..i] == s.wf.order;
    }

    /** The handler of a newly published artifact. */
    method OnArtifactUploaded()
      requires Valid()
      modifies Repr()
      ensures Valid()
      ensures var s := old(Snapshot());
              var done := Select(s.wf.order, CompleteSet(s.wf, s.status, s.published));
              var queued := QueueOutstanding(s.(status := MarkAll(s.status, done, Succeeded)));
              Snapshot() == queued.(calls := queued.calls + AfterNodeCalls(done))
    {
      var dag := dagService.Load();
      var completedNodes := UpdateDagNodeStati(dag);
      QueueOutStandingTasks(dag);
      calls := calls + AfterNodeCalls(completedNodes);
    }

    /** Publishes an artifact of a stored node and, if it is new, handles it. */
    method ArtifactUploaded(n: NodeId, a: ArtifactId)
      requires Valid()
      modifies Repr()
      ensures Valid() && Snapshot() == SchedulerModel.ArtifactUploaded(old(Snapshot()), n, a)
    {
      KnownIds(dagService.nodes, n);
      if !HasId(dagService.nodes, n) {
        return;
      }
      var added := artifactStore.AddArtifactToStore(a);
      if !added {
        assert ToSet(artifactStore.publishedArtifacts) == ToSet(old(artifactStore.publishedArtifacts));
        return;
      }
      assert Snapshot() == old(Snapshot()).(published := old(Snapshot()).published + {a});
      OnArtifactUploaded();
    }

    // -------------------------------------------------------------- dispatch

    /** The next task for a worker: its first task on hold, else the head of the queue. */
    method GetNextQueuedTaskToScheduleFor(worker: Worker) returns (task: Option<QueuedTask>)
      requires Valid()
      requires var i := FindWorker(workersService.workers, worker.name);
               i < |workersService.workers| && workersService.workers[i] == worker
      modifies Repr()
      ensures Valid()
      ensures (Snapshot(), task) == NextTask(old(Snapshot()), FindWorker(old(Snapshot()).workers, worker.name))
    {
      if worker.nodesOnHold != [] {
        task := workersService.UnholdOneOf(worker.name, worker.nodesOnHold);
        return;
      }
      task := taskQueue.Dequeue();
    }

    /** Gives a worker without work a task; a task that the worker cannot take is requeued. */
    method ScheduleTaskForFreeWorker(name: string)
      requires Valid()
      modifies Repr()
      ensures Valid() && Snapshot() == RunForFreeWorker(old(Snapshot()), name)
    {
      var worker := workersService.GetWorker(name);
      if worker.None? {
        return;
      }
      var task := GetNextQueuedTaskToScheduleFor(worker.value);
      if task.None? {
        return;
      }
      SameNamesAfterNext(old(Snapshot()), FindWorker(old(workersService.workers), name));
      var scheduled := workersService.UpdateWorkOfWorker(name, task.value.nodeId, false);
      if !scheduled {
        Requeue(task.value.nodeId);
      }
    }

    /** Puts a node back into the queue; its status stays as it is. */
    method Requeue(n: NodeId)
      requires Valid()
      modifies Repr()
      ensures Valid() && Snapshot() == Enqueue(old(Snapshot()), n)
    {
      KnownIds(dagService.nodes, n);
      var dag := dagService.GetDagWithNodeId(n);
      if dag.Some? {
        var node, _ := FindNode(dag.value, dagService.nodes, n);
        EnqueueNode(node);
      }
    }

    /** Gives the worker of a finished node its next task, or frees it. */
    method ScheduleTaskForWorkerWorkingOnNode(n: NodeId)
      requires Valid()
      modifies Repr()
      ensures Valid() && Snapshot() == RunAfterNode(old(Snapshot()), n)
    {
      var worker := workersService.FindWorkerWorkingOn(n);
      if worker.None? || worker.value.status != Online {
        return;
      }
      ghost var i := FindWorkingOn(workersService.workers, n);
      FindsByName(workersService.workers, i);
      var task := GetNextQueuedTaskToScheduleFor(worker.value);
      SameNamesAfterNext(old(Snapshot()), i);
      if task.None? {
        workersService.ClearWorkOfWorker(worker.value.name);
        return;
      }
      var scheduled := workersService.UpdateWorkOfWorker(worker.value.name, task.value.nodeId, true);
    }

    // -------------------------------------------------------------- holding tasks

    /** What would be outstanding if the node had succeeded and published its results.  The
        node is marked in memory only, and the mark is seen through the edges. */
    method GetTasksThatWouldGetScheduledIfNodeGetsCompleted(dag: Dag, ghost nodes: seq<NodeDto>, node: DagNode,
                                                            ghost i: nat)
      returns (r: seq<DagNode>)
      requires Shows(dag, nodes) && EdgesCheckable(WorkflowOf(nodes)) && i < |dag.nodes| && dag.nodes[i] == node
      modifies node`status
      ensures Shows(dag, Update(nodes, i, Succeeded, nodes[i].retryCount))
      ensures forall n :: n in r ==> n in dag.nodes
      ensures NodeIds(r) == Outstanding(WorkflowOf(nodes), StatusMap(nodes)[node.id := Succeeded],
                                        ToSet(artifactStore.publishedArtifacts) + ToSet(node.task.results))
    {
      var published := WithResults(artifactStore.publishedArtifacts, node.task.results);
      UpdateEffect(nodes, i, Succeeded, nodes[i].retryCount);
      assert nodes[i] == NodeToDto(node);
      MarkInMemory(dag, nodes, node, i);
      NodesCheckable(Update(nodes, i, Succeeded, nodes[i].retryCount));
      var outstanding := GetOutstandingTasksOfDag(dag, Update(nodes, i, Succeeded, nodes[i].retryCount), published);
      r := outstanding.value;
    }

    /** The first node of the look-ahead. */
    method FirstPreferred(dag: Dag, ghost nodes: seq<NodeDto>, node: DagNode, ghost i: nat,
                          ghost preferred: seq<NodeId>)
      returns (first: Option<DagNode>, ghost shown: seq<NodeDto>)
      requires Valid() && Shows(dag, nodes) && i < |dag.nodes| && dag.nodes[i] == node
      requires Offers(nodes, i, Snapshot().wf, Snapshot().published, preferred)
      modifies node`status
      ensures Valid() && Snapshot() == old(Snapshot())
      ensures Shows(dag, shown) && Offers(shown, i, Snapshot().wf, Snapshot().published, preferred)
      ensures IsFirst(first, preferred, Snapshot().wf)
    {
      shown := Update(nodes, i, Succeeded, nodes[i].retryCount);
      SameLookAhead(nodes, i, Snapshot().wf, Snapshot().published, preferred);
      var preferedNodes := GetTasksThatWouldGetScheduledIfNodeGetsCompleted(dag, nodes, node, i);
      if preferedNodes == [] {
        assert preferred == [];
        first := None;
        return;
      }
      assert preferred[0] == preferedNodes[0].id;
      ShownTask(dag, shown, preferedNodes[0]);
      first := Some(preferedNodes[0]);
    }

    /** The task to put on hold: the first node of the look-ahead, else the head of the queue. */
    method NextToHold(first: Option<DagNode>, ghost preferred: seq<NodeId>) returns (task: Option<QueuedTask>)
      requires Valid() && IsFirst(first, preferred, Snapshot().wf)
      modifies taskQueue
      ensures Valid()
      ensures Snapshot() == HoldCandidate(old(Snapshot()), preferred).0
      ensures task == HoldCandidate(old(Snapshot()), preferred).1
    {
      if first.None? {
        task := taskQueue.Dequeue();
        return;
      }
      return Some(QueuedTask(first.value.id, first.value.task, taskQueue.clock));
    }

    /** Puts the task on the worker's hold list, if its node may be put on hold. */
    method HoldTask(name: string, task: QueuedTask) returns (held: bool)
      requires Valid() && FindWorker(workersService.workers, name) < |workersService.workers|
      modifies dagService, workersService
      ensures Valid()
      ensures var s := old(Snapshot());
              && (held <==> CanMove(s, task.nodeId, OnHold))
              && Snapshot() ==
                 if held then PushHold(Mark(s, task.nodeId, OnHold), FindWorker(s.workers, name), task) else s
    {
      var marked := MarkNode(task.nodeId, OnHold);
      if marked.None? {
        return false;
      }
      workersService.AddTaskToWorkerHold(name, task);
      return true;
    }

    /** One attempt to put a task on hold. */
    method TryHold(name: string, first: Option<DagNode>, ghost preferred: seq<NodeId>) returns (held: bool)
      requires Valid() && FindWorker(workersService.workers, name) < |workersService.workers|
      requires IsFirst(first, preferred, Snapshot().wf)
      modifies dagService, workersService, taskQueue
      ensures Valid()
      ensures held <==> AttemptHolds(old(Snapshot()), preferred)
      ensures Snapshot() == AfterAttempt(old(Snapshot()), FindWorker(old(workersService.workers), name), preferred)
    {
      var task := NextToHold(first, preferred);
      if task.None? {
        return false;
      }
      held := HoldTask(name, task.value);
    }

    /** Each attempt looks ahead anew. */
    method Attempt(name: string, dag: Dag, ghost nodes: seq<NodeDto>, node: DagNode, ghost i: nat,
                   ghost preferred: seq<NodeId>) returns (held: bool, ghost shown: seq<NodeDto>)
      requires Valid() && FindWorker(workersService.workers, name) < |workersService.workers|
      requires Shows(dag, nodes) && i < |dag.nodes| && dag.nodes[i] == node
      requires Offers(nodes, i, Snapshot().wf, Snapshot().published, preferred)
      modifies dagService, workersService, taskQueue, node`status
      ensures Valid() && (held <==> AttemptHolds(old(Snapshot()), preferred))
      ensures Snapshot() == AfterAttempt(old(Snapshot()), FindWorker(old(workersService.workers), name), preferred)
      ensures Shows(dag, shown) && Offers(shown, i, old(Snapshot()).wf, old(Snapshot()).published, preferred)
    {
      var first;
      first, shown := FirstPreferred(dag, nodes, node, i, preferred);
      held := TryHold(name, first, preferred);
    }

    /** A number of attempts to put a task on hold.  A dequeued task whose node cannot be put
        on hold is dropped. */
    method PutTaskOnHoldFor(name: string, dag: Dag, ghost nodes: seq<NodeDto>, node: DagNode, ghost i: nat,
                            ghost preferred: seq<NodeId>, attempts: nat, ghost goal: State)
      requires Valid() && LeadsTo(Snapshot(), name, preferred, attempts, goal)
      requires Shows(dag, nodes) && i < |dag.nodes| && dag.nodes[i] == node
      requires Offers(nodes, i, Snapshot().wf, Snapshot().published, preferred)
      modifies dagService, workersService, taskQueue, node`status
      ensures Valid() && Snapshot() == goal
    {
      ghost var (s, shown) := (Snapshot(), nodes);
      var left, held := attempts, false;
      while left > 0 && !held
        invariant Valid() && SameGraph(s, Snapshot())
        invariant if held then Snapshot() == goal else LeadsTo(Snapshot(), name, preferred, left, goal)
        invariant Shows(dag, shown) && Offers(shown, i, s.wf, s.published, preferred)
      {
        var next := left - 1;
        HoldNext(Snapshot(), name, preferred, left, next, goal);
        held, shown := Attempt(name, dag, shown, node, i, preferred);
        left := next;
      }
    }

    /** Looks for a task to put on hold for a worker on the given node, if that is stored. */
    method HoldForWorkerOn(name: string, n: NodeId)
      requires Valid() && FindWorker(workersService.workers, name) < |workersService.workers|
      modifies dagService, workersService, taskQueue
      ensures Valid()
      ensures var s := old(Snapshot());
              Snapshot() == if n in s.wf.nodes
                            then PutOnHold(s, FindWorker(s.workers, name), LookAhead(s, n), HOLD_ATTEMPTS) else s
    {
      KnownIds(dagService.nodes, n);
      var dag := dagService.GetDagWithNodeId(n);
      if dag.None? {
        return;
      }
      var node, i := FindNode(dag.value, dagService.nodes, n);
      ghost var s := Snapshot();
      ghost var preferred := LookAhead(s, n);
      ShownNode(dag.value, dagService.nodes, i);
      PutTaskOnHoldFor(name, dag.value, dagService.nodes, node, i, preferred, HOLD_ATTEMPTS,
                       PutOnHold(s, FindWorker(s.workers, name), preferred, HOLD_ATTEMPTS));
    }

    /** The handler of a hold request.  The request is refused unless the worker is online, has
        nothing on hold and works on a known node. */
    method TaskHoldRequested(name: string)
      requires Valid()
      modifies dagService, workersService, taskQueue
      ensures Valid() && Snapshot() == HoldRequested(old(Snapshot()), name)
    {
      var worker := workersService.GetWorker(name);
      if worker.None? || worker.value.status != Online || worker.value.nodesOnHold != []
         || worker.value.workingOn.None? {
        return;
      }
      HoldForWorkerOn(name, worker.value.workingOn.value);
    }

    // -------------------------------------------------------------- workers

    /** Drops the first entry of the worker's stored hold list. */
    method Unhold(worker: Worker, ghost i: nat)
      requires Valid() && worker.nodesOnHold != []
      requires i == FindWorker(workersService.workers, worker.name) < |workersService.workers|
      modifies workersService
      ensures Valid() && Snapshot() == PopHold(old(Snapshot()), i)
      ensures FindWorker(workersService.workers, worker.name) == i
    {
      ghost var before := workersService.workers;
      var _ := workersService.UnholdOneOf(worker.name, worker.nodesOnHold);
      SameNames(before, workersService.workers, worker.name);
    }

    /** Requeues one task on hold and, if its node could be queued, drops an entry of the hold list. */
    method RequeueOne(worker: Worker, task: QueuedTask, ghost i: nat)
      requires Valid() && worker.nodesOnHold != []
      requires i == FindWorker(workersService.workers, worker.name) < |workersService.workers|
      modifies Repr()
      ensures Valid() && |workersService.workers| == |old(workersService.workers)|
      ensures var s := old(Snapshot());
              && Snapshot() == (if CanMove(s, task.nodeId, Queued) then PopHold(QueueNode(s, task.nodeId), i) else s)
              && FindWorker(workersService.workers, worker.name) == i
    {
      KnownIds(dagService.nodes, task.nodeId);
      var dag := dagService.GetDagWithNodeId(task.nodeId);
      if dag.Some? {
        var node, _ := FindNode(dag.value, dagService.nodes, task.nodeId);
        var queued := QueueDagNode(node);
        if queued {
          Unhold(worker, i);
        }
      }
    }

    /** The handler of a worker that has become stale. */
    method OnWorkerStale(name: string)
      requires Valid()
      modifies Repr()
      ensures Valid() && Snapshot() == RunRequeueHeld(old(Snapshot()), name)
    {
      var worker := workersService.GetWorker(name);
      if worker.None? {
        return;
      }
      ghost var i := FindWorker(workersService.workers, name);
      ghost var s := Snapshot();
      ghost var held := worker.value.nodesOnHold;
      ghost var goal := RequeueAllHeld(s, i, held);
      assert held[0..] == held;
      var k := 0;
      while k < |worker.value.nodesOnHold|
        invariant 0 <= k <= |held| == |worker.value.nodesOnHold|
        invariant Valid() && s == Snapshot() && WF(s)
        invariant i == FindWorker(workersService.workers, name) < |s.workers|
        invariant RequeueAllHeld(s, i, held[k..]) == goal
      {
        RequeueNext(s, i, held, k);
        RequeueOne(worker.value, worker.value.nodesOnHold[k], i);
        s := Snapshot();
        k := k + 1;
      }
      assert RequeueAllHeld(s, i, []) == s;
    }

    /** A heartbeat registers the worker or brings it online; a worker that is new, was stale or
        has no work is given some. */
    method Heartbeat(name: string)
      requires Valid()
      modifies Repr()
      ensures Valid() && Snapshot() == SchedulerModel.Heartbeat(old(Snapshot()), name)
    {
      var before := workersService.ProcessHeartbeat(name);
      if before.None? || before.value.status == Stale || before.value.workingOn.None? {
        calls := calls + multiset{ForFreeWorker(name)};
      }
    }

    method BecomesStale(name: string)
      requires Valid()
      modifies Repr()
      ensures Valid() && Snapshot() == SchedulerModel.BecomesStale(old(Snapshot()), name)
    {
      var found := workersService.MarkStale(name);
      if found {
        calls := calls + multiset{RequeueHeld(name)};
      }
    }

    // -------------------------------------------------------------- dispatch of messages

    /** Runs one call that was started and not awaited. */
    method RunPending(c: Call)
      requires Valid()
      modifies Repr()
      ensures Valid() && Snapshot() == RunCall(old(Snapshot()), c)
    {
      match c
      case AfterNode(n) => ScheduleTaskForWorkerWorkingOnNode(n);
      case ForFreeWorker(name) => ScheduleTaskForFreeWorker(name);
      case RequeueHeld(name) => OnWorkerStale(name);
    }

    /** Each message, timer or un-awaited call takes the stored state through exactly one step
        of the model. */
    method Handle(e: Event)
      requires Valid()
      modifies Repr()
      ensures Valid() && Snapshot() == Step(old(Snapshot()), e)
    {
      match e
      case Started(_, n) => TaskStarted(n);
      case Completed(_, n) => TaskCompleted(n);
      case FailedEvent(_, n) => TaskFailed(n);
      case Uploaded(n, a) => ArtifactUploaded(n, a);
      case HoldRequest(name) => TaskHoldRequested(name);
      case Beat(name) => Heartbeat(name);
      case GoesStale(name) => BecomesStale(name);
      case Perform(c) =>
        if c in calls {
          calls := calls - multiset{c};
          assert Snapshot() == old(Snapshot()).(calls := old(Snapshot()).calls - multiset{c});
          RunPending(c);
        }
    }

    /** A whole run of messages leaves the stored state where the model's run leads. */
    method HandleAll(es: seq<Event>)
      requires Valid()
      modifies Repr()
      ensures Valid() && Snapshot() == Exec(old(Snapshot()), es)
    {
      ghost var s := Snapshot();
      ghost var goal := Exec(s, es);
      assert es[0..] == es;
      var i := 0;
      while i < |es|
        invariant 0 <= i <= |es| && Valid() && s == Snapshot() && WF(s)
        invariant Exec(s, es[i..]) == goal
      {
        assert es[i..][0] == es[i] && es[i..][1..] == es[i + 1..];
        Handle(es[i]);
        s := Snapshot();
        i := i + 1;
      }
      assert Exec(s, []) == s;
    }
  }

  lemma RequeueNext(s: State, i: nat, held: seq<QueuedTask>, k: nat)
    requires WF(s) && i < |s.workers| && k < |held|
    ensures var next := if CanMove(s, held[k].nodeId, Queued) then PopHold(QueueNode(s, held[k].nodeId), i) else s;
            RequeueAllHeld(s, i, held[k..]) == RequeueAllHeld(next, i, held[k + 1..])
  {
    assert held[k..][1..] == held[k + 1..];
  }

  ghost predicate SameGraph(s: State, t: State) {
    t.wf == s.wf && t.published == s.published
  }

  ghost predicate LeadsTo(s: State, name: string, preferred: seq<NodeId>, attempts: nat, goal: State) {
    && WF(s) && FindWorker(s.workers, name) < |s.workers|
    && goal == PutOnHold(s, FindWorker(s.workers, name), preferred, attempts)
  }

  /** The nodes that would be outstanding if node `i` of the document had succeeded and published
      its results. */
  ghost predicate Offers(nodes: seq<NodeDto>, i: nat, wf: Workflow, published: set<ArtifactId>,
                         preferred: seq<NodeId>) {
    && DistinctDtoIds(nodes) && i < |nodes| && WorkflowOf(nodes) == wf
    && preferred ==
       Outstanding(wf, StatusMap(nodes)[nodes[i].id := Succeeded], published + ToSet(nodes[i].task.results))
  }

  /** An attempt leads to the goal, or to a state from which the other attempts lead there. */
  lemma HoldNext(s: State, name: string, preferred: seq<NodeId>, attempts: nat, left: nat, goal: State)
    requires LeadsTo(s, name, preferred, attempts, goal) && attempts == left + 1
    ensures var t := AfterAttempt(s, FindWorker(s.workers, name), preferred);
            if AttemptHolds(s, preferred) then t == goal
            else LeadsTo(t, name, preferred, left, goal) && t.workers == s.workers
  {
    HoldStep(s, FindWorker(s.workers, name), preferred, attempts, left);
  }

  /** Marking a node as Succeeded twice is marking it once. */
  lemma SameLookAhead(nodes: seq<NodeDto>, i: nat, wf: Workflow, published: set<ArtifactId>, preferred: seq<NodeId>)
    requires ValidDocument(nodes) && Offers(nodes, i, wf, published, preferred)
    ensures Offers(Update(nodes, i, Succeeded, nodes[i].retryCount), i, wf, published, preferred)
  {
    UpdateEffect(nodes, i, Succeeded, nodes[i].retryCount);
    var (once, id) := (StatusMap(nodes), nodes[i].id);
    assert once[id := Succeeded][id := Succeeded] == once[id := Succeeded];
  }

  method WithResults(published: seq<ArtifactId>, results: seq<ArtifactId>) returns (r: seq<ArtifactId>)
    ensures ToSet(r) == ToSet(published) + ToSet(results)
  {
    r := published;
    var j := 0;
    while j < |results|
      invariant 0 <= j <= |results| && r == published + results[..j]
    {
      r := r + [results[j]];
      j := j + 1;
    }
    assert results[..j] == results;
  }

  lemma KnownIds(nodes: seq<NodeDto>, n: NodeId)
    requires DistinctDtoIds(nodes)
    ensures HasId(nodes, n) <==> n in WorkflowOf(nodes).nodes
    ensures HasId(nodes, n) <==> n in StatusMap(nodes)
  {
    ByIdKeys(nodes, Fixed);
    ByIdAt(nodes, Fixed);
    SameKeys(nodes, StatusOf, Fixed);
  }

  lemma SameNamesAfterNext(s: State, i: nat)
    requires WF(s) && i < |s.workers|
    ensures var t := NextTask(s, i).0;
            && (forall k :: 0 <= k < |s.workers| ==>
                t.workers[k].name == s.workers[k].name && t.workers[k].workingOn == s.workers[k].workingOn)
            && FindWorker(t.workers, s.workers[i].name) == FindWorker(s.workers, s.workers[i].name)
  {
    SameNames(s.workers, NextTask(s, i).0.workers, s.workers[i].name);
  }

  lemma MatchIsNode(nodes: seq<NodeDto>, i: nat, statuses: set<DagNodeStatus>)
    requires DistinctDtoIds(nodes) && i < |nodes| && nodes[i].status in statuses
    ensures MatchIndex(nodes, nodes[i].id, statuses) == i
  {}

  /** Marks a node object as Succeeded.  The mark changes just that node of the shown document;
      every edge with that end shows it too. */
  method MarkInMemory(dag: Dag, ghost nodes: seq<NodeDto>, node: DagNode, ghost i: nat)
    requires Shows(dag, nodes) && i < |dag.nodes| && dag.nodes[i] == node
    modifies node`status
    ensures Shows(dag, Update(nodes, i, Succeeded, nodes[i].retryCount))
  {
    UpdateEffect(nodes, i, Succeeded, nodes[i].retryCount);
    ghost var updated := Update(nodes, i, Succeeded, nodes[i].retryCount);
    label before:
    node.status := Succeeded;
    forall k | 0 <= k < |dag.nodes| ensures NodeToDto(dag.nodes[k]) == updated[k] {
      assert old@before(NodeToDto(dag.nodes[k])) == nodes[k];
    }
    assert NodesToDto(dag.nodes) == updated;
  }

  lemma NothingMarked(status: map<NodeId, DagNodeStatus>)
    ensures MarkAll(status, [], Succeeded) == status
  {}

  lemma MarkNext(status: map<NodeId, DagNodeStatus>, ns: seq<NodeId>, n: NodeId)
    requires n in status
    ensures MarkAll(status, ns + [n], Succeeded) == MarkAll(status, ns, Succeeded)[n := Succeeded]
  {}

  lemma SelectNext(order: seq<NodeId>, i: nat, next: nat, keep: set<NodeId>)
    requires Distinct(order) && i < |order| && next == i + 1
    ensures Select(order[..next], keep) == Select(order[..i], keep) + (if order[i] in keep then [order[i]] else [])
    ensures order[i] !in Select(order[..i], keep)
  {
    SelectAppend(order[..i], order[i], keep);
    assert order[..next] == order[..i] + [order[i]];
    assert order[i] !in order[..i];
  }

  /** Whether the next node of the document completes. */
  lemma CompletionNext(dag: Dag, nodes: seq<NodeDto>, s: State, i: nat, next: nat)
    requires Shows(dag, nodes) && i < |dag.nodes| && next == i + 1 && WorkflowOf(nodes) == s.wf && WF(s)
    requires StatusMap(nodes) ==
               MarkAll(s.status, Select(s.wf.order[..i], CompleteSet(s.wf, s.status, s.published)), Succeeded)
    ensures var complete := CompleteSet(s.wf, s.status, s.published); var node := dag.nodes[i];
            && node.id in s.status
            && (node.id in complete <==> node.status == Running && CriteriaMet(node.task, s.published))
            && Select(s.wf.order[..next], complete) ==
                 Select(s.wf.order[..i], complete) + (if node.id in complete then [node.id] else [])
  {
    var complete := CompleteSet(s.wf, s.status, s.published);
    var node := dag.nodes[i];
    assert nodes[i] == NodeToDto(node) && s.wf.order[i] == node.id;
    ShownTask(dag, nodes, node);
    SelectNext(s.wf.order, i, next, complete);
  }

  /** Counts the met criteria; a criterion on a task counts as met. */
  method MeetsCriteria(task: Task, publishedArtifacts: seq<ArtifactId>) returns (met: bool)
    requires task.completionCriteria != []
    ensures met <==> forall c :: c in task.completionCriteria ==>
                                   c.kind == TaskType || (c.kind == ArtifactType && c.id in publishedArtifacts)
  {
    var metCriteria := 0;
    var i := 0;
    while i < |task.completionCriteria|
      invariant 0 <= i <= |task.completionCriteria| && metCriteria <= i
      invariant metCriteria == i <==>
                forall c :: c in task.completionCriteria[..i] ==>
                         c.kind == TaskType || (c.kind == ArtifactType && c.id in publishedArtifacts)
    {
      var criteria := task.completionCriteria[i];
      assert task.completionCriteria[..i + 1] == task.completionCriteria[..i] + [criteria];
      if criteria.kind == ArtifactType {
        if criteria.id in publishedArtifacts {
          metCriteria := metCriteria + 1;
        }
      } else if criteria.kind == TaskType {
        metCriteria := metCriteria + 1;
      }
      i := i + 1;
    }
    assert task.completionCriteria[..i] == task.completionCriteria;
    return metCriteria == |task.completionCriteria|;
  }

  lemma QueueAllNext(s: State, ids: seq<NodeId>, i: nat)
    requires WF(s) && i < |ids|
    ensures QueueAll(s, ids[i..]) ==
            if CanMove(s, ids[i], Queued) then QueueAll(QueueNode(s, ids[i]), ids[i + 1..]) else s
  {
    assert ids[i..][1..] == ids[i + 1..];
  }

  method FindNode(dag: Dag, ghost nodes: seq<NodeDto>, n: NodeId) returns (node: DagNode, ghost k: nat)
    requires Shows(dag, nodes) && n in StatusMap(nodes)
    ensures k < |dag.nodes| && node == dag.nodes[k] && node.id == n && Known(node, WorkflowOf(nodes))
    ensures n in RetryMap(nodes) && node.retryCount == RetryMap(nodes)[n]
  {
    ByIdKeys(nodes, StatusOf);
    ghost var w :| 0 <= w < |nodes| && nodes[w].id == n;
    assert NodeToDto(dag.nodes[w]).id == n;
    var i := 0;
    while dag.nodes[i].id != n
      invariant 0 <= i <= w
      decreases w - i
    {
      i := i + 1;
    }
    node, k := dag.nodes[i], i;
    ShownTask(dag, nodes, node);
  }

  /** The node object of the first preferred node, if there is one. */
  ghost predicate IsFirst(first: Option<DagNode>, preferred: seq<NodeId>, wf: Workflow) {
    && (first.Some? <==> preferred != [])
    && (first.Some? ==> first.value.id == preferred[0] && Known(first.value, wf))
  }

  lemma ShownNode(dag: Dag, nodes: seq<NodeDto>, i: nat)
    requires Shows(dag, nodes) && i < |dag.nodes|
    ensures i < |nodes| && nodes[i] == NodeToDto(dag.nodes[i])
  {}

  lemma ShownTask(dag: Dag, nodes: seq<NodeDto>, n: DagNode)
    requires Shows(dag, nodes) && n in dag.nodes
    ensures Known(n, WorkflowOf(nodes))
    ensures n.id in StatusMap(nodes) && n.status == StatusMap(nodes)[n.id]
    ensures n.id in RetryMap(nodes) && n.retryCount == RetryMap(nodes)[n.id]
  {
    var k :| 0 <= k < |dag.nodes| && dag.nodes[k] == n;
    assert nodes[k] == NodeToDto(n);
    ByIdAt(nodes, Fixed);
    ByIdAt(nodes, StatusOf);
    ByIdAt(nodes, RetriesOf);
  }

  lemma DocumentWF(nodes: seq<NodeDto>)
    requires DistinctDtoIds(nodes)
    ensures var wf := WorkflowOf(nodes);
            && Distinct(wf.order) && ToSet(wf.order) == wf.nodes.Keys
            && StatusMap(nodes).Keys == RetryMap(nodes).Keys == wf.nodes.Keys
  {
    WorkflowOfDocument(nodes);
    SameKeys(nodes, StatusOf, Fixed);
    SameKeys(nodes, RetriesOf, Fixed);
  }

  lemma {:induction false} SameKeys<U, V>(nodes: seq<NodeDto>, f: NodeDto -> U, g: NodeDto -> V)
    ensures ById(nodes, f).Keys == ById(nodes, g).Keys
  {
    if nodes != [] { SameKeys(nodes[..|nodes| - 1], f, g); }
  }
}
