/** The stored collections behind the scheduler: the workflow document, the artifact store,
    the task queue and the workers.  Every update is one atomic find-and-update. */
module Services {
  import opened WorkflowTypes
  import opened DagEntities
  import opened DagStorage
  import opened SchedulerModel
  import opened WorkflowGraph
  import opened RequirementsChecker

  // ---------------------------------------------------------------- documents

  /** The first node with that id and one of the given statuses. */
  function MatchIndex(nodes: seq<NodeDto>, id: NodeId, statuses: set<DagNodeStatus>): (k: nat)
    ensures k <= |nodes|
    ensures k < |nodes| ==> nodes[k].id == id && nodes[k].status in statuses
    ensures forall j :: 0 <= j < k ==> !(nodes[j].id == id && nodes[j].status in statuses)
  {
    if nodes == [] || (nodes[0].id == id && nodes[0].status in statuses) then 0
    else 1 + MatchIndex(nodes[1..], id, statuses)
  }

  function PendingIndex(nodes: seq<NodeDto>): (k: nat)
    ensures k <= |nodes|
    ensures k < |nodes| ==> nodes[k].status == Pending
    ensures forall j :: 0 <= j < k ==> nodes[j].status != Pending
  {
    if nodes == [] || nodes[0].status == Pending then 0 else 1 + PendingIndex(nodes[1..])
  }

  lemma MatchFound(nodes: seq<NodeDto>, id: NodeId, statuses: set<DagNodeStatus>)
    requires DistinctDtoIds(nodes)
    ensures MatchIndex(nodes, id, statuses) < |nodes| <==> id in StatusMap(nodes) && StatusMap(nodes)[id] in statuses
  {
    var k := MatchIndex(nodes, id, statuses);
    ByIdKeys(nodes, StatusOf);
    ByIdAt(nodes, StatusOf);
    if id in StatusMap(nodes) {
      var i :| 0 <= i < |nodes| && nodes[i].id == id;
    }
  }

  /** Changing status and retry count of one node. */
  function Update(nodes: seq<NodeDto>, k: nat, status: DagNodeStatus, retries: nat): seq<NodeDto>
    requires k < |nodes|
  {
    nodes[k := nodes[k].(status := status, retryCount := retries)]
  }

  lemma UpdateEffect(nodes: seq<NodeDto>, k: nat, status: DagNodeStatus, retries: nat)
    requires ValidDocument(nodes) && k < |nodes|
    ensures var updated := Update(nodes, k, status, retries);
            && ValidDocument(updated)
            && WorkflowOf(updated) == WorkflowOf(nodes)
            && StatusMap(updated) == StatusMap(nodes)[nodes[k].id := status]
            && RetryMap(updated) == RetryMap(nodes)[nodes[k].id := retries]
  {
    var updated := Update(nodes, k, status, retries);
    UpdateValid(nodes, updated);
    SameWorkflow(nodes, k, updated[k]);
    ByIdUpdate(nodes, k, updated[k], StatusOf);
    ByIdUpdate(nodes, k, updated[k], RetriesOf);
  }

  lemma SameWorkflow(nodes: seq<NodeDto>, k: nat, node: NodeDto)
    requires DistinctDtoIds(nodes) && k < |nodes|
    requires node.id == nodes[k].id && node.edges == nodes[k].edges && node.task == nodes[k].task
    ensures WorkflowOf(nodes[k := node]) == WorkflowOf(nodes)
  {
    ByIdUpdate(nodes, k, node, Fixed);
    ByIdAt(nodes, Fixed);
    assert WorkflowOf(nodes[k := node]).order == WorkflowOf(nodes).order;
  }

  lemma UpdateValid(nodes: seq<NodeDto>, updated: seq<NodeDto>)
    requires ValidDocument(nodes) && |updated| == |nodes|
    requires forall i :: 0 <= i < |nodes| ==> updated[i].id == nodes[i].id && updated[i].edges == nodes[i].edges
    ensures ValidDocument(updated)
  {
    forall n, e | n in updated && e in n.edges ensures HasId(updated, e.fromId) && HasId(updated, e.toId) {
      var i :| 0 <= i < |updated| && updated[i] == n;
      assert nodes[i] in nodes && e in nodes[i].edges;
      var f :| 0 <= f < |nodes| && nodes[f].id == e.fromId;
      var g :| 0 <= g < |nodes| && nodes[g].id == e.toId;
      assert updated[f].id == e.fromId && updated[g].id == e.toId;
    }
  }

  lemma {:induction false} SelectFirst(nodes: seq<NodeDto>, order: seq<NodeId>, keep: set<NodeId>)
    requires |order| == |nodes| && forall i :: 0 <= i < |nodes| ==> order[i] == nodes[i].id
    requires forall i :: 0 <= i < |nodes| ==> (nodes[i].id in keep <==> nodes[i].status == Pending)
    ensures var k, selected := PendingIndex(nodes), Select(order, keep);
            (k == |nodes| <==> selected == []) && (k < |nodes| ==> selected[0] == nodes[k].id)
  {
    if nodes != [] && nodes[0].status != Pending { SelectFirst(nodes[1..], order[1..], keep); }
  }

  lemma FirstPending(nodes: seq<NodeDto>)
    requires DistinctDtoIds(nodes)
    ensures var k, pending := PendingIndex(nodes), Select(WorkflowOf(nodes).order, PendingSet(StatusMap(nodes)));
            (k == |nodes| <==> pending == []) && (k < |nodes| ==> pending[0] == nodes[k].id)
  {
    ByIdAt(nodes, StatusOf);
    SelectFirst(nodes, WorkflowOf(nodes).order, PendingSet(StatusMap(nodes)));
  }

  /** The stored workflow document. */
  class DagService {
    const id: string
    const workflowDefinitionId: string
    var nodes: seq<NodeDto>

    constructor (dag: Dag)
      requires DistinctIds(dag.nodes) && Linked(dag.nodes)
      ensures nodes == NodesToDto(dag.nodes) && Valid()
    {
      LinkedIsClosed(dag.nodes);
      id, workflowDefinitionId := dag.id, dag.workflowDefinitionId;
      nodes := NodesToDto(dag.nodes);
    }

    ghost predicate Valid()
      reads this
    {
      ValidDocument(nodes)
    }

    /** The document as linked node objects. */
    method Load() returns (dag: Dag)
      requires Valid()
      ensures forall k :: 0 <= k < |dag.nodes| ==> fresh(dag.nodes[k])
      ensures Shows(dag, nodes)
    {
      dag := ConvertDtoToDag(DagDto(id, nodes, workflowDefinitionId));
    }

    /** The document as linked node objects, if it contains the node. */
    method GetDagWithNodeId(n: NodeId) returns (dag: Option<Dag>)
      requires Valid()
      ensures dag.Some? <==> HasId(nodes, n)
      ensures dag.Some? ==> Shows(dag.value, nodes)
      ensures dag.Some? ==> forall k :: 0 <= k < |dag.value.nodes| ==> fresh(dag.value.nodes[k])
    {
      if !HasId(nodes, n) {
        return None;
      }
      var loaded := Load();
      return Some(loaded);
    }

    /** One atomic update of a matching node. */
    method FindOneAndUpdate(k: nat, to: DagNodeStatus, retries: nat)
      requires Valid() && k < |nodes|
      modifies this
      ensures Valid() && WorkflowOf(nodes) == old(WorkflowOf(nodes))
      ensures StatusMap(nodes) == old(StatusMap(nodes))[old(nodes)[k].id := to]
      ensures RetryMap(nodes) == old(RetryMap(nodes))[old(nodes)[k].id := retries]
      ensures nodes == Update(old(nodes), k, to, retries)
    {
      UpdateEffect(nodes, k, to, retries);
      nodes := Update(nodes, k, to, retries);
    }

    /** Moves the node to a status that its current status may proceed to. */
    method SetNodeStatus(n: NodeId, to: DagNodeStatus) returns (dag: Option<Dag>)
      requires Valid()
      modifies this
      ensures Valid() && WorkflowOf(nodes) == old(WorkflowOf(nodes)) && RetryMap(nodes) == old(RetryMap(nodes))
      ensures dag.Some? <==> n in old(StatusMap(nodes)) && old(StatusMap(nodes))[n] in Proceeding(to)
      ensures StatusMap(nodes) == if dag.Some? then old(StatusMap(nodes))[n := to] else old(StatusMap(nodes))
      ensures dag.Some? ==> var k := MatchIndex(old(nodes), n, Proceeding(to));
                            k < |old(nodes)| && nodes == Update(old(nodes), k, to, old(nodes)[k].retryCount)
      ensures dag.Some? ==> Shows(dag.value, nodes)
      ensures dag.Some? ==> forall k :: 0 <= k < |dag.value.nodes| ==> fresh(dag.value.nodes[k])
    {
      var k := MatchIndex(nodes, n, Proceeding(to));
      MatchFound(nodes, n, Proceeding(to));
      if k == |nodes| {
        return None;
      }
      ByIdAt(nodes, RetriesOf);
      ghost var retries := RetryMap(nodes);
      FindOneAndUpdate(k, to, nodes[k].retryCount);
      assert RetryMap(nodes) == retries;
      var loaded := Load();
      return Some(loaded);
    }

    /** Cancels the first Pending node. */
    method CancelAllPendingTasksOf()
      requires Valid()
      modifies this
      ensures Valid() && WorkflowOf(nodes) == old(WorkflowOf(nodes)) && RetryMap(nodes) == old(RetryMap(nodes))
      ensures var pending := Select(old(WorkflowOf(nodes)).order, PendingSet(old(StatusMap(nodes))));
              StatusMap(nodes) ==
              if pending == [] then old(StatusMap(nodes)) else old(StatusMap(nodes))[pending[0] := Canceled]
    {
      var k := PendingIndex(nodes);
      FirstPending(nodes);
      if k < |nodes| {
        ByIdAt(nodes, RetriesOf);
        ghost var retries := RetryMap(nodes);
        FindOneAndUpdate(k, Canceled, nodes[k].retryCount);
        assert RetryMap(nodes) == retries;
      }
    }

    method IncreaseRetryCountOfNodeAndSetStatusFailed(n: NodeId) returns (dag: Option<Dag>)
      requires Valid()
      modifies this
      ensures Valid() && WorkflowOf(nodes) == old(WorkflowOf(nodes))
      ensures dag.Some? <==> n in old(StatusMap(nodes)) && old(StatusMap(nodes))[n] in Proceeding(Failed)
      ensures dag.None? ==> nodes == old(nodes)
      ensures StatusMap(nodes) == if dag.Some? then old(StatusMap(nodes))[n := Failed] else old(StatusMap(nodes))
      ensures dag.Some? ==> n in old(RetryMap(nodes))
      ensures RetryMap(nodes) == if dag.Some? then old(RetryMap(nodes))[n := old(RetryMap(nodes))[n] + 1]
                                 else old(RetryMap(nodes))
      ensures dag.Some? ==> Shows(dag.value, nodes)
      ensures dag.Some? ==> forall k :: 0 <= k < |dag.value.nodes| ==> fresh(dag.value.nodes[k])
    {
      var k := MatchIndex(nodes, n, Proceeding(Failed));
      MatchFound(nodes, n, Proceeding(Failed));
      if k == |nodes| {
        return None;
      }
      ByIdAt(nodes, RetriesOf);
      FindOneAndUpdate(k, Failed, nodes[k].retryCount + 1);
      var loaded := Load();
      return Some(loaded);
    }
  }

  // ---------------------------------------------------------------- artifacts

  class ArtifactStoreService {
    var publishedArtifacts: seq<ArtifactId>

    constructor ()
      ensures publishedArtifacts == []
    {
      publishedArtifacts := [];
    }

    /** Publishes a new artifact; a known one changes nothing. */
    method AddArtifactToStore(a: ArtifactId) returns (added: bool)
      modifies this
      ensures added <==> a !in old(publishedArtifacts)
      ensures ToSet(publishedArtifacts) == ToSet(old(publishedArtifacts)) + {a}
      ensures Distinct(old(publishedArtifacts)) ==> Distinct(publishedArtifacts)
    {
      if a in publishedArtifacts {
        return false;
      }
      publishedArtifacts := publishedArtifacts + [a];
      return true;
    }
  }

  // ---------------------------------------------------------------- queue

  class TaskQueueService {
    var queue: seq<QueuedTask>
    var clock: nat

    constructor (clock: nat)
      ensures queue == [] && this.clock == clock
    {
      queue := [];
      this.clock := clock;
    }

    method EnqueueNode(n: NodeId, task: Task)
      modifies this
      ensures queue == old(queue) + [QueuedTask(n, task, old(clock))] && clock == old(clock) + 1
    {
      queue := queue + [QueuedTask(n, task, clock)];
      clock := clock + 1;
    }

    /** Takes out the first entry in the order of priority, then age. */
    method Dequeue() returns (r: Option<QueuedTask>)
      modifies this`queue
      ensures old(queue) == [] ==> r.None? && queue == old(queue)
      ensures old(queue) != [] ==>
                r == Some(old(queue)[MinIndex(old(queue))]) && queue == RemoveAt(old(queue), MinIndex(old(queue)))
    {
      if queue == [] {
        return None;
      }
      var k := MinIndex(queue);
      r := Some(queue[k]);
      queue := RemoveAt(queue, k);
    }
  }

  // ---------------------------------------------------------------- workers

  /** The workers after the first entry of a hold list, if there is one, was removed. */
  function WithoutFirstHeld(workers: seq<Worker>, i: nat): seq<Worker> {
    if i < |workers| && workers[i].nodesOnHold != []
    then workers[i := workers[i].(nodesOnHold := workers[i].nodesOnHold[1..])]
    else workers
  }

  class WorkersService {
    var workers: seq<Worker>

    constructor (workers: seq<Worker>)
      requires UniqueNames(workers)
      ensures this.workers == workers
    {
      this.workers := workers;
    }

    ghost predicate Valid()
      reads this
    {
      UniqueNames(workers)
    }

    method GetWorker(name: string) returns (worker: Option<Worker>)
      ensures worker == var i := FindWorker(workers, name); if i < |workers| then Some(workers[i]) else None
    {
      var i := FindWorker(workers, name);
      worker := if i < |workers| then Some(workers[i]) else None;
    }

    method FindWorkerWorkingOn(n: NodeId) returns (worker: Option<Worker>)
      ensures worker == var i := FindWorkingOn(workers, n); if i < |workers| then Some(workers[i]) else None
    {
      var i := FindWorkingOn(workers, n);
      worker := if i < |workers| then Some(workers[i]) else None;
    }

    /** Replaces the document of the named worker. */
    method UpdateWorker(name: string, worker: Worker)
      requires Valid() && worker.name == name
      modifies this
      ensures Valid()
      ensures var i := FindWorker(old(workers), name);
              workers == if i < |old(workers)| then old(workers)[i := worker] else old(workers)
    {
      var i := FindWorker(workers, name);
      if i < |workers| {
        workers := workers[i := worker];
      }
    }

    /** Gives the worker a task; unless forced, only if it has none.  A worker that is not stored
        stays unknown, which is a conflict unless forced. */
    method UpdateWorkOfWorker(name: string, task: NodeId, force: bool) returns (ok: bool)
      requires Valid()
      modifies this
      ensures Valid()
      ensures var i := FindWorker(old(workers), name);
              && (ok <==> force || (i < |old(workers)| && old(workers)[i].workingOn.None?))
              && workers == if ok && i < |old(workers)|
                            then old(workers)[i := old(workers)[i].(workingOn := Some(task))]
                            else old(workers)
    {
      var i := FindWorker(workers, name);
      if !force && (i == |workers| || workers[i].workingOn.Some?) {
        return false;
      }
      if i < |workers| {
        UpdateWorker(name, workers[i].(workingOn := Some(task)));
      }
      return true;
    }

    method ClearWorkOfWorker(name: string)
      requires Valid()
      modifies this
      ensures Valid()
      ensures var i := FindWorker(old(workers), name);
              workers == if i < |old(workers)| then old(workers)[i := old(workers)[i].(workingOn := None)]
                         else old(workers)
    {
      var i := FindWorker(workers, name);
      if i < |workers| {
        UpdateWorker(name, workers[i].(workingOn := None));
      }
    }

    method ClearWorkOfWorkerWorkingOn(n: NodeId)
      requires Valid()
      modifies this
      ensures Valid()
      ensures var i := FindWorkingOn(old(workers), n);
              workers == if i < |old(workers)| then old(workers)[i := old(workers)[i].(workingOn := None)]
                         else old(workers)
    {
      var i := FindWorkingOn(workers, n);
      if i < |workers| {
        workers := workers[i := workers[i].(workingOn := None)];
      }
    }

    /** Appends the task to the hold list of the worker, if that is stored. */
    method AddTaskToWorkerHold(name: string, task: QueuedTask)
      requires Valid()
      modifies this
      ensures Valid()
      ensures var i := FindWorker(old(workers), name);
              workers == if i < |old(workers)|
                         then old(workers)[i := old(workers)[i].(nodesOnHold := old(workers)[i].nodesOnHold + [task])]
                         else old(workers)
    {
      var i := FindWorker(workers, name);
      if i < |workers| {
        UpdateWorker(name, workers[i].(nodesOnHold := workers[i].nodesOnHold + [task]));
      }
    }

    /** Removes the first task on hold of the stored worker and returns the first of `held`; it is
        an error if `held` is empty, and nothing is removed then. */
    method UnholdOneOf(name: string, held: seq<QueuedTask>) returns (task: Option<QueuedTask>)
      requires Valid()
      modifies this
      ensures Valid() && task == (if held == [] then None else Some(held[0]))
      ensures workers ==
              if held == [] then old(workers) else WithoutFirstHeld(old(workers), FindWorker(old(workers), name))
    {
      if held == [] {
        return None;
      }
      var i := FindWorker(workers, name);
      if i < |workers| && workers[i].nodesOnHold != [] {
        UpdateWorker(name, workers[i].(nodesOnHold := workers[i].nodesOnHold[1..]));
      }
      return Some(held[0]);
    }

    /** Registers an unknown worker, or marks a known one as online; returns the old document. */
    method ProcessHeartbeat(name: string) returns (before: Option<Worker>)
      requires Valid()
      modifies this
      ensures Valid()
      ensures var i := FindWorker(old(workers), name);
              && before == (if i < |old(workers)| then Some(old(workers)[i]) else None)
              && workers == if i < |old(workers)| then old(workers)[i := old(workers)[i].(status := Online)]
                            else old(workers) + [Worker(name, Online, None, [])]
    {
      var i := FindWorker(workers, name);
      if i == |workers| {
        workers := workers + [Worker(name, Online, None, [])];
        return None;
      }
      before := Some(workers[i]);
      workers := workers[i := workers[i].(status := Online)];
    }

    method MarkStale(name: string) returns (found: bool)
      requires Valid()
      modifies this
      ensures Valid()
      ensures var i := FindWorker(old(workers), name);
              && (found <==> i < |old(workers)|)
              && workers == if found then old(workers)[i := old(workers)[i].(status := Stale)] else old(workers)
    {
      var i := FindWorker(workers, name);
      if i == |workers| {
        return false;
      }
      workers := workers[i := workers[i].(status := Stale)];
      return true;
    }
  }
}
