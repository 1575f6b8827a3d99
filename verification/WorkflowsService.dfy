/** Creating a workflow: its definition is parsed, stored, and its first tasks are queued. */
module WorkflowsService {
  import opened WorkflowTypes
  import opened DagEntities
  import opened SchedulerModel
  import opened WorkflowGraph
  import opened DagStorage
  import opened DagParser
  import opened ParserGuarantees
  import opened RequirementsChecker
  import opened Services
  import opened SchedulerService

  /** Artifact dependencies have names; an artifact edge without one cannot be checked. */
  ghost predicate NamedArtifacts(def: WorkflowDefinition) {
    forall t, d :: t in def.tasks && d in t.dependencies && d.kind == ArtifactType ==> d.id != ""
  }

  lemma ParsedCheckable(def: WorkflowDefinition)
    requires AllResolved(def.tasks) && NamedArtifacts(def)
    ensures EdgesCheckable(ParsedWorkflow(def))
  {
    var wf := ParsedWorkflow(def);
    forall n, e | n in wf.nodes && e in wf.nodes[n].edges && e.toId == n ensures Checkable(e) {
      var i, l, source := IncomingShape(def, n, e);
      assert def.tasks[i] in def.tasks && def.tasks[i].dependencies[l] in def.tasks[i].dependencies;
    }
  }

  lemma ParsedUntouched(def: WorkflowDefinition, n: NodeId)
    requires n in StatusMap(ParsedNodes(def))
    ensures StatusMap(ParsedNodes(def))[n] == Pending
    ensures n in RetryMap(ParsedNodes(def)) && RetryMap(ParsedNodes(def))[n] == 0
  {
    var nodes := ParsedNodes(def);
    ParsedDistinct(def);
    ByIdKeys(nodes, StatusOf);
    ByIdAt(nodes, StatusOf);
    ByIdAt(nodes, RetriesOf);
    var i :| 0 <= i < |nodes| && nodes[i].id == n;
  }

  /** In a parsed document every node is Pending and has no retries. */
  lemma ParsedMaps(def: WorkflowDefinition)
    ensures StatusMap(ParsedNodes(def)) == map n | n in ParsedWorkflow(def).nodes :: Pending
    ensures RetryMap(ParsedNodes(def)) == map n | n in ParsedWorkflow(def).nodes :: 0
  {
    var (status, retries) := (StatusMap(ParsedNodes(def)), RetryMap(ParsedNodes(def)));
    ParsedDistinct(def);
    DocumentWF(ParsedNodes(def));
    assert status.Keys == retries.Keys == ParsedWorkflow(def).nodes.Keys;
    forall n | n in status ensures status[n] == Pending && retries[n] == 0 { ParsedUntouched(def, n); }
  }

  /** A parsed document is the document of a workflow that has just been created. */
  lemma ParsedIsFresh(def: WorkflowDefinition, workers: seq<Worker>, clock: nat)
    ensures var nodes := ParsedNodes(def);
            State(WorkflowOf(nodes), StatusMap(nodes), RetryMap(nodes), {}, [], clock, workers, multiset{})
            == Fresh(ParsedWorkflow(def), workers, clock)
  {
    ParsedMaps(def);
  }

  lemma ShowsParsed(dag: Dag, def: WorkflowDefinition)
    requires NodesToDto(dag.nodes) == ParsedNodes(def) && DistinctIds(dag.nodes) && Linked(dag.nodes)
    ensures Shows(dag, ParsedNodes(def))
  {
    LinkedIsClosed(dag.nodes);
  }

  /** The stored collections of a new workflow, whose first tasks are queued; or the reason for
      which the definition cannot be parsed. */
  method Create(def: WorkflowDefinition, dagId: string, workersService: WorkersService, clock: nat)
    returns (r: Result<Scheduler, DagError>)
    requires workersService.Valid() && NamedArtifacts(def)
    ensures r.Ok? <==> AllResolved(def.tasks) && Acyclic(ParsedWorkflow(def))
    ensures r.Ok? ==> r.value.Valid() && r.value.workersService == workersService
    ensures r.Ok? ==> r.value.Snapshot() == CreatedFrom(def, workersService.workers, clock)
  {
    var parsed := Parse(def, dagId);
    if parsed.Err? {
      return Err(parsed.error);
    }
    assert ConvertDagToDto(parsed.value).nodes == ParsedNodes(def);
    ShowsParsed(parsed.value, def);
    ParsedCheckable(def);
    var scheduler := Start(def, parsed.value, workersService, clock);
    return Ok(scheduler);
  }

  /** Stores a parsed workflow, queues its first tasks and looks for free workers. */
  method Start(def: WorkflowDefinition, dag: Dag, workersService: WorkersService, clock: nat)
    returns (scheduler: Scheduler)
    requires workersService.Valid() && Shows(dag, ParsedNodes(def)) && EdgesCheckable(ParsedWorkflow(def))
    ensures scheduler.Valid() && scheduler.workersService == workersService
    ensures scheduler.Snapshot() == CreatedFrom(def, workersService.workers, clock)
  {
    scheduler := NewScheduler(def, dag, workersService, clock);
    scheduler.QueueOutStandingTasks(dag);
    scheduler.calls := scheduler.calls + FreeWorkerCalls(workersService.workers);
  }

  /** The collections right after the parsed workflow has been stored. */
  method NewScheduler(def: WorkflowDefinition, dag: Dag, workersService: WorkersService, clock: nat)
    returns (scheduler: Scheduler)
    requires workersService.Valid() && Shows(dag, ParsedNodes(def)) && EdgesCheckable(ParsedWorkflow(def))
    ensures fresh(scheduler) && fresh(scheduler.dagService) && fresh(scheduler.taskQueue)
            && scheduler.workersService == workersService
    ensures scheduler.Valid() && scheduler.dagService.nodes == ParsedNodes(def)
    ensures scheduler.Snapshot() == Fresh(ParsedWorkflow(def), workersService.workers, clock)
  {
    var dagService := new DagService(dag);
    var artifactStore := new ArtifactStoreService();
    var taskQueue := new TaskQueueService(clock);
    scheduler := new Scheduler(dagService, artifactStore, taskQueue, workersService);
    ParsedIsFresh(def, workersService.workers, clock);
  }
}
