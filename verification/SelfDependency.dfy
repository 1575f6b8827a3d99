/** The smallest definition that the parser accepts and that can never be completed. */
module SelfDependency {
  import opened WorkflowTypes
  import opened SchedulerModel
  import opened WorkflowGraph
  import opened Graphs
  import opened DagParser
  import opened ParserGuarantees
  import opened Blocking
  import opened Feasibility
  import opened Completion
  import opened Placement

  /** One task that depends on itself, or on an artifact of its own. */
  ghost predicate OnlyItself(def: WorkflowDefinition) {
    && |def.tasks| == 1 && |def.tasks[0].dependencies| == 1
    && var (task, d) := (def.tasks[0], def.tasks[0].dependencies[0]);
    (d.kind == TaskType && d.id == task.name) || (d.kind == ArtifactType && d.id in task.results)
  }

  lemma ResolvesToItself(def: WorkflowDefinition)
    requires OnlyItself(def)
    ensures Source(def.tasks, def.tasks[0].dependencies[0]) == Some(0)
  {}

  lemma OneNodeAcyclic(wf: Workflow, n: NodeId)
    requires wf.nodes.Keys == {n}
    ensures Acyclic(wf) && UniqueProducers(wf)
  {
    assert Arrows(wf) == {};
  }

  lemma OneNode(def: WorkflowDefinition)
    requires |def.tasks| == 1 && AllResolved(def.tasks)
    ensures ParsedWorkflow(def).nodes.Keys == {IdOf(def, 0)}
  {
    ParsedOrder(def);
    var wf := ParsedWorkflow(def);
    assert wf.order == [IdOf(def, 0)];
    assert ToSet(wf.order) == {IdOf(def, 0)};
  }

  /** The definition is accepted, and no honest run completes it; if its dependency is an
      artifact, that is so as long as nobody else uploads the artifact. */
  lemma SelfDependentStalls(def: WorkflowDefinition, workers: seq<Worker>, clock: nat)
    requires OnlyItself(def) && Idle(workers) && UniqueNames(workers)
    ensures AllResolved(def.tasks) && Acyclic(ParsedWorkflow(def))
    ensures var foreign := def.tasks[0].dependencies[0].kind == ArtifactType;
            && !(exists es :: Completes(CreatedFrom(def, workers, clock), es, true))
            && ((exists es :: Completes(CreatedFrom(def, workers, clock), es, false)) <==> foreign)
  {
    ResolvesToItself(def);
    assert Resolved(def.tasks, 0, 0) && AllResolved(def.tasks);
    OneNode(def);
    OneNodeAcyclic(ParsedWorkflow(def), IdOf(def, 0));
    AcceptedCanFinish(def, workers, clock, true);
    AcceptedCanFinish(def, workers, clock, false);
  }
}
