/** Which accepted definitions have tasks that wait for each other: the cycle detector leaves
    only the tasks that depend on themselves. */
module Feasibility {
  import opened WorkflowTypes
  import opened SchedulerModel
  import opened WorkflowGraph
  import opened Graphs
  import opened DagParser
  import opened ParserGuarantees
  import opened Blocking

  /** The node depends on itself by an edge that waits: a task edge, or an artifact edge if only
      own results are published. */
  ghost predicate SelfWaiting(wf: Workflow, n: NodeId, own: bool) {
    && n in wf.nodes
    && exists e :: e in wf.nodes[n].edges && e.toId == n && e.fromId == n && (e.conditionType == TaskType || own)
  }

  /** An edge that waits within a set comes from a node of the set. */
  lemma WaitsForMember(wf: Workflow, nodes: set<NodeId>, n: NodeId, own: bool)
    requires EdgesResolved(wf) && WaitsIn(wf, nodes, n, own) && !SelfWaiting(wf, n, own)
    ensures HasPredecessor(n, nodes, Arrows(wf))
  {
    var e :| e in wf.nodes[n].edges && e.toId == n && WaitsWithin(wf, nodes, e, own);
    assert e.fromId in nodes && e.fromId != n && (e.fromId, n) in Arrows(wf);
  }

  /** An acyclic workflow in which no task waits for itself has no blocked set. */
  lemma AcyclicFeasible(wf: Workflow, own: bool)
    requires EdgesResolved(wf) && Acyclic(wf) && forall n :: n in wf.nodes ==> !SelfWaiting(wf, n, own)
    ensures Feasible(wf, own)
  {
    forall nodes ensures !Blocked(wf, nodes, own) {
      if Blocked(wf, nodes, own) {
        forall n | n in nodes ensures HasPredecessor(n, nodes, Arrows(wf)) {
          assert WaitsIn(wf, nodes, n, own);
          WaitsForMember(wf, nodes, n, own);
        }
        var c := UngroundedHasCycle(nodes, Arrows(wf));
      }
    }
  }

  /** A task that waits for itself is blocked, if it is the only producer of what it waits for. */
  lemma SelfWaitingBlocks(wf: Workflow, n: NodeId, own: bool)
    requires EdgesResolved(wf) && SelfWaiting(wf, n, own) && (own ==> UniqueProducers(wf))
    ensures Blocked(wf, {n}, own)
  {
    var e :| e in wf.nodes[n].edges && e.toId == n && e.fromId == n && (e.conditionType == TaskType || own);
    assert WaitsWithin(wf, {n}, e, own);
    assert WaitsIn(wf, {n}, n, own);
  }

  // ---------------------------------------------------------------- definitions

  /** No task dependency is resolved to its own task. */
  ghost predicate NoTaskSelfReference(def: WorkflowDefinition) {
    forall i, j ::
      0 <= i < |def.tasks| && 0 <= j < |def.tasks[i].dependencies| && def.tasks[i].dependencies[j].kind == TaskType ==>
      Source(def.tasks, def.tasks[i].dependencies[j]) != Some(i)
  }

  ghost predicate NoSelfWait(def: WorkflowDefinition, own: bool) {
    if own then NoSelfReference(def) else NoTaskSelfReference(def)
  }

  lemma SelfWaitingReference(def: WorkflowDefinition, n: NodeId, own: bool)
    requires AllResolved(def.tasks) && SelfWaiting(ParsedWorkflow(def), n, own)
    ensures !NoSelfWait(def, own)
  {
    var e :| e in ParsedWorkflow(def).nodes[n].edges && e.toId == n && e.fromId == n
             && (e.conditionType == TaskType || own);
    var i, l, source := IncomingShape(def, n, e);
    IdInjective(def, i, source);
  }

  lemma ReferenceSelfWaits(def: WorkflowDefinition, own: bool) returns (n: NodeId)
    requires AllResolved(def.tasks) && !NoSelfWait(def, own)
    ensures SelfWaiting(ParsedWorkflow(def), n, own)
  {
    var i, j :| 0 <= i < |def.tasks| && 0 <= j < |def.tasks[i].dependencies|
                && Source(def.tasks, def.tasks[i].dependencies[j]) == Some(i)
                && (own || def.tasks[i].dependencies[j].kind == TaskType);
    n := IdOf(def, i);
    var e := DependencyStored(def, i, j);
  }

  /** In an accepted definition tasks wait for each other exactly if some task depends on
      itself; with own results alone an artifact dependency counts as well, provided that no
      other task produces the artifact. */
  lemma ExactFeasibility(def: WorkflowDefinition, own: bool)
    requires AllResolved(def.tasks) && Acyclic(ParsedWorkflow(def))
    ensures NoSelfWait(def, own) ==> Feasible(ParsedWorkflow(def), own)
    ensures (own ==> UniqueProducers(ParsedWorkflow(def))) ==>
              (Feasible(ParsedWorkflow(def), own) <==> NoSelfWait(def, own))
  {
    var wf := ParsedWorkflow(def);
    ParsedEdgesResolved(def);
    if NoSelfWait(def, own) {
      forall n | n in wf.nodes ensures !SelfWaiting(wf, n, own) {
        if SelfWaiting(wf, n, own) { SelfWaitingReference(def, n, own); }
      }
      AcyclicFeasible(wf, own);
    } else if own ==> UniqueProducers(wf) {
      var n := ReferenceSelfWaits(def, own);
      SelfWaitingBlocks(wf, n, own);
    }
  }
}
