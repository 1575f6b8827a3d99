/** The cycles of the linked node objects are the cycles of their stored form. */
module DagGraph {
  import opened WorkflowTypes
  import opened DagEntities
  import opened Graphs
  import opened SchedulerModel
  import opened WorkflowGraph
  import CycleDetector

  lemma DistinctDtos(nodes: seq<DagNode>)
    requires DistinctIds(nodes)
    ensures DistinctDtoIds(NodesToDto(nodes))
  {}

  ghost function WorkflowOfDag(nodes: seq<DagNode>): Workflow
    requires DistinctIds(nodes)
    reads nodes
  {
    DistinctDtos(nodes);
    WorkflowOf(NodesToDto(nodes))
  }

  lemma NodeAt(nodes: seq<DagNode>, k: nat)
    requires DistinctIds(nodes) && k < |nodes|
    ensures var wf := WorkflowOfDag(nodes);
            nodes[k].id in wf.nodes && wf.nodes[nodes[k].id] == Node(nodes[k].task, EdgesToDto(nodes[k].edges))
  {
    DistinctDtos(nodes);
    WorkflowOfDocument(NodesToDto(nodes));
    assert NodesToDto(nodes)[k] == NodeToDto(nodes[k]);
  }

  /** The node with the given id, if there is one. */
  ghost function NodeFor(nodes: seq<DagNode>, id: NodeId): (n: DagNode)
    requires nodes != []
    ensures n in nodes && ((exists i :: 0 <= i < |nodes| && nodes[i].id == id) ==> n.id == id)
  {
    if exists i :: 0 <= i < |nodes| && nodes[i].id == id then
      var k :| 0 <= k < |nodes| && nodes[k].id == id; nodes[k]
    else nodes[0]
  }

  lemma KnownId(nodes: seq<DagNode>, id: NodeId)
    requires DistinctIds(nodes) && id in WorkflowOfDag(nodes).nodes
    ensures nodes != [] && NodeFor(nodes, id).id == id
  {
    ByIdKeys(NodesToDto(nodes), Fixed);
    var i :| 0 <= i < |NodesToDto(nodes)| && NodesToDto(nodes)[i].id == id;
    assert nodes[i].id == id;
  }

  /** An arrow comes from an edge that is stored at its end. */
  lemma ArrowEdge(nodes: seq<DagNode>, a: DagNode, b: DagNode) returns (e: DagEdge)
    requires CycleDetector.StoredAtEnds(nodes) && (a, b) in CycleDetector.ArrowsOf(nodes)
    ensures a in nodes && b in nodes && a != b && e in b.edges && e.from == a && e.to == b
  {
    var n, e' :| n in nodes && e' in n.edges && e'.from != e'.to && (e'.from, e'.to) == (a, b);
    e := e';
  }

  lemma StoredArrow(nodes: seq<DagNode>, a: DagNode, b: DagNode, e: DagEdge)
    requires DistinctIds(nodes) && a in nodes && b in nodes && a != b && e in b.edges && e.from == a && e.to == b
    ensures (a.id, b.id) in Arrows(WorkflowOfDag(nodes))
  {
    var i, j :| 0 <= i < |nodes| && nodes[i] == a && 0 <= j < |nodes| && nodes[j] == b;
    NodeAt(nodes, i);
    NodeAt(nodes, j);
    var l :| 0 <= l < |b.edges| && b.edges[l] == e;
    assert EdgesToDto(b.edges)[l] == EdgeToDto(e);
  }

  lemma ArrowToIds(nodes: seq<DagNode>, a: DagNode, b: DagNode)
    requires DistinctIds(nodes) && CycleDetector.StoredAtEnds(nodes) && (a, b) in CycleDetector.ArrowsOf(nodes)
    ensures (a.id, b.id) in Arrows(WorkflowOfDag(nodes))
  {
    var e := ArrowEdge(nodes, a, b);
    StoredArrow(nodes, a, b, e);
  }

  lemma EdgeJoins(nodes: seq<DagNode>, a: DagNode, b: DagNode, e: EdgeDto)
    requires DistinctIds(nodes) && CycleDetector.StoredAtEnds(nodes) && a in nodes && b in nodes && a != b
    requires e in EdgesToDto(b.edges) && e.fromId == a.id && e.toId == b.id
    ensures (a, b) in CycleDetector.ArrowsOf(nodes)
  {
    var l :| 0 <= l < |b.edges| && EdgesToDto(b.edges)[l] == e;
    var edge := b.edges[l];
    assert EdgeToDto(edge) == e && edge in b.edges;
    assert edge.from == a && edge.to == b;
  }

  lemma ArrowToNodes(nodes: seq<DagNode>, x: NodeId, y: NodeId)
    requires DistinctIds(nodes) && CycleDetector.StoredAtEnds(nodes) && (x, y) in Arrows(WorkflowOfDag(nodes))
    ensures nodes != [] && (NodeFor(nodes, x), NodeFor(nodes, y)) in CycleDetector.ArrowsOf(nodes)
  {
    var wf := WorkflowOfDag(nodes);
    KnownId(nodes, x);
    KnownId(nodes, y);
    var (a, b) := (NodeFor(nodes, x), NodeFor(nodes, y));
    var j :| 0 <= j < |nodes| && nodes[j] == b;
    NodeAt(nodes, j);
    var e :| e in wf.nodes[y].edges && e.toId == y && e.fromId == x && x != y;
    EdgeJoins(nodes, a, b, e);
  }

  lemma CycleToIds(nodes: seq<DagNode>, p: seq<DagNode>)
    requires DistinctIds(nodes) && CycleDetector.StoredAtEnds(nodes) && IsCycle(p, CycleDetector.ArrowsOf(nodes))
    ensures !Acyclic(WorkflowOfDag(nodes))
  {
    var arrows := Arrows(WorkflowOfDag(nodes));
    var q := seq(|p|, i requires 0 <= i < |p| => p[i].id);
    forall i | 0 <= i < |q| - 1 ensures (q[i], q[i + 1]) in arrows { ArrowToIds(nodes, p[i], p[i + 1]); }
    ArrowToIds(nodes, p[|p| - 1], p[0]);
    assert IsCycle(q, arrows);
  }

  ghost function NodesFor(nodes: seq<DagNode>, q: seq<NodeId>): (p: seq<DagNode>)
    requires nodes != []
    ensures |p| == |q| && forall i :: 0 <= i < |q| ==> p[i] == NodeFor(nodes, q[i])
  {
    seq(|q|, i requires 0 <= i < |q| => NodeFor(nodes, q[i]))
  }

  lemma PathToNodes(nodes: seq<DagNode>, q: seq<NodeId>)
    requires DistinctIds(nodes) && CycleDetector.StoredAtEnds(nodes) && nodes != []
    requires IsPath(q, Arrows(WorkflowOfDag(nodes)))
    ensures IsPath(NodesFor(nodes, q), CycleDetector.ArrowsOf(nodes))
  {
    var p := NodesFor(nodes, q);
    forall i | 0 <= i < |p| - 1 ensures (p[i], p[i + 1]) in CycleDetector.ArrowsOf(nodes) {
      ArrowToNodes(nodes, q[i], q[i + 1]);
    }
  }

  lemma CycleToNodes(nodes: seq<DagNode>, q: seq<NodeId>)
    requires DistinctIds(nodes) && CycleDetector.StoredAtEnds(nodes) && IsCycle(q, Arrows(WorkflowOfDag(nodes)))
    ensures exists p :: IsCycle(p, CycleDetector.ArrowsOf(nodes))
  {
    ArrowToNodes(nodes, q[|q| - 1], q[0]);
    PathToNodes(nodes, q);
    assert IsCycle(NodesFor(nodes, q), CycleDetector.ArrowsOf(nodes));
  }
}
