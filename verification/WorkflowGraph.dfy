/** The dependency graph of a stored workflow. */
module WorkflowGraph {
  import opened WorkflowTypes
  import opened SchedulerModel
  import opened Graphs

  /** What the parser establishes for every node's incoming edges: the source exists, and
      the source of an artifact edge produces the artifact. */
  ghost predicate EdgesResolved(wf: Workflow) {
    forall n, e :: n in wf.nodes && e in wf.nodes[n].edges && e.toId == n ==>
      && e.fromId in wf.nodes
      && e.conditionType in {TaskType, ArtifactType}
      && (e.conditionType == ArtifactType ==>
            e.artifactId.Some? && e.artifactId.value in wf.nodes[e.fromId].task.results)
  }

  ghost predicate NoSelfDependency(wf: Workflow) {
    forall n, e :: n in wf.nodes && e in wf.nodes[n].edges && e.toId == n ==> e.fromId != n
  }

  /** The dependencies between different nodes, as arrows from source to dependent. */
  ghost function Arrows(wf: Workflow): set<(NodeId, NodeId)> {
    set n, e | n in wf.nodes && e in wf.nodes[n].edges && e.toId == n && e.fromId != n && e.fromId in wf.nodes ::
      (e.fromId, n)
  }

  ghost predicate Acyclic(wf: Workflow) {
    forall p :: !IsCycle(p, Arrows(wf))
  }

  /** No two tasks produce the same artifact. */
  ghost predicate UniqueProducers(wf: Workflow) {
    forall m, n, a ::
      m in wf.nodes && n in wf.nodes && a in wf.nodes[m].task.results && a in wf.nodes[n].task.results ==> m == n
  }

  // ---------------------------------------------------------------- from the stored document

  ghost predicate DistinctDtoIds(nodes: seq<NodeDto>) {
    forall i, j :: 0 <= i < j < |nodes| ==> nodes[i].id != nodes[j].id
  }

  /** The value of each node under its id; the last node of an id wins. */
  function ById<V>(nodes: seq<NodeDto>, value: NodeDto -> V): map<NodeId, V> {
    if nodes == [] then map[]
    else var last := nodes[|nodes| - 1]; ById(nodes[..|nodes| - 1], value)[last.id := value(last)]
  }

  lemma {:induction false} ByIdKeys<V>(nodes: seq<NodeDto>, value: NodeDto -> V)
    ensures forall n :: n in ById(nodes, value) ==> exists i :: 0 <= i < |nodes| && nodes[i].id == n
  {
    if nodes != [] {
      var prefix := nodes[..|nodes| - 1];
      ByIdKeys(prefix, value);
      forall n | n in ById(nodes, value) ensures exists i :: 0 <= i < |nodes| && nodes[i].id == n {
        if n in ById(prefix, value) {
          var i :| 0 <= i < |prefix| && prefix[i].id == n;
          assert nodes[i].id == n;
        }
      }
    }
  }

  lemma {:induction false} ByIdAt<V>(nodes: seq<NodeDto>, value: NodeDto -> V)
    requires DistinctDtoIds(nodes)
    ensures forall i :: 0 <= i < |nodes| ==>
              nodes[i].id in ById(nodes, value) && ById(nodes, value)[nodes[i].id] == value(nodes[i])
  {
    if nodes != [] {
      var prefix := nodes[..|nodes| - 1];
      ByIdAt(prefix, value);
      assert forall i :: 0 <= i < |prefix| ==> prefix[i] == nodes[i];
    }
  }

  /** Changing a node changes its value alone. */
  lemma {:induction false} ByIdUpdate<V>(nodes: seq<NodeDto>, k: nat, node: NodeDto, value: NodeDto -> V)
    requires DistinctDtoIds(nodes) && k < |nodes| && node.id == nodes[k].id
    ensures ById(nodes[k := node], value) == ById(nodes, value)[node.id := value(node)]
  {
    var last := |nodes| - 1;
    var updated := nodes[k := node];
    if k == last {
      assert updated[..last] == nodes[..last];
    } else {
      assert updated[..last] == nodes[..last][k := node];
      assert nodes[k].id != nodes[last].id;
      ByIdUpdate(nodes[..last], k, node, value);
    }
  }

  function Fixed(n: NodeDto): Node {
    Node(n.task, n.edges)
  }

  /** The fixed part of a stored document. */
  function WorkflowOf(nodes: seq<NodeDto>): Workflow {
    Workflow(seq(|nodes|, i requires 0 <= i < |nodes| => nodes[i].id), ById(nodes, Fixed))
  }

  /** The workflow of a document lists its ids once each. */
  lemma WorkflowOfDocument(nodes: seq<NodeDto>)
    requires DistinctDtoIds(nodes)
    ensures var wf := WorkflowOf(nodes);
            && Distinct(wf.order) && ToSet(wf.order) == wf.nodes.Keys
            && forall i :: 0 <= i < |nodes| ==>
                 nodes[i].id in wf.nodes && wf.nodes[nodes[i].id] == Node(nodes[i].task, nodes[i].edges)
  {
    var wf := WorkflowOf(nodes);
    ByIdKeys(nodes, Fixed);
    ByIdAt(nodes, Fixed);
    forall n | n in wf.nodes ensures n in wf.order {
      var i :| 0 <= i < |nodes| && nodes[i].id == n;
      assert wf.order[i] == n;
    }
  }
}
