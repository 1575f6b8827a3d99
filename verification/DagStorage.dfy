/** Rebuilding the linked node objects from the stored document. */
module DagStorage {
  import opened WorkflowTypes
  import opened DagEntities
  import opened WorkflowGraph
  import opened CycleDetector

  /** Every stored edge joins two stored nodes. */
  ghost predicate EdgesClosed(nodes: seq<NodeDto>) {
    forall n, e :: n in nodes && e in n.edges ==> HasId(nodes, e.fromId) && HasId(nodes, e.toId)
  }

  predicate HasId(nodes: seq<NodeDto>, id: NodeId) {
    exists k :: 0 <= k < |nodes| && nodes[k].id == id
  }

  /** The copy of a task keeps every field. */
  function ConvertTask(task: Task): (r: Task)
    ensures r == task
  {
    Task(task.name,
         seq(|task.dependencies|, i requires 0 <= i < |task.dependencies| =>
           Dependency(task.dependencies[i].kind, task.dependencies[i].id)),
         task.parameters, task.results, task.priority,
         RetryPolicy(task.retryPolicy.maxRetryCount, task.retryPolicy.retryDelay, task.retryPolicy.exponentialBackoff),
         task.timeout, task.onError,
         seq(|task.completionCriteria|, i requires 0 <= i < |task.completionCriteria| =>
           CompletionCriteria(task.completionCriteria[i].kind, task.completionCriteria[i].id)))
  }

  /** The node object has the fields of the document and the first `k` of its edges. */
  ghost predicate Rebuilt(n: DagNode, d: NodeDto, k: nat)
    reads n
  {
    && n.id == d.id && n.task == d.task && n.status == d.status && n.retryCount == d.retryCount
    && k <= |d.edges| && EdgesToDto(n.edges) == d.edges[..k]
  }

  /** The edges of a node end in the given node objects. */
  ghost predicate EndsIn(n: DagNode, nodes: seq<DagNode>)
    reads n
  {
    forall e :: e in n.edges ==> e.from in nodes && e.to in nodes
  }

  method RebuildNodes(dtos: seq<NodeDto>) returns (nodes: seq<DagNode>)
    ensures |nodes| == |dtos|
    ensures forall k :: 0 <= k < |nodes| ==> fresh(nodes[k]) && Rebuilt(nodes[k], dtos[k], 0) && nodes[k].edges == []
  {
    nodes := [];
    var i := 0;
    while i < |dtos|
      invariant 0 <= i <= |dtos| && |nodes| == i
      invariant forall k :: 0 <= k < i ==> fresh(nodes[k]) && Rebuilt(nodes[k], dtos[k], 0) && nodes[k].edges == []
    {
      var node := new DagNode(dtos[i].id, ConvertTask(dtos[i].task));
      node.status := dtos[i].status;
      node.retryCount := dtos[i].retryCount;
      nodes := nodes + [node];
      i := i + 1;
    }
  }

  ghost predicate MapsIds(m: map<NodeId, DagNode>, nodes: seq<DagNode>) {
    && (forall k :: 0 <= k < |nodes| ==> nodes[k].id in m && m[nodes[k].id] == nodes[k])
    && (forall id :: id in m ==> m[id] in nodes)
  }

  method NodeMap(nodes: seq<DagNode>) returns (m: map<NodeId, DagNode>)
    requires DistinctIds(nodes)
    ensures MapsIds(m, nodes)
  {
    m := map[];
    var i := 0;
    while i < |nodes|
      invariant 0 <= i <= |nodes|
      invariant forall k :: 0 <= k < i ==> nodes[k].id in m && m[nodes[k].id] == nodes[k]
      invariant forall id :: id in m ==> m[id] in nodes
    {
      m := m[nodes[i].id := nodes[i]];
      i := i + 1;
    }
  }

  lemma MappedId(m: map<NodeId, DagNode>, nodes: seq<DagNode>, dtos: seq<NodeDto>, id: NodeId)
    requires MapsIds(m, nodes) && |nodes| == |dtos| && HasId(dtos, id)
    requires forall k :: 0 <= k < |nodes| ==> nodes[k].id == dtos[k].id
    ensures id in m && m[id] in nodes && m[id].id == id
  {
    var k :| 0 <= k < |dtos| && dtos[k].id == id;
    assert nodes[k].id == id;
  }

  /** Rebuild the edges of one node. */
  method RebuildEdges(node: DagNode, d: NodeDto, m: map<NodeId, DagNode>, ghost nodes: seq<DagNode>,
                      ghost dtos: seq<NodeDto>)
    requires Rebuilt(node, d, 0) && EndsIn(node, nodes)
    requires d in dtos && EdgesClosed(dtos) && MapsIds(m, nodes) && |nodes| == |dtos|
    requires forall k :: 0 <= k < |nodes| ==> nodes[k].id == dtos[k].id
    modifies node`edges
    ensures Rebuilt(node, d, |d.edges|) && EndsIn(node, nodes)
  {
    var i := 0;
    while i < |d.edges|
      invariant 0 <= i <= |d.edges|
      invariant Rebuilt(node, d, i) && EndsIn(node, nodes)
    {
      var edgeDto := d.edges[i];
      MappedId(m, nodes, dtos, edgeDto.fromId);
      MappedId(m, nodes, dtos, edgeDto.toId);
      var edge := DagEdge(m[edgeDto.fromId], m[edgeDto.toId], edgeDto.conditionType, edgeDto.artifactId);
      assert EdgesToDto(node.edges + [edge]) == EdgesToDto(node.edges) + [edgeDto];
      assert d.edges[..i + 1] == d.edges[..i] + [edgeDto];
      node.edges := node.edges + [edge];
      i := i + 1;
    }
  }

  /** The rebuilt DAG has exactly the stored form that it was built from, and its edges end
      in the very node objects of the DAG. */
  method ConvertDtoToDag(dto: DagDto) returns (dag: Dag)
    requires DistinctDtoIds(dto.nodes) && EdgesClosed(dto.nodes)
    ensures forall k :: 0 <= k < |dag.nodes| ==> fresh(dag.nodes[k])
    ensures ConvertDagToDto(dag) == dto
    ensures DistinctIds(dag.nodes) && Linked(dag.nodes)
  {
    var nodes := RebuildNodes(dto.nodes);
    var m := NodeMap(nodes);
    var i := 0;
    while i < |nodes|
      invariant 0 <= i <= |nodes| == |dto.nodes|
      invariant forall k :: 0 <= k < |nodes| ==> fresh(nodes[k])
      invariant forall k :: 0 <= k < |nodes| ==> EndsIn(nodes[k], nodes)
      invariant forall k :: 0 <= k < |nodes| ==>
                  Rebuilt(nodes[k], dto.nodes[k], if k < i then |dto.nodes[k].edges| else 0)
    {
      assert Rebuilt(nodes[i], dto.nodes[i], 0);
      assert forall k :: 0 <= k < |nodes| && k != i ==> nodes[k].id != nodes[i].id;
      RebuildEdges(nodes[i], dto.nodes[i], m, nodes, dto.nodes);
      i := i + 1;
    }
    forall k | 0 <= k < |nodes| ensures NodeToDto(nodes[k]) == dto.nodes[k] {
      assert Rebuilt(nodes[k], dto.nodes[k], |dto.nodes[k].edges|);
      assert dto.nodes[k].edges[..|dto.nodes[k].edges|] == dto.nodes[k].edges;
    }
    dag := Dag(dto.id, nodes, dto.workflowDefinitionId);
    assert NodesToDto(nodes) == dto.nodes;
  }

  /** Storing and loading a linked DAG keeps every stored field, and a status change of a
      loaded node is seen through every edge of the loaded DAG with that end. */
  method StoreAndLoad(dag: Dag) returns (loaded: Dag)
    requires DistinctIds(dag.nodes) && Linked(dag.nodes)
    ensures ConvertDagToDto(loaded) == ConvertDagToDto(dag)
    ensures forall n, e, k :: n in loaded.nodes && e in n.edges && 0 <= k < |loaded.nodes| ==>
              && (e.from.id == loaded.nodes[k].id ==> e.from == loaded.nodes[k])
              && (e.to.id == loaded.nodes[k].id ==> e.to == loaded.nodes[k])
  {
    LinkedIsClosed(dag.nodes);
    loaded := ConvertDtoToDag(ConvertDagToDto(dag));
    EndsAreNodes(loaded.nodes);
  }

  lemma EndsAreNodes(nodes: seq<DagNode>)
    requires DistinctIds(nodes) && Linked(nodes)
    ensures forall n, e, k :: n in nodes && e in n.edges && 0 <= k < |nodes| ==>
              (e.from.id == nodes[k].id ==> e.from == nodes[k]) && (e.to.id == nodes[k].id ==> e.to == nodes[k])
  {}

  lemma LinkedIsClosed(nodes: seq<DagNode>)
    requires DistinctIds(nodes) && Linked(nodes)
    ensures DistinctDtoIds(NodesToDto(nodes)) && EdgesClosed(NodesToDto(nodes))
  {
    var dtos := NodesToDto(nodes);
    forall d, e | d in dtos && e in d.edges ensures HasId(dtos, e.fromId) && HasId(dtos, e.toId) {
      var i :| 0 <= i < |dtos| && dtos[i] == d;
      var j :| 0 <= j < |d.edges| && d.edges[j] == e;
      var edge := nodes[i].edges[j];
      assert dtos[i] == NodeToDto(nodes[i]) && EdgeToDto(edge) == e && edge in nodes[i].edges && nodes[i] in nodes;
      NodeHasId(nodes, edge.from);
      NodeHasId(nodes, edge.to);
    }
  }

  lemma NodeHasId(nodes: seq<DagNode>, n: DagNode)
    requires n in nodes
    ensures HasId(NodesToDto(nodes), n.id)
  {
    var k :| 0 <= k < |nodes| && nodes[k] == n;
    assert NodesToDto(nodes)[k] == NodeToDto(n);
  }
}
