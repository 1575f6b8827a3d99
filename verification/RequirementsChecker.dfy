/** Whether an edge's requirement is met, and which nodes of a loaded DAG are outstanding. */
module RequirementsChecker {
  import opened WorkflowTypes
  import opened DagEntities
  import opened SchedulerModel
  import opened WorkflowGraph
  import opened DagStorage

  datatype CheckError = UnknownEdgeType | MissingArtifactId

  function CheckRequirements(edge: DagEdge, published: seq<ArtifactId>): (r: Result<bool, CheckError>)
    reads edge.from
  {
    match edge.conditionType
    case TaskType => Ok(edge.from.status == Succeeded)
    case ArtifactType =>
      if edge.artifactId.None? || edge.artifactId.value == "" then Err(MissingArtifactId)
      else Ok(edge.artifactId.value in published)
    case OtherType => Err(UnknownEdgeType)
  }

  /** Checking the edge raises no error: exactly when it is a task edge, or an artifact edge
      with a non-empty artifact id. */
  predicate Checkable(e: EdgeDto) {
    match e.conditionType
    case TaskType => true
    case ArtifactType => e.artifactId.Some? && e.artifactId.value != ""
    case OtherType => false
  }

  /** Checking the incoming edges of the node raises no error. */
  ghost predicate NodeCheckable(n: NodeDto) {
    forall e :: e in n.edges && e.toId == n.id ==> Checkable(e)
  }

  /** Checking the incoming edges of the workflow's nodes raises no error. */
  ghost predicate EdgesCheckable(wf: Workflow) {
    forall n, e :: n in wf.nodes && e in wf.nodes[n].edges && e.toId == n ==> Checkable(e)
  }

  lemma NodesCheckable(nodes: seq<NodeDto>)
    requires DistinctDtoIds(nodes) && EdgesCheckable(WorkflowOf(nodes))
    ensures forall n :: n in nodes ==> NodeCheckable(n)
  {
    WorkflowOfDocument(nodes);
    forall n | n in nodes ensures NodeCheckable(n) {
      var i :| 0 <= i < |nodes| && nodes[i] == n;
      assert WorkflowOf(nodes).nodes[nodes[i].id] == Node(n.task, n.edges);
    }
  }

  // ---------------------------------------------------------------- documents as maps

  function StatusOf(n: NodeDto): DagNodeStatus {
    n.status
  }

  function RetriesOf(n: NodeDto): nat {
    n.retryCount
  }

  function StatusMap(nodes: seq<NodeDto>): map<NodeId, DagNodeStatus> {
    ById(nodes, StatusOf)
  }

  function RetryMap(nodes: seq<NodeDto>): map<NodeId, nat> {
    ById(nodes, RetriesOf)
  }

  /** A document that can be loaded. */
  ghost predicate ValidDocument(nodes: seq<NodeDto>) {
    DistinctDtoIds(nodes) && EdgesClosed(nodes)
  }

  /** The loaded DAG shows the given document, and its edges end in its own nodes. */
  ghost predicate Shows(dag: Dag, nodes: seq<NodeDto>)
    reads dag.nodes
  {
    DistinctIds(dag.nodes) && Linked(dag.nodes) && NodesToDto(dag.nodes) == nodes && ValidDocument(nodes)
  }

  lemma StatusThroughEdge(dag: Dag, nodes: seq<NodeDto>, n: DagNode)
    requires Shows(dag, nodes) && n in dag.nodes
    ensures n.id in StatusMap(nodes) && StatusMap(nodes)[n.id] == n.status
  {
    var k :| 0 <= k < |dag.nodes| && dag.nodes[k] == n;
    ByIdAt(nodes, StatusOf);
    assert nodes[k] == NodeToDto(n);
  }

  /** On a loaded edge the checker answers what the stored form of the edge requires; it raises an
      error exactly if that form cannot be checked. */
  lemma CheckAgrees(dag: Dag, nodes: seq<NodeDto>, node: DagNode, edge: DagEdge, published: seq<ArtifactId>)
    requires Shows(dag, nodes) && node in dag.nodes && edge in node.edges
    ensures var (r, e) := (CheckRequirements(edge, published), EdgeToDto(edge));
            && (r.Ok? <==> Checkable(e))
            && (r.Ok? ==> r.value == Satisfied(e, StatusMap(nodes), ToSet(published)))
            && (r.Err? ==> r.error == if e.conditionType == OtherType then UnknownEdgeType else MissingArtifactId)
  {
    assert edge.from in dag.nodes;
    StatusThroughEdge(dag, nodes, edge.from);
  }

  // ---------------------------------------------------------------- outstanding nodes

  /** Counts the met requirements of some edges of a node, up to the first that cannot be checked. */
  method CountMet(dag: Dag, ghost nodes: seq<NodeDto>, ghost node: DagNode, edges: seq<DagEdge>,
                  published: seq<ArtifactId>)
    returns (r: Result<nat, CheckError>)
    requires Shows(dag, nodes) && node in dag.nodes && forall e :: e in edges ==> e in node.edges
    ensures r.Ok? <==> forall j :: 0 <= j < |edges| ==> Checkable(EdgeToDto(edges[j]))
    ensures r.Ok? ==> r.value <= |edges|
    ensures r.Ok? ==> (r.value == |edges| <==>
              forall j :: 0 <= j < |edges| ==> Satisfied(EdgeToDto(edges[j]), StatusMap(nodes), ToSet(published)))
  {
    var metRequirements := 0;
    var i := 0;
    while i < |edges|
      invariant 0 <= i <= |edges| && metRequirements <= i
      invariant forall j :: 0 <= j < i ==> Checkable(EdgeToDto(edges[j]))
      invariant metRequirements == i <==>
                forall j :: 0 <= j < i ==> Satisfied(EdgeToDto(edges[j]), StatusMap(nodes), ToSet(published))
    {
      CheckAgrees(dag, nodes, node, edges[i], published);
      var met := CheckRequirements(edges[i], published);
      if met.Err? {
        return Err(met.error);
      }
      if met.value {
        metRequirements := metRequirements + 1;
      }
      i := i + 1;
    }
    return Ok(metRequirements);
  }

  /** Compares the number of met requirements with the number of incoming edges; an incoming edge
      that cannot be checked is an error. */
  method HasOpenDependencies(dag: Dag, ghost nodes: seq<NodeDto>, node: DagNode, published: seq<ArtifactId>)
    returns (open: Result<bool, CheckError>)
    requires Shows(dag, nodes) && node in dag.nodes
    ensures open.Ok? <==> NodeCheckable(NodeToDto(node))
    ensures open.Ok? ==>
              (open.value <==> !AllMet(node.id, EdgesToDto(node.edges), StatusMap(nodes), ToSet(published)))
  {
    var incoming := IncomingEdges(node);
    var metRequirements := CountMet(dag, nodes, node, incoming, published);
    AllIncomingMet(node, incoming, StatusMap(nodes), ToSet(published));
    IncomingCheckable(node, incoming);
    if metRequirements.Err? {
      return Err(metRequirements.error);
    }
    return Ok(metRequirements.value != |incoming|);
  }

  lemma IncomingCheckable(node: DagNode, incoming: seq<DagEdge>)
    requires incoming == IncomingEdges(node)
    ensures NodeCheckable(NodeToDto(node)) <==> forall j :: 0 <= j < |incoming| ==> Checkable(EdgeToDto(incoming[j]))
  {
    var edges := EdgesToDto(node.edges);
    if NodeCheckable(NodeToDto(node)) {
      forall j | 0 <= j < |incoming| ensures Checkable(EdgeToDto(incoming[j])) {
        assert incoming[j] in incoming;
        var l :| 0 <= l < |node.edges| && node.edges[l] == incoming[j];
        assert edges[l] in edges;
      }
    }
    if forall j :: 0 <= j < |incoming| ==> Checkable(EdgeToDto(incoming[j])) {
      forall e | e in edges && e.toId == node.id ensures Checkable(e) {
        var l :| 0 <= l < |edges| && edges[l] == e;
        assert node.edges[l] in node.edges && node.edges[l] in incoming;
      }
    }
  }

  lemma AllIncomingMet(node: DagNode, incoming: seq<DagEdge>, status: map<NodeId, DagNodeStatus>,
                       published: set<ArtifactId>)
    requires incoming == IncomingEdges(node)
    ensures AllMet(node.id, EdgesToDto(node.edges), status, published) <==>
            forall j :: 0 <= j < |incoming| ==> Satisfied(EdgeToDto(incoming[j]), status, published)
  {
    var edges := EdgesToDto(node.edges);
    if AllMet(node.id, edges, status, published) {
      forall j | 0 <= j < |incoming| ensures Satisfied(EdgeToDto(incoming[j]), status, published) {
        var e := incoming[j];
        assert e in incoming;
        var l :| 0 <= l < |node.edges| && node.edges[l] == e;
        assert edges[l] == EdgeToDto(e) && edges[l] in edges;
      }
    }
    if forall j :: 0 <= j < |incoming| ==> Satisfied(EdgeToDto(incoming[j]), status, published) {
      forall e | e in edges && e.toId == node.id ensures Satisfied(e, status, published) {
        var l :| 0 <= l < |edges| && edges[l] == e;
        assert node.edges[l] in node.edges && EdgeToDto(node.edges[l]) == e;
        assert node.edges[l] in incoming;
      }
    }
  }

  function NodeIds(nodes: seq<DagNode>): (r: seq<NodeId>)
    ensures |r| == |nodes| && forall i :: 0 <= i < |nodes| ==> r[i] == nodes[i].id
  {
    seq(|nodes|, i requires 0 <= i < |nodes| => nodes[i].id)
  }

  lemma {:induction false} SelectAppend<T(!new)>(s: seq<T>, x: T, keep: set<T>)
    ensures Select(s + [x], keep) == Select(s, keep) + (if x in keep then [x] else [])
  {
    if s != [] {
      assert (s + [x])[1..] == s[1..] + [x];
      SelectAppend(s[1..], x, keep);
    }
  }

  /** The outstanding nodes among the first `i` of the document. */
  ghost function OutstandingUpTo(nodes: seq<NodeDto>, published: seq<ArtifactId>, i: nat): seq<NodeId>
    requires DistinctDtoIds(nodes) && i <= |nodes|
  {
    Select(WorkflowOf(nodes).order[..i], ReadySet(WorkflowOf(nodes), StatusMap(nodes), ToSet(published)))
  }

  lemma OutstandingNext(dag: Dag, nodes: seq<NodeDto>, published: seq<ArtifactId>, i: nat)
    requires Shows(dag, nodes) && i < |dag.nodes|
    ensures var node := dag.nodes[i];
            OutstandingUpTo(nodes, published, i + 1) == OutstandingUpTo(nodes, published, i) +
              (if node.status == Pending && AllMet(node.id, EdgesToDto(node.edges), StatusMap(nodes), ToSet(published))
               then [node.id] else [])
  {
    var (wf, node) := (WorkflowOf(nodes), dag.nodes[i]);
    WorkflowOfDocument(nodes);
    assert nodes[i] == NodeToDto(node) && wf.order[i] == node.id;
    StatusThroughEdge(dag, nodes, node);
    SelectAppend(wf.order[..i], node.id, ReadySet(wf, StatusMap(nodes), ToSet(published)));
    assert wf.order[..i + 1] == wf.order[..i] + [node.id];
  }

  /** The Pending nodes of the loaded DAG without open dependencies, in order: the nodes that
      are outstanding in the document that the DAG shows.  It is an error if an incoming edge of
      a Pending node cannot be checked. */
  method GetOutstandingTasksOfDag(dag: Dag, ghost nodes: seq<NodeDto>, published: seq<ArtifactId>)
    returns (r: Result<seq<DagNode>, CheckError>)
    requires Shows(dag, nodes)
    ensures r.Ok? <==> forall n :: n in nodes && n.status == Pending ==> NodeCheckable(n)
    ensures r.Ok? ==> forall n :: n in r.value ==> n in dag.nodes
    ensures r.Ok? ==> NodeIds(r.value) == Outstanding(WorkflowOf(nodes), StatusMap(nodes), ToSet(published))
  {
    var outstanding := [];
    var i := 0;
    while i < |dag.nodes|
      invariant 0 <= i <= |dag.nodes|
      invariant forall n :: n in nodes[..i] && n.status == Pending ==> NodeCheckable(n)
      invariant forall n :: n in outstanding ==> n in dag.nodes
      invariant NodeIds(outstanding) == OutstandingUpTo(nodes, published, i)
    {
      OutstandingNext(dag, nodes, published, i);
      assert nodes[i] == NodeToDto(dag.nodes[i]) && nodes[..i + 1] == nodes[..i] + [nodes[i]];
      if dag.nodes[i].status == Pending {
        var open := HasOpenDependencies(dag, nodes, dag.nodes[i], published);
        if open.Err? {
          assert nodes[i] in nodes;
          return Err(open.error);
        }
        if !open.value {
          outstanding := outstanding + [dag.nodes[i]];
        }
      }
      i := i + 1;
    }
    assert WorkflowOf(nodes).order[..i] == WorkflowOf(nodes).order && nodes[..i] == nodes;
    return Ok(outstanding);
  }
}
