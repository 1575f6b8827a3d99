/** The in-memory DAG: node objects that share edges, as the parser and the storage layer
    build it. */
module DagEntities {
  import opened WorkflowTypes

  class DagNode {
    const id: NodeId
    const task: Task  // set once, when the node is created
    var edges: seq<DagEdge>
    var status: DagNodeStatus
    var retryCount: nat

    constructor (id: NodeId, task: Task)
      ensures this.id == id && this.task == task
      ensures edges == [] && status == Pending && retryCount == 0
    {
      this.id := id;
      this.task := task;
      edges, status, retryCount := [], Pending, 0;
    }
  }

  datatype DagEdge = DagEdge(from: DagNode, to: DagNode, conditionType: DependencyType, artifactId: Option<ArtifactId>)

  datatype Dag = Dag(id: string, nodes: seq<DagNode>, workflowDefinitionId: string)

  /** The edges that lead to the node itself. */
  function IncomingEdges(node: DagNode): seq<DagEdge>
    reads node
  {
    EdgesTo(node.edges, node.id)
  }

  function EdgesTo(edges: seq<DagEdge>, id: NodeId): (r: seq<DagEdge>)
    ensures forall e :: e in r ==> e in edges && e.to.id == id
    ensures forall e :: e in edges && e.to.id == id ==> e in r
  {
    if edges == [] then [] else (if edges[0].to.id == id then [edges[0]] else []) + EdgesTo(edges[1..], id)
  }

  /** Every edge joins two nodes of the DAG. */
  ghost predicate Linked(nodes: seq<DagNode>)
    reads nodes
  {
    forall n, e :: n in nodes && e in n.edges ==> e.from in nodes && e.to in nodes
  }

  ghost predicate DistinctIds(nodes: seq<DagNode>) {
    forall i, j :: 0 <= i < j < |nodes| ==> nodes[i].id != nodes[j].id
  }

  // ---------------------------------------------------------------- stored form

  function EdgeToDto(e: DagEdge): EdgeDto {
    EdgeDto(e.from.id, e.to.id, e.conditionType, e.artifactId)
  }

  function EdgesToDto(edges: seq<DagEdge>): (r: seq<EdgeDto>)
    ensures |r| == |edges| && forall i :: 0 <= i < |edges| ==> r[i] == EdgeToDto(edges[i])
  {
    seq(|edges|, i requires 0 <= i < |edges| => EdgeToDto(edges[i]))
  }

  function NodeToDto(n: DagNode): NodeDto
    reads n
  {
    NodeDto(n.id, EdgesToDto(n.edges), n.task, n.status, n.retryCount)
  }

  function NodesToDto(nodes: seq<DagNode>): (r: seq<NodeDto>)
    reads nodes
    ensures |r| == |nodes| && forall i :: 0 <= i < |nodes| ==> r[i] == NodeToDto(nodes[i])
  {
    seq(|nodes|, i requires 0 <= i < |nodes| reads nodes => NodeToDto(nodes[i]))
  }

  function ConvertDagToDto(dag: Dag): DagDto
    reads dag.nodes
  {
    DagDto(dag.id, NodesToDto(dag.nodes), dag.workflowDefinitionId)
  }
}
