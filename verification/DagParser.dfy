/** From a workflow definition to a DAG of linked node objects. */
module DagParser {
  import opened WorkflowTypes
  import opened DagEntities
  import opened Graphs
  import opened CycleDetector
  import opened DagGraph
  import opened SchedulerModel
  import opened WorkflowGraph

  datatype DagError =
    | CreationError(taskName: string, dependency: Dependency)
    | CycleError(description: string)

  // ---------------------------------------------------------------- node ids

  function IdOf(def: WorkflowDefinition, i: nat): NodeId {
    "w-" + def.name + "-t-" + Decimal(i)
  }

  lemma IdInjective(def: WorkflowDefinition, i: nat, j: nat)
    requires IdOf(def, i) == IdOf(def, j)
    ensures i == j
  {
    var prefix := "w-" + def.name + "-t-";
    assert IdOf(def, i)[|prefix|..] == Decimal(i) && IdOf(def, j)[|prefix|..] == Decimal(j);
    DecimalInjective(i, j);
  }

  // ---------------------------------------------------------------- resolving dependencies

  /** Task `k` has the name, and no later task has it. */
  ghost predicate LastNamed(tasks: seq<Task>, name: string, k: nat) {
    k < |tasks| && tasks[k].name == name && forall j :: k < j < |tasks| ==> tasks[j].name != name
  }

  /** Task `k` produces the artifact, and no later task does. */
  ghost predicate LastProducing(tasks: seq<Task>, a: ArtifactId, k: nat) {
    k < |tasks| && a in tasks[k].results && forall j :: k < j < |tasks| ==> a !in tasks[j].results
  }

  /** The last task of that name. */
  function TaskIndex(tasks: seq<Task>, name: string): (r: Option<nat>)
    ensures r.Some? ==> LastNamed(tasks, name, r.value)
    ensures r.None? ==> forall k :: 0 <= k < |tasks| ==> tasks[k].name != name
  {
    if tasks == [] then None
    else if tasks[|tasks| - 1].name == name then Some(|tasks| - 1)
    else TaskIndex(tasks[..|tasks| - 1], name)
  }

  /** The last task that produces the artifact. */
  function ArtifactIndex(tasks: seq<Task>, a: ArtifactId): (r: Option<nat>)
    ensures r.Some? ==> LastProducing(tasks, a, r.value)
    ensures r.None? ==> forall k :: 0 <= k < |tasks| ==> a !in tasks[k].results
  {
    if tasks == [] then None
    else if a in tasks[|tasks| - 1].results then Some(|tasks| - 1)
    else ArtifactIndex(tasks[..|tasks| - 1], a)
  }

  function Source(tasks: seq<Task>, d: Dependency): (r: Option<nat>)
    ensures r.Some? ==> r.value < |tasks|
  {
    match d.kind
    case TaskType => TaskIndex(tasks, d.id)
    case ArtifactType => ArtifactIndex(tasks, d.id)
    case OtherType => None
  }

  /** A task dependency comes from the last task of that name, if there is one. */
  lemma SourceOfName(tasks: seq<Task>, name: string)
    ensures var source := Source(tasks, Dependency(TaskType, name));
            && (forall k: nat :: source == Some(k) <==>
                  k < |tasks| && tasks[k].name == name && forall j :: k < j < |tasks| ==> tasks[j].name != name)
            && (source == None <==> forall k :: 0 <= k < |tasks| ==> tasks[k].name != name)
  {
    forall k: nat | LastNamed(tasks, name, k) ensures Source(tasks, Dependency(TaskType, name)) == Some(k) {
      var l := TaskIndex(tasks, name).value;
      assert LastNamed(tasks, name, l);
    }
  }

  /** An artifact dependency comes from the last task that produces it, if there is one. */
  lemma SourceOfArtifact(tasks: seq<Task>, a: ArtifactId)
    ensures var source := Source(tasks, Dependency(ArtifactType, a));
            && (forall k: nat :: source == Some(k) <==>
                  k < |tasks| && a in tasks[k].results && forall j :: k < j < |tasks| ==> a !in tasks[j].results)
            && (source == None <==> forall k :: 0 <= k < |tasks| ==> a !in tasks[k].results)
  {
    forall k: nat | LastProducing(tasks, a, k) ensures Source(tasks, Dependency(ArtifactType, a)) == Some(k) {
      var l := ArtifactIndex(tasks, a).value;
      assert LastProducing(tasks, a, l);
    }
  }

  /** A dependency of any other kind has no source. */
  lemma NoOtherSource(tasks: seq<Task>, d: Dependency)
    requires d.kind != TaskType && d.kind != ArtifactType
    ensures Source(tasks, d) == None
  {}

  /** Dependency `j` of task `i` has a source. */
  predicate Resolved(tasks: seq<Task>, i: nat, j: nat)
    requires i < |tasks| && j < |tasks[i].dependencies|
  {
    Source(tasks, tasks[i].dependencies[j]).Some?
  }

  predicate ResolvedUpTo(tasks: seq<Task>, i: nat, j: nat)
    requires i < |tasks| && j <= |tasks[i].dependencies|
  {
    forall l :: 0 <= l < j ==> Resolved(tasks, i, l)
  }

  predicate AllResolvedUpTo(tasks: seq<Task>, i: nat)
    requires i <= |tasks|
  {
    forall k :: 0 <= k < i ==> ResolvedUpTo(tasks, k, |tasks[k].dependencies|)
  }

  predicate AllResolved(tasks: seq<Task>) {
    AllResolvedUpTo(tasks, |tasks|)
  }

  /** Dependency `j` of task `i` is the first that cannot be resolved. */
  ghost predicate FirstUnresolved(tasks: seq<Task>, i: nat, j: nat) {
    && i < |tasks| && j < |tasks[i].dependencies|
    && !Resolved(tasks, i, j) && ResolvedUpTo(tasks, i, j) && AllResolvedUpTo(tasks, i)
  }

  // ---------------------------------------------------------------- edges

  function EdgeFor(def: WorkflowDefinition, i: nat, d: Dependency): seq<EdgeDto> {
    var source := Source(def.tasks, d);
    if source.None? then []
    else [EdgeDto(IdOf(def, source.value), IdOf(def, i), d.kind, if d.kind == ArtifactType then Some(d.id) else None)]
  }

  /** The edges of the first `j` dependencies of task `i`. */
  function DependencyEdges(def: WorkflowDefinition, i: nat, j: nat): seq<EdgeDto>
    requires i < |def.tasks| && j <= |def.tasks[i].dependencies|
  {
    if j == 0 then [] else DependencyEdges(def, i, j - 1) + EdgeFor(def, i, def.tasks[i].dependencies[j - 1])
  }

  /** The edges of all dependencies of the first `i` tasks, in order. */
  function AllEdges(def: WorkflowDefinition, i: nat): seq<EdgeDto>
    requires i <= |def.tasks|
  {
    if i == 0 then [] else AllEdges(def, i - 1) + DependencyEdges(def, i - 1, |def.tasks[i - 1].dependencies|)
  }

  /** The edges stored in a node: once as their source and once as their target. */
  function Incident(all: seq<EdgeDto>, id: NodeId): seq<EdgeDto> {
    if all == [] then []
    else
      var e := all[|all| - 1];
      Incident(all[..|all| - 1], id) + (if e.fromId == id then [e] else []) + (if e.toId == id then [e] else [])
  }

  /** The stored form of the DAG of a definition. */
  function ParsedNodes(def: WorkflowDefinition): (r: seq<NodeDto>)
    ensures |r| == |def.tasks|
  {
    var all := AllEdges(def, |def.tasks|);
    seq(|def.tasks|, k requires 0 <= k < |def.tasks| =>
      NodeDto(IdOf(def, k), Incident(all, IdOf(def, k)), def.tasks[k], Pending, 0))
  }

  // ---------------------------------------------------------------- the parser

  /** The node objects hold the given edges, once at each end. */
  ghost predicate Holds(nodes: seq<DagNode>, def: WorkflowDefinition, all: seq<EdgeDto>)
    reads nodes
  {
    && |nodes| == |def.tasks|
    && forall k :: 0 <= k < |nodes| ==>
         NodeToDto(nodes[k]) == NodeDto(IdOf(def, k), Incident(all, IdOf(def, k)), def.tasks[k], Pending, 0)
  }

  method CreateNodes(def: WorkflowDefinition) returns (nodes: seq<DagNode>)
    ensures Holds(nodes, def, []) && DistinctIds(nodes) && StoredAtEnds(nodes)
    ensures forall k :: 0 <= k < |nodes| ==> fresh(nodes[k])
  {
    nodes := [];
    var i := 0;
    while i < |def.tasks|
      invariant 0 <= i <= |def.tasks| && |nodes| == i
      invariant forall k :: 0 <= k < i ==>
                  fresh(nodes[k]) && NodeToDto(nodes[k]) == NodeDto(IdOf(def, k), [], def.tasks[k], Pending, 0)
    {
      var node := new DagNode(IdOf(def, i), def.tasks[i]);
      nodes := nodes + [node];
      i := i + 1;
    }
    forall i, j | 0 <= i < j < |nodes| ensures nodes[i].id != nodes[j].id {
      assert NodeToDto(nodes[i]).id == IdOf(def, i) && NodeToDto(nodes[j]).id == IdOf(def, j);
      if IdOf(def, i) == IdOf(def, j) { IdInjective(def, i, j); }
    }
    forall n | n in nodes ensures n.edges == [] {
      assert |NodeToDto(n).edges| == |n.edges|;
    }
  }

  lemma EdgesAppend(edges: seq<DagEdge>, e: DagEdge)
    ensures EdgesToDto(edges + [e]) == EdgesToDto(edges) + [EdgeToDto(e)]
  {}

  lemma IncidentAppend(all: seq<EdgeDto>, e: EdgeDto, id: NodeId)
    ensures Incident(all + [e], id) ==
              Incident(all, id) + (if e.fromId == id then [e] else []) + (if e.toId == id then [e] else [])
  {
    assert (all + [e])[..|all|] == all;
  }

  function PushedAt(n: DagNode, edge: DagEdge): seq<DagEdge> {
    (if n == edge.from then [edge] else []) + (if n == edge.to then [edge] else [])
  }

  /** Store an edge at its source and at its target. */
  method AddEdge(origin: DagNode, node: DagNode, edge: DagEdge)
    requires edge.from == origin && edge.to == node
    modifies origin`edges, node`edges
    ensures origin.edges == old(origin.edges) + PushedAt(origin, edge)
    ensures node.edges == old(node.edges) + PushedAt(node, edge)
  {
    origin.edges := origin.edges + [edge];
    node.edges := node.edges + [edge];
  }

  lemma SameId(nodes: seq<DagNode>, a: DagNode, b: DagNode)
    requires DistinctIds(nodes) && a in nodes && b in nodes
    ensures a.id == b.id <==> a == b
  {}

  /** The stored form of a node's edges before and after an edge is pushed. */
  lemma PushedDto(nodes: seq<DagNode>, before: seq<DagEdge>, n: DagNode, edge: DagEdge, all: seq<EdgeDto>)
    requires DistinctIds(nodes) && n in nodes && edge.from in nodes && edge.to in nodes
    requires EdgesToDto(before) == Incident(all, n.id)
    ensures EdgesToDto(before + PushedAt(n, edge)) == Incident(all + [EdgeToDto(edge)], n.id)
  {
    IncidentAppend(all, EdgeToDto(edge), n.id);
    EdgesAppend(before, edge);
    EdgesAppend(before + [edge], edge);
    SameId(nodes, n, edge.from);
    SameId(nodes, n, edge.to);
    assert before + [] == before;
    assert before + PushedAt(n, edge) ==
             before + (if n == edge.from then [edge] else []) + (if n == edge.to then [edge] else []);
  }

  /** Store an edge at both ends. */
  method StoreEdge(nodes: seq<DagNode>, def: WorkflowDefinition, edge: DagEdge, ghost all: seq<EdgeDto>)
    requires DistinctIds(nodes) && StoredAtEnds(nodes) && Holds(nodes, def, all)
    requires edge.from in nodes && edge.to in nodes
    modifies nodes
    ensures Holds(nodes, def, all + [EdgeToDto(edge)]) && StoredAtEnds(nodes)
  {
    AddEdge(edge.from, edge.to, edge);
    assert forall n :: n in nodes ==> n.edges == old(n.edges) + PushedAt(n, edge);
    forall k | 0 <= k < |nodes|
      ensures NodeToDto(nodes[k]) ==
                NodeDto(IdOf(def, k), Incident(all + [EdgeToDto(edge)], IdOf(def, k)), def.tasks[k], Pending, 0)
    {
      assert old(NodeToDto(nodes[k])) == NodeDto(IdOf(def, k), Incident(all, IdOf(def, k)), def.tasks[k], Pending, 0);
      PushedDto(nodes, old(nodes[k].edges), nodes[k], edge, all);
    }
    forall n, e | n in nodes && e in n.edges
      ensures e.from in nodes && e.to in nodes && (e.from == n || e.to == n) && e in e.from.edges && e in e.to.edges
    {
      if e == edge {
        assert edge in PushedAt(edge.from, edge) && edge in PushedAt(edge.to, edge);
        assert e in old(n.edges) || e in PushedAt(n, edge);
      } else {
        assert e in old(n.edges);
      }
    }
  }

  // ---------------------------------------------------------------- name maps

  /** The map leads from each task name to the node of the last task of that name. */
  ghost predicate MapsTasks(m: map<string, DagNode>, nodes: seq<DagNode>, tasks: seq<Task>) {
    && |tasks| <= |nodes|
    && (forall name, k: nat {:trigger LastNamed(tasks, name, k)} ::
          LastNamed(tasks, name, k) ==> name in m && m[name] == nodes[k])
    && (forall name :: name in m ==> exists k: nat :: LastNamed(tasks, name, k))
  }

  /** The map leads from each artifact to the node of the last task that produces it. */
  ghost predicate MapsArtifacts(m: map<ArtifactId, DagNode>, nodes: seq<DagNode>, tasks: seq<Task>) {
    && |tasks| <= |nodes|
    && (forall a, k: nat {:trigger LastProducing(tasks, a, k)} ::
          LastProducing(tasks, a, k) ==> a in m && m[a] == nodes[k])
    && (forall a :: a in m ==> exists k: nat :: LastProducing(tasks, a, k))
  }

  lemma NextNamed(tasks: seq<Task>, i: nat, next: nat, name: string, k: nat)
    requires i < |tasks| && next == i + 1
    ensures LastNamed(tasks[..next], name, k) <==>
            (k == i && tasks[i].name == name) || (tasks[i].name != name && LastNamed(tasks[..i], name, k))
  {}

  lemma NextProducing(tasks: seq<Task>, i: nat, next: nat, a: ArtifactId, k: nat)
    requires i < |tasks| && next == i + 1
    ensures LastProducing(tasks[..next], a, k) <==>
            (k == i && a in tasks[i].results) || (a !in tasks[i].results && LastProducing(tasks[..i], a, k))
  {}

  /** Setting the name of the next task. */
  lemma SetsTask(m: map<string, DagNode>, nodes: seq<DagNode>, tasks: seq<Task>, i: nat, next: nat)
    requires i < |tasks| <= |nodes| && next == i + 1 && MapsTasks(m, nodes, tasks[..i])
    ensures MapsTasks(m[tasks[i].name := nodes[i]], nodes, tasks[..next])
  {
    var updated := m[tasks[i].name := nodes[i]];
    forall name, k: nat | LastNamed(tasks[..next], name, k) ensures name in updated && updated[name] == nodes[k] {
      NextNamed(tasks, i, next, name, k);
    }
    forall name | name in updated ensures exists k: nat :: LastNamed(tasks[..next], name, k) {
      if name == tasks[i].name {
        NextNamed(tasks, i, next, name, i);
      } else {
        var k: nat :| LastNamed(tasks[..i], name, k);
        NextNamed(tasks, i, next, name, k);
      }
    }
  }

  /** Setting the results of the next task. */
  lemma SetsArtifacts(m: map<ArtifactId, DagNode>, updated: map<ArtifactId, DagNode>, nodes: seq<DagNode>,
                      tasks: seq<Task>, i: nat, next: nat)
    requires i < |tasks| <= |nodes| && next == i + 1 && MapsArtifacts(m, nodes, tasks[..i])
    requires updated.Keys == m.Keys + ToSet(tasks[i].results)
    requires forall a :: a in updated ==> updated[a] == if a in tasks[i].results then nodes[i] else m[a]
    ensures MapsArtifacts(updated, nodes, tasks[..next])
  {
    forall a, k: nat | LastProducing(tasks[..next], a, k) ensures a in updated && updated[a] == nodes[k] {
      NextProducing(tasks, i, next, a, k);
    }
    forall a | a in updated ensures exists k: nat :: LastProducing(tasks[..next], a, k) {
      if a in tasks[i].results {
        NextProducing(tasks, i, next, a, i);
      } else {
        var k: nat :| LastProducing(tasks[..i], a, k);
        NextProducing(tasks, i, next, a, k);
      }
    }
  }

  method TaskMap(nodes: seq<DagNode>, def: WorkflowDefinition) returns (m: map<string, DagNode>)
    requires Holds(nodes, def, [])
    ensures MapsTasks(m, nodes, def.tasks)
  {
    m := map[];
    var i := 0;
    while i < |nodes|
      invariant 0 <= i <= |nodes|
      invariant MapsTasks(m, nodes, def.tasks[..i])
    {
      var next := i + 1;
      assert NodeToDto(nodes[i]).task == def.tasks[i];
      SetsTask(m, nodes, def.tasks, i, next);
      m := m[nodes[i].task.name := nodes[i]];
      i := next;
    }
    assert def.tasks[..i] == def.tasks;
  }

  method ArtifactMap(nodes: seq<DagNode>, def: WorkflowDefinition) returns (m: map<ArtifactId, DagNode>)
    requires Holds(nodes, def, [])
    ensures MapsArtifacts(m, nodes, def.tasks)
  {
    m := map[];
    var i := 0;
    while i < |nodes|
      invariant 0 <= i <= |nodes|
      invariant MapsArtifacts(m, nodes, def.tasks[..i])
    {
      var next := i + 1;
      assert NodeToDto(nodes[i]).task == def.tasks[i];
      var updated := AddResults(m, nodes[i].task.results, nodes[i]);
      SetsArtifacts(m, updated, nodes, def.tasks, i, next);
      m := updated;
      i := next;
    }
    assert def.tasks[..i] == def.tasks;
  }

  method AddResults(m0: map<ArtifactId, DagNode>, results: seq<ArtifactId>, node: DagNode)
    returns (m: map<ArtifactId, DagNode>)
    ensures m.Keys == m0.Keys + ToSet(results)
    ensures forall a :: a in m ==> m[a] == if a in results then node else m0[a]
  {
    m := m0;
    var j := 0;
    while j < |results|
      invariant 0 <= j <= |results|
      invariant m.Keys == m0.Keys + ToSet(results[..j])
      invariant forall a :: a in m ==> m[a] == if a in results[..j] then node else m0[a]
    {
      assert results[..j + 1] == results[..j] + [results[j]];
      m := m[results[j] := node];
      j := j + 1;
    }
    assert results[..j] == results;
  }

  // ---------------------------------------------------------------- parsing

  /** The source node of a dependency, from the two maps. */
  method FindSource(nodes: seq<DagNode>, def: WorkflowDefinition, d: Dependency,
                    taskMap: map<string, DagNode>, artifactMap: map<ArtifactId, DagNode>)
    returns (origin: Option<DagNode>)
    requires |nodes| == |def.tasks| && MapsTasks(taskMap, nodes, def.tasks)
             && MapsArtifacts(artifactMap, nodes, def.tasks)
    ensures origin.Some? <==> Source(def.tasks, d).Some?
    ensures origin.Some? ==> origin.value == nodes[Source(def.tasks, d).value]
  {
    match d.kind
    case TaskType =>
      return if d.id in taskMap then Some(taskMap[d.id]) else None;
    case ArtifactType =>
      return if d.id in artifactMap then Some(artifactMap[d.id]) else None;
    case OtherType =>
      return None;
  }

  /** Store the edge of dependency `j` of task `i`, if its source can be found. */
  method LinkDependency(nodes: seq<DagNode>, def: WorkflowDefinition, i: nat, j: nat,
                        taskMap: map<string, DagNode>, artifactMap: map<ArtifactId, DagNode>) returns (linked: bool)
    requires i < |def.tasks| && j < |def.tasks[i].dependencies| && DistinctIds(nodes) && StoredAtEnds(nodes)
    requires Holds(nodes, def, AllEdges(def, i) + DependencyEdges(def, i, j))
    requires MapsTasks(taskMap, nodes, def.tasks) && MapsArtifacts(artifactMap, nodes, def.tasks)
    modifies nodes
    ensures linked <==> Resolved(def.tasks, i, j)
    ensures linked ==> Holds(nodes, def, AllEdges(def, i) + DependencyEdges(def, i, j + 1)) && StoredAtEnds(nodes)
  {
    var condition := def.tasks[i].dependencies[j];
    var origin := FindSource(nodes, def, condition, taskMap, artifactMap);
    if origin.None? {
      return false;
    }
    var edge := DagEdge(origin.value, nodes[i], condition.kind,
                        if condition.kind == ArtifactType then Some(condition.id) else None);
    ghost var all := AllEdges(def, i) + DependencyEdges(def, i, j);
    NextEdge(nodes, def, i, j, all, edge);
    StoreEdge(nodes, def, edge, all);
    return true;
  }

  lemma NextEdge(nodes: seq<DagNode>, def: WorkflowDefinition, i: nat, j: nat, all: seq<EdgeDto>, edge: DagEdge)
    requires i < |def.tasks| && j < |def.tasks[i].dependencies| && Resolved(def.tasks, i, j) && Holds(nodes, def, all)
    requires var d := def.tasks[i].dependencies[j];
             edge == DagEdge(nodes[Source(def.tasks, d).value], nodes[i], d.kind,
                             if d.kind == ArtifactType then Some(d.id) else None)
    ensures AllEdges(def, i) + DependencyEdges(def, i, j) + [EdgeToDto(edge)] ==
              AllEdges(def, i) + DependencyEdges(def, i, j + 1)
  {
    var d := def.tasks[i].dependencies[j];
    var source := Source(def.tasks, d).value;
    assert NodeToDto(nodes[i]).id == IdOf(def, i) && NodeToDto(nodes[source]).id == IdOf(def, source);
    assert [EdgeToDto(edge)] == EdgeFor(def, i, d);
    var (before, after) := (AllEdges(def, i), DependencyEdges(def, i, j));
    assert before + after + EdgeFor(def, i, d) == before + (after + EdgeFor(def, i, d));
  }

  /** All dependencies of task `i` up to the first without a source. */
  method LinkTask(nodes: seq<DagNode>, def: WorkflowDefinition, i: nat, ghost next: nat,
                  taskMap: map<string, DagNode>, artifactMap: map<ArtifactId, DagNode>) returns (linked: nat)
    requires i < |def.tasks| && next == i + 1 && DistinctIds(nodes) && StoredAtEnds(nodes)
    requires Holds(nodes, def, AllEdges(def, i))
    requires MapsTasks(taskMap, nodes, def.tasks) && MapsArtifacts(artifactMap, nodes, def.tasks)
    modifies nodes
    ensures linked <= |def.tasks[i].dependencies|
    ensures ResolvedUpTo(def.tasks, i, linked)
    ensures linked < |def.tasks[i].dependencies| ==> !Resolved(def.tasks, i, linked)
    ensures linked == |def.tasks[i].dependencies| ==> Holds(nodes, def, AllEdges(def, next)) && StoredAtEnds(nodes)
  {
    assert AllEdges(def, i) + [] == AllEdges(def, i);
    linked := 0;
    while linked < |def.tasks[i].dependencies|
      invariant linked <= |def.tasks[i].dependencies|
      invariant Holds(nodes, def, AllEdges(def, i) + DependencyEdges(def, i, linked)) && StoredAtEnds(nodes)
      invariant ResolvedUpTo(def.tasks, i, linked)
    {
      var found := LinkDependency(nodes, def, i, linked, taskMap, artifactMap);
      if !found {
        return;
      }
      linked := linked + 1;
    }
  }

  /** What parsing says about the dependencies that it cannot resolve. */
  ghost predicate Unresolved(def: WorkflowDefinition, error: DagError) {
    exists i: nat, j: nat ::
      FirstUnresolved(def.tasks, i, j) && error == CreationError(def.tasks[i].name, def.tasks[i].dependencies[j])
  }

  lemma StopsAtFirst(def: WorkflowDefinition, i: nat, j: nat)
    requires FirstUnresolved(def.tasks, i, j)
    ensures !AllResolved(def.tasks) && Unresolved(def, CreationError(def.tasks[i].name, def.tasks[i].dependencies[j]))
  {}

  lemma NextResolved(tasks: seq<Task>, i: nat, next: nat, linked: nat)
    requires i < |tasks| && next == i + 1 && linked <= |tasks[i].dependencies|
    requires AllResolvedUpTo(tasks, i) && ResolvedUpTo(tasks, i, linked)
    requires linked < |tasks[i].dependencies| ==> !Resolved(tasks, i, linked)
    ensures if linked == |tasks[i].dependencies| then AllResolvedUpTo(tasks, next)
            else FirstUnresolved(tasks, i, linked)
  {}

  /** Links one more task, if all its dependencies have sources. */
  method LinkNext(nodes: seq<DagNode>, def: WorkflowDefinition, i: nat, ghost next: nat,
                  taskMap: map<string, DagNode>, artifactMap: map<ArtifactId, DagNode>)
    returns (complete: bool, linked: nat)
    requires i < |def.tasks| && next == i + 1 && DistinctIds(nodes) && StoredAtEnds(nodes)
    requires Holds(nodes, def, AllEdges(def, i)) && AllResolvedUpTo(def.tasks, i)
    requires MapsTasks(taskMap, nodes, def.tasks) && MapsArtifacts(artifactMap, nodes, def.tasks)
    modifies nodes
    ensures complete ==> Holds(nodes, def, AllEdges(def, next)) && StoredAtEnds(nodes)
    ensures if complete then AllResolvedUpTo(def.tasks, next) else FirstUnresolved(def.tasks, i, linked)
  {
    linked := LinkTask(nodes, def, i, next, taskMap, artifactMap);
    NextResolved(def.tasks, i, next, linked);
    complete := linked == |def.tasks[i].dependencies|;
  }

  /** Links all tasks, up to the first dependency without a source: the number of tasks that are
      linked, and the number of that dependency. */
  method LinkTasks(nodes: seq<DagNode>, def: WorkflowDefinition, taskMap: map<string, DagNode>,
                   artifactMap: map<ArtifactId, DagNode>) returns (i: nat, linked: nat)
    requires Holds(nodes, def, []) && DistinctIds(nodes) && StoredAtEnds(nodes)
    requires MapsTasks(taskMap, nodes, def.tasks) && MapsArtifacts(artifactMap, nodes, def.tasks)
    modifies nodes
    ensures i <= |def.tasks| && AllResolvedUpTo(def.tasks, i)
    ensures i == |def.tasks| ==> Holds(nodes, def, AllEdges(def, i)) && StoredAtEnds(nodes)
    ensures i < |def.tasks| ==> FirstUnresolved(def.tasks, i, linked)
  {
    i, linked := 0, 0;
    while i < |nodes|
      invariant 0 <= i <= |nodes| == |def.tasks|
      invariant Holds(nodes, def, AllEdges(def, i)) && StoredAtEnds(nodes)
      invariant AllResolvedUpTo(def.tasks, i)
    {
      var next, complete := i + 1, false;
      complete, linked := LinkNext(nodes, def, i, next, taskMap, artifactMap);
      if !complete {
        return;
      }
      i := next;
    }
  }

  /** Links all tasks by the last task of each name and the last producer of each artifact, or
      reports the first dependency without a source. */
  method LinkAll(nodes: seq<DagNode>, def: WorkflowDefinition) returns (error: Option<DagError>)
    requires Holds(nodes, def, []) && DistinctIds(nodes) && StoredAtEnds(nodes)
    modifies nodes
    ensures error.None? ==>
              AllResolved(def.tasks) && Holds(nodes, def, AllEdges(def, |def.tasks|)) && StoredAtEnds(nodes)
    ensures error.Some? ==> !AllResolved(def.tasks) && Unresolved(def, error.value)
  {
    var taskMap := TaskMap(nodes, def);
    var artifactMap := ArtifactMap(nodes, def);
    var i, linked := LinkTasks(nodes, def, taskMap, artifactMap);
    if i == |nodes| {
      return None;
    }
    StopsAtFirst(def, i, linked);
    return Some(CreationError(def.tasks[i].name, def.tasks[i].dependencies[linked]));
  }

  /** The node objects of a definition, linked up to the first dependency without a source. */
  method Build(def: WorkflowDefinition) returns (nodes: seq<DagNode>, error: Option<DagError>)
    ensures forall k :: 0 <= k < |nodes| ==> fresh(nodes[k])
    ensures error.None? ==>
              && AllResolved(def.tasks) && NodesToDto(nodes) == ParsedNodes(def)
              && DistinctIds(nodes) && StoredAtEnds(nodes)
    ensures error.Some? ==> !AllResolved(def.tasks) && Unresolved(def, error.value)
  {
    nodes := CreateNodes(def);
    error := LinkAll(nodes, def);
    if error.None? {
      HeldIsParsed(nodes, def);
    }
  }

  /** Parsing fails exactly on the first dependency without a source, or on a cycle through
      at least two nodes; else the node objects are the parsed form of the definition. */
  method Parse(def: WorkflowDefinition, dagId: string) returns (r: Result<Dag, DagError>)
    ensures r.Ok? <==> AllResolved(def.tasks) && Acyclic(ParsedWorkflow(def))
    ensures r.Ok? ==>
              && ConvertDagToDto(r.value) == DagDto(dagId, ParsedNodes(def), def.id)
              && DistinctIds(r.value.nodes) && StoredAtEnds(r.value.nodes)
              && forall k :: 0 <= k < |r.value.nodes| ==> fresh(r.value.nodes[k])
    ensures r.Err? && AllResolved(def.tasks) ==> r.error.CycleError?
    ensures !AllResolved(def.tasks) ==> r.Err? && Unresolved(def, r.error)
  {
    var nodes, error := Build(def);
    if error.Some? {
      return Err(error.value);
    }
    var dag := Dag(dagId, nodes, def.id);
    var response, stack, _ := HasCycles(dag, ArrowsOf(nodes));
    DetectorIsExact(def, nodes, response, stack);
    if response.HasCycle? {
      return Err(CycleError(response.description));
    }
    return Ok(dag);
  }

  function ParsedWorkflow(def: WorkflowDefinition): Workflow {
    ParsedDistinct(def);
    WorkflowOf(ParsedNodes(def))
  }

  lemma ParsedDistinct(def: WorkflowDefinition)
    ensures DistinctDtoIds(ParsedNodes(def))
  {
    forall i, j | 0 <= i < j < |def.tasks| ensures IdOf(def, i) != IdOf(def, j) {
      if IdOf(def, i) == IdOf(def, j) { IdInjective(def, i, j); }
    }
  }

  lemma DetectorIsExact(def: WorkflowDefinition, nodes: seq<DagNode>, r: CycleDetectorResponse, stack: seq<DagNode>)
    requires NodesToDto(nodes) == ParsedNodes(def) && DistinctIds(nodes) && StoredAtEnds(nodes)
    requires r.HasCycle? ==> ShowsCycle(stack, ArrowsOf(nodes))
    requires r.NoCycle? ==> forall p :: !IsCycle(p, ArrowsOf(nodes))
    ensures r.NoCycle? <==> Acyclic(ParsedWorkflow(def))
  {
    if r.HasCycle? {
      var k :| 0 <= k < |stack| - 1 && IsCycle(stack[k..], ArrowsOf(nodes));
      CycleToIds(nodes, stack[k..]);
    } else {
      forall q ensures !IsCycle(q, Arrows(ParsedWorkflow(def))) {
        if IsCycle(q, Arrows(ParsedWorkflow(def))) { CycleToNodes(nodes, q); }
      }
    }
  }

  lemma HeldIsParsed(nodes: seq<DagNode>, def: WorkflowDefinition)
    requires Holds(nodes, def, AllEdges(def, |def.tasks|))
    ensures NodesToDto(nodes) == ParsedNodes(def)
  {}
}
