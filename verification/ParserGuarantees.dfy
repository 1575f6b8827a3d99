/** What a parsed DAG looks like. */
module ParserGuarantees {
  import opened WorkflowTypes
  import opened SchedulerModel
  import opened WorkflowGraph
  import opened DagParser

  /** The edges that lead to the node. */
  function IncomingDtos(edges: seq<EdgeDto>, id: NodeId): seq<EdgeDto> {
    if edges == [] then [] else (if edges[0].toId == id then [edges[0]] else []) + IncomingDtos(edges[1..], id)
  }

  lemma {:induction false} IncomingConcat(a: seq<EdgeDto>, b: seq<EdgeDto>, id: NodeId)
    ensures IncomingDtos(a + b, id) == IncomingDtos(a, id) + IncomingDtos(b, id)
  {
    if a == [] {
      assert a + b == b;
    } else {
      var head := if a[0].toId == id then [a[0]] else [];
      assert (a + b)[0] == a[0] && (a + b)[1..] == a[1..] + b;
      IncomingConcat(a[1..], b, id);
      assert head + (IncomingDtos(a[1..], id) + IncomingDtos(b, id)) ==
             (head + IncomingDtos(a[1..], id)) + IncomingDtos(b, id);
    }
  }

  // ---------------------------------------------------------------- edges of one task

  lemma {:induction false} DependencyEdgesAt(def: WorkflowDefinition, i: nat, j: nat)
    requires i < |def.tasks| && j <= |def.tasks[i].dependencies| && AllResolved(def.tasks)
    ensures |DependencyEdges(def, i, j)| == j
    ensures forall l :: 0 <= l < j ==> [DependencyEdges(def, i, j)[l]] == EdgeFor(def, i, def.tasks[i].dependencies[l])
  {
    if j > 0 {
      DependencyEdgesAt(def, i, j - 1);
      assert ResolvedUpTo(def.tasks, i, |def.tasks[i].dependencies|) && Resolved(def.tasks, i, j - 1);
    }
  }

  lemma {:induction false} AllTo(edges: seq<EdgeDto>, id: NodeId)
    requires forall e :: e in edges ==> e.toId == id
    ensures IncomingDtos(edges, id) == edges
  {
    if edges != [] {
      assert edges[0] in edges;
      AllTo(edges[1..], id);
    }
  }

  lemma {:induction false} NoneTo(edges: seq<EdgeDto>, id: NodeId)
    requires forall e :: e in edges ==> e.toId != id
    ensures IncomingDtos(edges, id) == []
  {
    if edges != [] {
      assert edges[0] in edges;
      NoneTo(edges[1..], id);
    }
  }

  lemma DependencyEdgesTarget(def: WorkflowDefinition, i: nat, e: EdgeDto)
    requires i < |def.tasks| && AllResolved(def.tasks) && e in DependencyEdges(def, i, |def.tasks[i].dependencies|)
    ensures e.toId == IdOf(def, i)
    ensures exists l :: 0 <= l < |def.tasks[i].dependencies| && [e] == EdgeFor(def, i, def.tasks[i].dependencies[l])
  {
    var n := |def.tasks[i].dependencies|;
    DependencyEdgesAt(def, i, n);
    var l :| 0 <= l < n && DependencyEdges(def, i, n)[l] == e;
    assert [e] == EdgeFor(def, i, def.tasks[i].dependencies[l]);
    assert [e][0] == EdgeFor(def, i, def.tasks[i].dependencies[l])[0];
  }

  lemma {:induction false} IncomingOfAll(def: WorkflowDefinition, m: nat, i: nat)
    requires m <= |def.tasks| && i < |def.tasks| && AllResolved(def.tasks)
    ensures IncomingDtos(AllEdges(def, m), IdOf(def, i)) ==
            if i < m then DependencyEdges(def, i, |def.tasks[i].dependencies|) else []
  {
    if m > 0 {
      var last := DependencyEdges(def, m - 1, |def.tasks[m - 1].dependencies|);
      IncomingOfAll(def, m - 1, i);
      IncomingConcat(AllEdges(def, m - 1), last, IdOf(def, i));
      forall e | e in last ensures e.toId == IdOf(def, m - 1) { DependencyEdgesTarget(def, m - 1, e); }
      if i == m - 1 {
        AllTo(last, IdOf(def, i));
      } else {
        if IdOf(def, i) == IdOf(def, m - 1) { IdInjective(def, i, m - 1); }
        NoneTo(last, IdOf(def, i));
      }
    }
  }

  // ---------------------------------------------------------------- stored edges

  lemma {:induction false} IncidentMember(all: seq<EdgeDto>, id: NodeId, e: EdgeDto)
    ensures e in Incident(all, id) <==> e in all && (e.fromId == id || e.toId == id)
  {
    if all != [] {
      var prefix, last := all[..|all| - 1], all[|all| - 1];
      assert all == prefix + [last];
      IncidentMember(prefix, id, e);
    }
  }

  /** An edge occurs in a node's list once for each of its ends there. */
  lemma {:induction false} IncidentCount(all: seq<EdgeDto>, id: NodeId, e: EdgeDto)
    ensures multiset(Incident(all, id))[e] ==
            multiset(all)[e] * ((if e.fromId == id then 1 else 0) + (if e.toId == id then 1 else 0))
  {
    if all != [] {
      var prefix, last := all[..|all| - 1], all[|all| - 1];
      assert all == prefix + [last];
      IncidentCount(prefix, id, e);
    }
  }

  lemma {:induction false} IncomingOfIncident(all: seq<EdgeDto>, id: NodeId)
    requires forall e :: e in all ==> e.fromId != e.toId
    ensures IncomingDtos(Incident(all, id), id) == IncomingDtos(all, id)
  {
    if all != [] {
      var prefix, last := all[..|all| - 1], all[|all| - 1];
      assert all == prefix + [last];
      IncomingOfIncident(prefix, id);
      IncomingConcat(prefix, [last], id);
      var mine := (if last.fromId == id then [last] else []) + (if last.toId == id then [last] else []);
      assert Incident(all, id) == Incident(prefix, id) + mine;
      IncomingConcat(Incident(prefix, id), mine, id);
      assert IncomingDtos(mine, id) == IncomingDtos([last], id);
    }
  }

  /** No dependency is resolved to its own task. */
  ghost predicate NoSelfReference(def: WorkflowDefinition) {
    forall i, j :: 0 <= i < |def.tasks| && 0 <= j < |def.tasks[i].dependencies| ==>
      Source(def.tasks, def.tasks[i].dependencies[j]) != Some(i)
  }

  lemma {:induction false} EdgeOrigin(def: WorkflowDefinition, m: nat, e: EdgeDto) returns (i: nat, l: nat)
    requires m <= |def.tasks| && AllResolved(def.tasks) && e in AllEdges(def, m)
    ensures i < m && l < |def.tasks[i].dependencies| && [e] == EdgeFor(def, i, def.tasks[i].dependencies[l])
  {
    if e in AllEdges(def, m - 1) {
      i, l := EdgeOrigin(def, m - 1, e);
    } else {
      i := m - 1;
      DependencyEdgesTarget(def, i, e);
      var l' :| 0 <= l' < |def.tasks[i].dependencies| && [e] == EdgeFor(def, i, def.tasks[i].dependencies[l']);
      l := l';
    }
  }

  lemma EdgeShape(def: WorkflowDefinition, e: EdgeDto) returns (i: nat, l: nat, source: nat)
    requires AllResolved(def.tasks) && e in AllEdges(def, |def.tasks|)
    ensures i < |def.tasks| && l < |def.tasks[i].dependencies|
    ensures var d := def.tasks[i].dependencies[l];
            && Source(def.tasks, d) == Some(source) && source < |def.tasks|
            && e == EdgeDto(IdOf(def, source), IdOf(def, i), d.kind,
                            if d.kind == ArtifactType then Some(d.id) else None)
  {
    i, l := EdgeOrigin(def, |def.tasks|, e);
    var d := def.tasks[i].dependencies[l];
    assert [e][0] == EdgeFor(def, i, d)[0];
    source := Source(def.tasks, d).value;
  }

  lemma NoSelfEdges(def: WorkflowDefinition)
    requires AllResolved(def.tasks) && NoSelfReference(def)
    ensures forall e :: e in AllEdges(def, |def.tasks|) ==> e.fromId != e.toId
  {
    forall e | e in AllEdges(def, |def.tasks|) ensures e.fromId != e.toId {
      var i, l, source := EdgeShape(def, e);
      if e.fromId == e.toId { IdInjective(def, source, i); }
    }
  }

  /** Each node's incoming edges match its dependencies one to one and in order. */
  lemma IncomingMatchDependencies(def: WorkflowDefinition, i: nat)
    requires i < |def.tasks| && AllResolved(def.tasks) && NoSelfReference(def)
    ensures var incoming := IncomingDtos(ParsedNodes(def)[i].edges, ParsedNodes(def)[i].id);
            && |incoming| == |def.tasks[i].dependencies|
            && forall l :: 0 <= l < |incoming| ==> [incoming[l]] == EdgeFor(def, i, def.tasks[i].dependencies[l])
  {
    NoSelfEdges(def);
    IncomingOfIncident(AllEdges(def, |def.tasks|), IdOf(def, i));
    IncomingOfAll(def, |def.tasks|, i);
    DependencyEdgesAt(def, i, |def.tasks[i].dependencies|);
  }

  /** Incoming edge `l` leads to the task from the last task that its dependency names, or from
      the last one that produces the artifact that it names. */
  lemma IncomingEdge(def: WorkflowDefinition, i: nat, l: nat)
    requires i < |def.tasks| && AllResolved(def.tasks) && NoSelfReference(def)
    requires l < |def.tasks[i].dependencies|
    ensures var (incoming, d) := (IncomingDtos(ParsedNodes(def)[i].edges, IdOf(def, i)), def.tasks[i].dependencies[l]);
            && l < |incoming| && incoming[l].toId == IdOf(def, i) && incoming[l].conditionType == d.kind
            && (d.kind == TaskType ==> incoming[l].artifactId == None)
            && (d.kind == ArtifactType ==> incoming[l].artifactId == Some(d.id))
            && (forall k: nat :: d.kind == TaskType && LastNamed(def.tasks, d.id, k) ==>
                                   incoming[l].fromId == IdOf(def, k))
            && (forall k: nat :: d.kind == ArtifactType && LastProducing(def.tasks, d.id, k) ==>
                                   incoming[l].fromId == IdOf(def, k))
  {
    var d := def.tasks[i].dependencies[l];
    var incoming := IncomingDtos(ParsedNodes(def)[i].edges, IdOf(def, i));
    IncomingMatchDependencies(def, i);
    assert [incoming[l]] == EdgeFor(def, i, d);
    assert incoming[l] == EdgeFor(def, i, d)[0];
    SourceOfName(def.tasks, d.id);
    SourceOfArtifact(def.tasks, d.id);
  }

  /** Each edge is stored at its two end nodes, as often as it was declared, and nowhere else. */
  lemma StoredAtBothEnds(def: WorkflowDefinition, k: nat, e: EdgeDto)
    requires k < |def.tasks| && AllResolved(def.tasks) && NoSelfReference(def)
    ensures multiset(ParsedNodes(def)[k].edges)[e] ==
            if e.fromId == IdOf(def, k) || e.toId == IdOf(def, k) then multiset(AllEdges(def, |def.tasks|))[e] else 0
  {
    var all := AllEdges(def, |def.tasks|);
    IncidentCount(all, IdOf(def, k), e);
    NoSelfEdges(def);
    if e !in all { assert multiset(all)[e] == 0; }
  }

  lemma ParsedNodeOf(def: WorkflowDefinition, n: NodeId) returns (k: nat)
    requires n in ParsedWorkflow(def).nodes
    ensures k < |def.tasks| && IdOf(def, k) == n
            && ParsedWorkflow(def).nodes[n] == Node(def.tasks[k], ParsedNodes(def)[k].edges)
  {
    ParsedDistinct(def);
    ByIdKeys(ParsedNodes(def), Fixed);
    WorkflowOfDocument(ParsedNodes(def));
    var k' :| 0 <= k' < |ParsedNodes(def)| && ParsedNodes(def)[k'].id == n;
    k := k';
  }

  lemma ParsedNodeAt(def: WorkflowDefinition, k: nat)
    requires k < |def.tasks|
    ensures IdOf(def, k) in ParsedWorkflow(def).nodes
    ensures ParsedWorkflow(def).nodes[IdOf(def, k)] == Node(def.tasks[k], ParsedNodes(def)[k].edges)
  {
    ParsedDistinct(def);
    WorkflowOfDocument(ParsedNodes(def));
    assert ParsedNodes(def)[k].id == IdOf(def, k);
  }

  /** Every edge of a parsed workflow has its source in the workflow, and the source of an
      artifact edge lists the artifact among its results. */
  lemma ParsedEdgesResolved(def: WorkflowDefinition)
    requires AllResolved(def.tasks)
    ensures EdgesResolved(ParsedWorkflow(def))
  {
    var wf := ParsedWorkflow(def);
    forall n, e | n in wf.nodes && e in wf.nodes[n].edges && e.toId == n
      ensures e.fromId in wf.nodes && e.conditionType in {TaskType, ArtifactType}
      ensures e.conditionType == ArtifactType ==>
                e.artifactId.Some? && e.artifactId.value in wf.nodes[e.fromId].task.results
    {
      var k := ParsedNodeOf(def, n);
      IncidentMember(AllEdges(def, |def.tasks|), IdOf(def, k), e);
      var i, l, source := EdgeShape(def, e);
      ParsedNodeAt(def, source);
    }
  }

  lemma {:induction false} EdgesOfTask(def: WorkflowDefinition, m: nat, i: nat, e: EdgeDto)
    requires i < m <= |def.tasks| && e in DependencyEdges(def, i, |def.tasks[i].dependencies|)
    ensures e in AllEdges(def, m)
  {
    if i < m - 1 { EdgesOfTask(def, m - 1, i, e); }
  }

  /** Every dependency is stored as an edge of its task's node. */
  lemma DependencyStored(def: WorkflowDefinition, i: nat, l: nat) returns (e: EdgeDto)
    requires i < |def.tasks| && l < |def.tasks[i].dependencies| && AllResolved(def.tasks)
    ensures IdOf(def, i) in ParsedWorkflow(def).nodes && e in ParsedWorkflow(def).nodes[IdOf(def, i)].edges
    ensures var d := def.tasks[i].dependencies[l]; var source := Source(def.tasks, d);
            && source.Some?
            && e == EdgeDto(IdOf(def, source.value), IdOf(def, i), d.kind,
                            if d.kind == ArtifactType then Some(d.id) else None)
  {
    var n := |def.tasks[i].dependencies|;
    DependencyEdgesAt(def, i, n);
    e := DependencyEdges(def, i, n)[l];
    assert [e][0] == EdgeFor(def, i, def.tasks[i].dependencies[l])[0];
    EdgesOfTask(def, |def.tasks|, i, e);
    IncidentMember(AllEdges(def, |def.tasks|), IdOf(def, i), e);
    ParsedNodeAt(def, i);
  }

  lemma ParsedNoSelf(def: WorkflowDefinition)
    requires AllResolved(def.tasks) && NoSelfReference(def)
    ensures NoSelfDependency(ParsedWorkflow(def))
  {
    var wf := ParsedWorkflow(def);
    NoSelfEdges(def);
    forall n, e | n in wf.nodes && e in wf.nodes[n].edges && e.toId == n ensures e.fromId != n {
      var k := ParsedNodeOf(def, n);
      IncidentMember(AllEdges(def, |def.tasks|), IdOf(def, k), e);
    }
  }

  /** Where an incoming edge of a parsed node comes from. */
  lemma IncomingShape(def: WorkflowDefinition, n: NodeId, e: EdgeDto) returns (i: nat, l: nat, source: nat)
    requires AllResolved(def.tasks) && n in ParsedWorkflow(def).nodes
    requires e in ParsedWorkflow(def).nodes[n].edges && e.toId == n
    ensures i < |def.tasks| && IdOf(def, i) == n && l < |def.tasks[i].dependencies| && source < |def.tasks|
    ensures var d := def.tasks[i].dependencies[l];
            && Source(def.tasks, d) == Some(source) && e.fromId == IdOf(def, source) && e.conditionType == d.kind
            && (d.kind == ArtifactType ==> e.artifactId == Some(d.id))
  {
    var k := ParsedNodeOf(def, n);
    IncidentMember(AllEdges(def, |def.tasks|), IdOf(def, k), e);
    i, l, source := EdgeShape(def, e);
  }

  /** The ids of a parsed workflow are listed once each. */
  lemma ParsedOrder(def: WorkflowDefinition)
    ensures var wf := ParsedWorkflow(def); Distinct(wf.order) && ToSet(wf.order) == wf.nodes.Keys
  {
    ParsedDistinct(def);
    WorkflowOfDocument(ParsedNodes(def));
  }

  /** The state of a workflow that has just been created from its definition. */
  function CreatedFrom(def: WorkflowDefinition, workers: seq<Worker>, clock: nat): (r: State)
    ensures WF(r)
  {
    ParsedOrder(def);
    Created(ParsedWorkflow(def), workers, clock)
  }
}
