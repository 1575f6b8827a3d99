/** What a rendered scene asks of the task manager: its workflow is always accepted, starts
    with the cuts, and joins the clips in order once all cut files are there. */
module RenderGuarantees {
  import opened WorkflowTypes
  import opened SchedulerModel
  import opened WorkflowGraph
  import opened Graphs
  import opened DagParser
  import opened ParserGuarantees
  import opened RenderStrategy
  import opened Frontier
  import opened Placement
  import opened Progress
  import opened Guarantees
  import opened Completion

  // ---------------------------------------------------------------- order of the clips

  ghost predicate Ordered(clips: seq<Clip>) {
    forall i, j :: 0 <= i < j < |clips| ==> clips[i].from <= clips[j].from
  }

  /** The clips that start at the given time, in order. */
  function StartingAt(clips: seq<Clip>, time: real): seq<Clip> {
    if clips == [] then []
    else StartingAt(clips[..|clips| - 1], time) + (if clips[|clips| - 1].from == time then [clips[|clips| - 1]] else [])
  }

  lemma {:induction false} InsertOrders(sorted: seq<Clip>, clip: Clip)
    requires Ordered(sorted)
    ensures Ordered(Insert(sorted, clip)) && multiset(Insert(sorted, clip)) == multiset(sorted) + multiset{clip}
    ensures forall c :: c in Insert(sorted, clip) ==> c in sorted || c == clip
  {
    if sorted != [] && sorted[|sorted| - 1].from > clip.from {
      var (front, last) := (sorted[..|sorted| - 1], sorted[|sorted| - 1]);
      InsertOrders(front, clip);
      assert sorted == front + [last];
      forall i | 0 <= i <= |front| ensures Insert(front, clip)[i].from <= last.from {
        assert Insert(front, clip)[i] in front || Insert(front, clip)[i] == clip;
      }
    }
  }

  lemma {:induction false} InsertKeepsOrder(sorted: seq<Clip>, clip: Clip, time: real)
    requires Ordered(sorted)
    ensures StartingAt(Insert(sorted, clip), time) ==
              StartingAt(sorted, time) + (if clip.from == time then [clip] else [])
  {
    if sorted == [] || sorted[|sorted| - 1].from <= clip.from {
      assert (sorted + [clip])[..|sorted|] == sorted;
    } else {
      var (front, last) := (sorted[..|sorted| - 1], sorted[|sorted| - 1]);
      InsertKeepsOrder(front, clip, time);
      var inserted := Insert(front, clip);
      assert (inserted + [last])[..|inserted|] == inserted;
    }
  }

  /** Sorting keeps every clip, orders them by start time, and keeps clips with the same start
      time in their order. */
  lemma {:induction false} SortIsStable(clips: seq<Clip>, time: real)
    ensures Ordered(SortByFrom(clips)) && multiset(SortByFrom(clips)) == multiset(clips)
    ensures StartingAt(SortByFrom(clips), time) == StartingAt(clips, time)
  {
    if clips != [] {
      var (front, last) := (clips[..|clips| - 1], clips[|clips| - 1]);
      SortIsStable(front, time);
      InsertOrders(SortByFrom(front), last);
      InsertKeepsOrder(SortByFrom(front), last, time);
      assert clips == front + [last];
    }
  }

  lemma SortKeepsClips(clips: seq<Clip>, c: Clip)
    ensures c in SortByFrom(clips) <==> c in clips
  {
    SortIsStable(clips, 0.0);
    assert c in multiset(SortByFrom(clips)) <==> c in multiset(clips);
  }

  // ---------------------------------------------------------------- prepared artifacts

  /** The last cut clip of that id. */
  function LastCut(clips: seq<Clip>, id: string): (r: Option<Clip>)
    ensures r.Some? ==> r.value in clips && r.value.cut.Some? && r.value.id == id
    ensures r.None? ==> forall c :: c in clips && c.id == id ==> c.cut.None?
  {
    if clips == [] then None
    else
      var last := clips[|clips| - 1];
      assert forall c :: c in clips <==> c in clips[..|clips| - 1] || c == last;
      if last.cut.Some? && last.id == id then Some(last) else LastCut(clips[..|clips| - 1], id)
  }

  ghost predicate DistinctKeys(entries: Entries) {
    forall i, j :: 0 <= i < j < |entries| ==> entries[i].0 != entries[j].0
  }

  lemma EntryAt(entries: Entries, i: nat)
    requires DistinctKeys(entries) && i < |entries|
    ensures EntryIndex(entries, entries[i].0) == i
  {}

  lemma SetThenGet(entries: Entries, key: string, value: ArtifactId, other: string)
    requires DistinctKeys(entries)
    ensures DistinctKeys(SetEntry(entries, key, value))
    ensures GetEntry(SetEntry(entries, key, value), other) ==
            if other == key then Some(value) else GetEntry(entries, other)
  {
    var updated := SetEntry(entries, key, value);
    var (i, j) := (EntryIndex(entries, other), EntryIndex(updated, other));
    if i < |entries| { assert updated[i].0 == other; }
    if other == key { assert updated[EntryIndex(entries, key)].0 == key; }
  }

  /** A clip id leads to the artifact of the last cut clip of that id. */
  lemma {:induction false} PreparedIsLast(ctx: Context, clips: seq<Clip>, id: string)
    ensures DistinctKeys(PreparedArtifacts(ctx, clips))
    ensures GetEntry(PreparedArtifacts(ctx, clips), id) ==
            match LastCut(clips, id)
            case None => None
            case Some(c) => Some(ArtifactIdOf(ctx, c.id, c.cut.value))
  {
    if clips != [] {
      var (front, last) := (clips[..|clips| - 1], clips[|clips| - 1]);
      PreparedIsLast(ctx, front, id);
      if last.cut.Some? {
        SetThenGet(PreparedArtifacts(ctx, front), last.id, ArtifactIdOf(ctx, last.id, last.cut.value), id);
      }
    }
  }

  lemma PreparedEntry(ctx: Context, clips: seq<Clip>, i: nat)
    requires i < |PreparedArtifacts(ctx, clips)|
    ensures var entry := PreparedArtifacts(ctx, clips)[i]; var last := LastCut(clips, entry.0);
            last.Some? && entry.1 == ArtifactIdOf(ctx, entry.0, last.value.cut.value)
  {
    var entries := PreparedArtifacts(ctx, clips);
    PreparedIsLast(ctx, clips, entries[i].0);
    EntryAt(entries, i);
  }

  lemma PreparedOf(ctx: Context, clips: seq<Clip>, c: Clip) returns (i: nat)
    requires c in clips && c.cut.Some?
    ensures i < |PreparedArtifacts(ctx, clips)| && PreparedArtifacts(ctx, clips)[i].0 == c.id
  {
    PreparedIsLast(ctx, clips, c.id);
    i := EntryIndex(PreparedArtifacts(ctx, clips), c.id);
  }

  /** A cut clip is spliced from its own artifact exactly when no later cut clip of its id has
      another artifact. */
  lemma OwnArtifact(ctx: Context, clips: seq<Clip>, c: Clip)
    requires c in clips && c.cut.Some?
    ensures LastCut(clips, c.id).Some?
    ensures FileKey(ctx, PreparedArtifacts(ctx, clips), c) == ArtifactIdOf(ctx, c.id, c.cut.value)
            <==> ArtifactIdOf(ctx, c.id, LastCut(clips, c.id).value.cut.value) == ArtifactIdOf(ctx, c.id, c.cut.value)
  {
    PreparedIsLast(ctx, clips, c.id);
  }

  /** The artifact is the prepared file of the clip that is spliced as number `k`. */
  ghost predicate SplicesAt(ctx: Context, clips: seq<Clip>, k: nat, a: ArtifactId) {
    && k < |clips| && LastCut(clips, SortByFrom(clips)[k].id).Some?
    && SpliceTask(ctx, clips).parameters.fileKeys[k] == a
  }

  lemma WaitedIsSpliced(ctx: Context, clips: seq<Clip>, i: nat) returns (k: nat)
    requires i < |PreparedArtifacts(ctx, clips)|
    ensures SplicesAt(ctx, clips, k, PreparedArtifacts(ctx, clips)[i].1)
  {
    var entries, sorted := PreparedArtifacts(ctx, clips), SortByFrom(clips);
    PreparedEntry(ctx, clips, i);
    var c := LastCut(clips, entries[i].0).value;
    SortKeepsClips(clips, c);
    k :| 0 <= k < |sorted| && sorted[k] == c;
    PreparedIsLast(ctx, clips, c.id);
    EntryAt(entries, i);
  }

  lemma SplicedIsWaited(ctx: Context, clips: seq<Clip>, k: nat, a: ArtifactId) returns (i: nat)
    requires SplicesAt(ctx, clips, k, a)
    ensures i < |PreparedArtifacts(ctx, clips)| && PreparedArtifacts(ctx, clips)[i].1 == a
  {
    PreparedIsLast(ctx, clips, SortByFrom(clips)[k].id);
    i := EntryIndex(PreparedArtifacts(ctx, clips), SortByFrom(clips)[k].id);
  }

  /** The Splice task waits for an artifact exactly when some clip is spliced from it as its
      prepared file: no wait is idle, and no cut file is used unprepared. */
  lemma WaitsForItsFiles(ctx: Context, clips: seq<Clip>, a: ArtifactId)
    ensures Dependency(ArtifactType, a) in SpliceTask(ctx, clips).dependencies <==>
              exists k :: SplicesAt(ctx, clips, k, a)
  {
    var entries := PreparedArtifacts(ctx, clips);
    assert SpliceTask(ctx, clips).dependencies == ArtifactDependencies(entries);
    if Dependency(ArtifactType, a) in ArtifactDependencies(entries) {
      var i :| 0 <= i < |entries| && ArtifactDependencies(entries)[i] == Dependency(ArtifactType, a);
      var k := WaitedIsSpliced(ctx, clips, i);
    }
    if k :| SplicesAt(ctx, clips, k, a) {
      var i := SplicedIsWaited(ctx, clips, k, a);
      assert ArtifactDependencies(entries)[i] == Dependency(ArtifactType, a);
    }
  }

  /** The files are joined in the order of the clips' start times, one for each clip. */
  lemma FilesInOrder(ctx: Context, clips: seq<Clip>, k: nat)
    requires k < |clips|
    ensures var sorted := SortByFrom(clips); var keys := SpliceTask(ctx, clips).parameters.fileKeys;
            && |keys| == |clips| && multiset(sorted) == multiset(clips) && Ordered(sorted)
            && keys[k] == match LastCut(clips, sorted[k].id)
                          case None => ctx.s3BasePath + sorted[k].id
                          case Some(c) => ArtifactIdOf(ctx, c.id, c.cut.value)
  {
    SortIsStable(clips, 0.0);
    PreparedIsLast(ctx, clips, SortByFrom(clips)[k].id);
  }

  // ---------------------------------------------------------------- acceptance

  ghost predicate Rendered(def: WorkflowDefinition, ctx: Context, clips: seq<Clip>) {
    FilesPresent(ctx, clips) && def.tasks == RenderTasks(ctx, clips)
  }

  /** The final video is no cut file. */
  lemma FinalIsNoCut(ctx: Context, id: string, cut: CutOperation)
    ensures ArtifactIdOf(ctx, id, cut) != FinalVideoPath(ctx)
  {
    var k := |ctx.s3BasePath|;
    assert ArtifactIdOf(ctx, id, cut)[k] == 'p' && FinalVideoPath(ctx)[k] == 'v';
  }

  /** Every dependency of a rendered workflow is one of the Splice task on a Split task. */
  lemma DependencySource(def: WorkflowDefinition, ctx: Context, clips: seq<Clip>, i: nat, j: nat)
    requires Rendered(def, ctx, clips) && i < |def.tasks| && j < |def.tasks[i].dependencies|
    ensures i == |Cuts(clips)| && def.tasks[i].dependencies[j].kind == ArtifactType
    ensures var source := Source(def.tasks, def.tasks[i].dependencies[j]); source.Some? && source.value < |Cuts(clips)|
  {
    var entries := PreparedArtifacts(ctx, clips);
    assert def.tasks[i].dependencies[j] == Dependency(ArtifactType, entries[j].1);
    PreparedEntry(ctx, clips, j);
    var c := LastCut(clips, entries[j].0).value;
    var k :| 0 <= k < |Cuts(clips)| && Cuts(clips)[k] == c;
    assert def.tasks[k] == SplitTask(ctx, c);
    assert entries[j].1 in def.tasks[k].results;
    FinalIsNoCut(ctx, c.id, c.cut.value);
  }

  lemma RenderedResolves(def: WorkflowDefinition, ctx: Context, clips: seq<Clip>)
    requires Rendered(def, ctx, clips)
    ensures AllResolved(def.tasks) && NoSelfReference(def)
  {
    forall i, j | 0 <= i < |def.tasks| && 0 <= j < |def.tasks[i].dependencies|
      ensures Resolved(def.tasks, i, j) && Source(def.tasks, def.tasks[i].dependencies[j]) != Some(i)
    {
      DependencySource(def, ctx, clips, i, j);
    }
  }

  /** Every arrow of a rendered workflow leads from another task to the Splice task. */
  lemma ArrowsLeadToSplice(def: WorkflowDefinition, ctx: Context, clips: seq<Clip>, arrow: (NodeId, NodeId))
    requires Rendered(def, ctx, clips) && arrow in Arrows(ParsedWorkflow(def))
    ensures arrow.1 == IdOf(def, |Cuts(clips)|) && arrow.0 != arrow.1
  {
    var wf := ParsedWorkflow(def);
    RenderedResolves(def, ctx, clips);
    var e :| e in wf.nodes[arrow.1].edges && e.toId == arrow.1 && e.fromId == arrow.0;
    var k := ParsedNodeOf(def, arrow.1);
    IncidentMember(AllEdges(def, |def.tasks|), IdOf(def, k), e);
    var i, l, source := EdgeShape(def, e);
    DependencySource(def, ctx, clips, i, l);
  }

  /** A rendered workflow parses: every dependency is resolved and there is no cycle. */
  lemma RenderedParses(def: WorkflowDefinition, ctx: Context, clips: seq<Clip>)
    requires Rendered(def, ctx, clips)
    ensures AllResolved(def.tasks) && Acyclic(ParsedWorkflow(def))
    ensures EdgesResolved(ParsedWorkflow(def)) && NoSelfDependency(ParsedWorkflow(def))
  {
    RenderedResolves(def, ctx, clips);
    ParsedEdgesResolved(def);
    ParsedNoSelf(def);
    forall p ensures !IsCycle(p, Arrows(ParsedWorkflow(def))) {
      if IsCycle(p, Arrows(ParsedWorkflow(def))) {
        ArrowsLeadToSplice(def, ctx, clips, (p[0], p[1]));
        ArrowsLeadToSplice(def, ctx, clips, (p[|p| - 1], p[0]));
      }
    }
  }

  // ---------------------------------------------------------------- what runs first

  /** A Split task has no incoming edge; the Splice task has one artifact edge for each
      prepared artifact. */
  lemma RenderedIncoming(def: WorkflowDefinition, ctx: Context, clips: seq<Clip>, i: nat, e: EdgeDto)
    requires Rendered(def, ctx, clips) && i < |def.tasks|
    requires IdOf(def, i) in ParsedWorkflow(def).nodes
    requires e in ParsedWorkflow(def).nodes[IdOf(def, i)].edges && e.toId == IdOf(def, i)
    ensures i == |Cuts(clips)| && e.conditionType == ArtifactType
    ensures e.artifactId.Some? && Dependency(ArtifactType, e.artifactId.value) in def.tasks[i].dependencies
  {
    RenderedResolves(def, ctx, clips);
    ParsedNodeAt(def, i);
    IncidentMember(AllEdges(def, |def.tasks|), IdOf(def, i), e);
    var k, l, source := EdgeShape(def, e);
    IdInjective(def, k, i);
    DependencySource(def, ctx, clips, i, l);
  }

  lemma SpliceEdge(def: WorkflowDefinition, ctx: Context, clips: seq<Clip>, l: nat) returns (e: EdgeDto)
    requires Rendered(def, ctx, clips)
    requires var k := |Cuts(clips)|; l < |def.tasks[k].dependencies|
    ensures var k := |Cuts(clips)|;
            && IdOf(def, k) in ParsedWorkflow(def).nodes && e in ParsedWorkflow(def).nodes[IdOf(def, k)].edges
            && e.toId == IdOf(def, k) && e.conditionType == ArtifactType
            && e.artifactId == Some(def.tasks[k].dependencies[l].id)
  {
    var k := |Cuts(clips)|;
    RenderedResolves(def, ctx, clips);
    ParsedNodeAt(def, k);
    IncomingMatchDependencies(def, k);
    var incoming := IncomingDtos(ParsedNodes(def)[k].edges, ParsedNodes(def)[k].id);
    e := incoming[l];
    IncomingIn(ParsedNodes(def)[k].edges, ParsedNodes(def)[k].id, e);
    DependencySource(def, ctx, clips, k, l);
    assert [e][0] == EdgeFor(def, k, def.tasks[k].dependencies[l])[0];
  }

  lemma {:induction false} IncomingIn(edges: seq<EdgeDto>, id: NodeId, e: EdgeDto)
    requires e in IncomingDtos(edges, id)
    ensures e in edges && e.toId == id
  {
    if e != edges[0] || edges[0].toId != id { IncomingIn(edges[1..], id, e); }
  }

  /** All cut files are there. */
  ghost predicate CutsPublished(ctx: Context, clips: seq<Clip>, published: set<ArtifactId>) {
    forall i :: 0 <= i < |PreparedArtifacts(ctx, clips)| ==> PreparedArtifacts(ctx, clips)[i].1 in published
  }

  /** A Split task is ready while it is Pending; the Splice task is ready exactly when it is
      Pending and all cut files are there. */
  lemma ReadyWhenCut(def: WorkflowDefinition, ctx: Context, clips: seq<Clip>, i: nat,
                     status: map<NodeId, DagNodeStatus>, published: set<ArtifactId>)
    requires Rendered(def, ctx, clips) && i < |def.tasks|
    ensures IsReady(IdOf(def, i), ParsedWorkflow(def), status, published) <==>
            && IdOf(def, i) in status && status[IdOf(def, i)] == Pending
            && (i == |Cuts(clips)| ==> CutsPublished(ctx, clips, published))
  {
    var (n, wf, entries) := (IdOf(def, i), ParsedWorkflow(def), PreparedArtifacts(ctx, clips));
    ParsedNodeAt(def, i);
    if i < |Cuts(clips)| || CutsPublished(ctx, clips, published) {
      forall e | e in wf.nodes[n].edges && e.toId == n ensures Satisfied(e, status, published) {
        RenderedIncoming(def, ctx, clips, i, e);
        var l :| 0 <= l < |entries| && def.tasks[i].dependencies[l] == Dependency(ArtifactType, e.artifactId.value);
        assert entries[l].1 == e.artifactId.value;
      }
    } else {
      var l :| 0 <= l < |entries| && entries[l].1 !in published;
      var e := SpliceEdge(def, ctx, clips, l);
      assert !Satisfied(e, status, published);
    }
  }

  lemma {:induction false} SelectPrefix<T(!new)>(s: seq<T>, keep: set<T>, k: nat)
    requires k <= |s| && forall i :: 0 <= i < |s| ==> (s[i] in keep <==> i < k)
    ensures Select(s, keep) == s[..k]
  {
    if s != [] {
      if k == 0 { SelectNone(s, keep); } else { SelectPrefix(s[1..], keep, k - 1); }
    }
  }

  lemma {:induction false} SelectNone<T(!new)>(s: seq<T>, keep: set<T>)
    requires forall i :: 0 <= i < |s| ==> s[i] !in keep
    ensures Select(s, keep) == []
  {
    if s != [] { SelectNone(s[1..], keep); }
  }

  lemma NoCutsNoEntries(ctx: Context, clips: seq<Clip>)
    ensures PreparedArtifacts(ctx, clips) == [] <==> Cuts(clips) == []
  {
    if PreparedArtifacts(ctx, clips) != [] { PreparedEntry(ctx, clips, 0); }
    if Cuts(clips) != [] {
      assert Cuts(clips)[0] in Cuts(clips);
      var i := PreparedOf(ctx, clips, Cuts(clips)[0]);
    }
  }

  /** Before anything is published the Split tasks are ready, and the Splice task exactly if there
      is nothing to cut. */
  lemma ReadyAtFirst(def: WorkflowDefinition, ctx: Context, clips: seq<Clip>, i: nat, ready: set<NodeId>)
    requires Rendered(def, ctx, clips) && i < |def.tasks|
    requires var wf := ParsedWorkflow(def); ready == ReadySet(wf, map n | n in wf.nodes :: Pending, {})
    ensures IdOf(def, i) in ready <==> i < |Cuts(clips)| || |Cuts(clips)| == 0
  {
    var wf := ParsedWorkflow(def);
    NoCutsNoEntries(ctx, clips);
    ParsedNodeAt(def, i);
    ReadyWhenCut(def, ctx, clips, i, map n | n in wf.nodes :: Pending, {});
  }

  /** Right after its creation a rendered workflow starts with exactly its Split tasks, or with
      the Splice task if there is nothing to cut. */
  lemma StartsWithCuts(def: WorkflowDefinition, ctx: Context, clips: seq<Clip>, workers: seq<Worker>, clock: nat)
    requires Rendered(def, ctx, clips)
    ensures var (wf, fresh') := (ParsedWorkflow(def), Fresh(ParsedWorkflow(def), workers, clock));
            Outstanding(wf, fresh'.status, fresh'.published) ==
            if Cuts(clips) == [] then wf.order else wf.order[..|Cuts(clips)|]
  {
    var wf := ParsedWorkflow(def);
    var (k, ready) := (|Cuts(clips)|, ReadySet(wf, map n | n in wf.nodes :: Pending, {}));
    forall i | 0 <= i < |wf.order| ensures wf.order[i] in ready <==> i < k || k == 0 {
      assert wf.order[i] == IdOf(def, i);
      ReadyAtFirst(def, ctx, clips, i, ready);
    }
    SelectPrefix(wf.order, ready, if k == 0 then |wf.order| else k);
    assert wf.order[..|wf.order|] == wf.order;
  }

  lemma SpliceHasCuts(def: WorkflowDefinition, ctx: Context, clips: seq<Clip>, status: map<NodeId, DagNodeStatus>,
                      published: set<ArtifactId>)
    requires Rendered(def, ctx, clips)
    requires var (wf, splice) := (ParsedWorkflow(def), IdOf(def, |Cuts(clips)|));
             splice in wf.nodes && AllMet(splice, wf.nodes[splice].edges, status, published)
    ensures CutsPublished(ctx, clips, published)
  {
    forall i | 0 <= i < |PreparedArtifacts(ctx, clips)| ensures PreparedArtifacts(ctx, clips)[i].1 in published {
      var e := SpliceEdge(def, ctx, clips, i);
      assert Satisfied(e, status, published);
    }
  }

  /** Over every honest run of a rendered workflow: unless it was put on hold, the Splice task
      is at work only with all cut files there; and the run never gets stuck. */
  lemma RenderRuns(def: WorkflowDefinition, ctx: Context, clips: seq<Clip>, workers: seq<Worker>, clock: nat,
                   es: seq<Event>)
    requires Rendered(def, ctx, clips) && Idle(workers) && HonestRun(CreatedFrom(def, workers, clock), es)
    ensures var (s, splice) := (Exec(CreatedFrom(def, workers, clock), es), IdOf(def, |Cuts(clips)|));
            && splice in s.status
            && (splice !in EverHeld(CreatedFrom(def, workers, clock), es) && Active(s.status[splice]) ==>
                CutsPublished(ctx, clips, s.published))
            && (|| (forall n :: n in s.status ==> s.status[n] == Succeeded)
                || (exists n :: n in s.status && InProgress(s, n))
                || (exists n :: n in s.status && s.status[n] in {OnHold, Failed, Canceled})
                || !ResultsPublished(s))
  {
    var (k, wf) := (|Cuts(clips)|, ParsedWorkflow(def));
    var s := Exec(CreatedFrom(def, workers, clock), es);
    RenderedParses(def, ctx, clips);
    RenderedResolves(def, ctx, clips);
    AcceptedNeverStuck(def, workers, clock, es);
    ParsedOrder(def);
    ParsedNodeAt(def, k);
    if IdOf(def, k) !in EverHeld(CreatedFrom(def, workers, clock), es) && Active(s.status[IdOf(def, k)]) {
      SafeDependencies(wf, workers, clock, es, IdOf(def, k));
      SpliceHasCuts(def, ctx, clips, s.status, s.published);
    }
  }

  /** Every rendered workflow can be completed by publishing only the results of succeeded
      tasks: the clips are cut, then spliced. */
  lemma RenderCanFinish(def: WorkflowDefinition, ctx: Context, clips: seq<Clip>, workers: seq<Worker>, clock: nat)
    returns (es: seq<Event>)
    requires Rendered(def, ctx, clips) && Idle(workers) && UniqueNames(workers)
    ensures Completes(CreatedFrom(def, workers, clock), es, true)
  {
    RenderedParses(def, ctx, clips);
    RenderedResolves(def, ctx, clips);
    es := OwnResultsSuffice(def, workers, clock);
  }
}
