/** What a rendered scene's workflow contains, told from the clips, the files and the numbers of
    the cuts. */
module RenderedTasks {
  import opened WorkflowTypes
  import opened RenderStrategy

  ghost predicate Increasing(p: seq<nat>) {
    forall i, j :: 0 <= i < j < |p| ==> p[i] < p[j]
  }

  lemma IncreasingAppend(p: seq<nat>, last: nat)
    requires Increasing(p) && forall j :: 0 <= j < |p| ==> p[j] < last
    ensures Increasing(p + [last])
  {}

  // ---------------------------------------------------------------- cuts

  /** The positions are the cut clips, in order. */
  ghost predicate ArePositions(p: seq<nat>, clips: seq<Clip>) {
    && Increasing(p)
    && (forall j :: 0 <= j < |p| ==> p[j] < |clips| && clips[p[j]].cut.Some?)
    && (forall i :: 0 <= i < |clips| && clips[i].cut.Some? ==> i in p)
  }

  /** The cut clips keep their order and their number. */
  lemma {:induction false} CutPositions(clips: seq<Clip>) returns (p: seq<nat>)
    ensures ArePositions(p, clips) && |Cuts(clips)| == |p|
    ensures forall j :: 0 <= j < |p| ==> Cuts(clips)[j] == clips[p[j]]
  {
    if clips == [] {
      p := [];
    } else {
      var last := |clips| - 1;
      var before := CutPositions(clips[..last]);
      assert forall i :: 0 <= i < last ==> clips[..last][i] == clips[i];
      if clips[last].cut.Some? {
        p := before + [last];
        IncreasingAppend(before, last);
        assert p[|before|] == last;
        assert forall i :: i in before ==> i in p;
      } else {
        p := before;
      }
    }
  }

  /** The path is that of the first file of the name. */
  ghost predicate IsPathOf(files: seq<WorkspaceFile>, name: string, path: string) {
    exists i: nat :: i < |files| && files[i].name == name && files[i].s3Path == path &&
                     forall j :: 0 <= j < i ==> files[j].name != name
  }

  lemma {:induction false} FirstFile(files: seq<WorkspaceFile>, name: string)
    ensures FilePath(files, name).Some? ==> IsPathOf(files, name, FilePath(files, name).value)
    ensures FilePath(files, name).None? ==> forall i :: 0 <= i < |files| ==> files[i].name != name
  {
    if files != [] && files[0].name != name {
      FirstFile(files[1..], name);
      if FilePath(files, name).Some? {
        var path := FilePath(files, name).value;
        var i: nat :| i < |files[1..]| && files[1..][i].name == name && files[1..][i].s3Path == path
                      && forall j :: 0 <= j < i ==> files[1..][j].name != name;
        assert files[i + 1].name == name && files[i + 1].s3Path == path;
        assert forall j :: 1 <= j < i + 1 ==> files[j] == files[1..][j - 1];
      }
    }
  }

  /** A task that produces one artifact, is complete with it, and is tried again up to three times
      with exponential delays from a second on. */
  ghost predicate Produces(task: Task, artifact: ArtifactId) {
    && task.results == [artifact] && task.completionCriteria == [CompletionCriteria(ArtifactType, artifact)]
    && task.priority == 500 && task.retryPolicy == RetryPolicy(3, 1000, true)
    && task.timeout == 0 && task.onError == RetryAction
  }

  /** Task `k` cuts the `k`-th cut clip from and to the times of its cut, out of the first file of
      the clip's name. */
  lemma SplitCuts(ctx: Context, clips: seq<Clip>, k: nat)
    requires FilesPresent(ctx, clips) && k < |Cuts(clips)|
    ensures var (task, clip) := (RenderTasks(ctx, clips)[k], Cuts(clips)[k]);
            && clip.cut.Some? && task.name == "Split" && task.dependencies == [] && task.parameters.CutParameters?
            && task.parameters.cutFrom == clip.cut.value.from && task.parameters.cutTo == clip.cut.value.to
            && IsPathOf(ctx.files, clip.id, task.parameters.keyName)
            && Produces(task, ctx.s3BasePath + "processing-artifacts/clip-cut-" + ctx.format(clip.cut.value.from) +
                              "-" + ctx.format(clip.cut.value.to) + "-" + clip.id)
  {
    var clip := Cuts(clips)[k];
    assert clip in Cuts(clips);
    FirstFile(ctx.files, clip.id);
    assert RenderTasks(ctx, clips)[k] == SplitTasks(ctx, clips)[k];
  }

  // ---------------------------------------------------------------- the last cut of an id

  /** Clip `i` is the last cut clip of that id. */
  ghost predicate LastCutAt(clips: seq<Clip>, id: string, i: nat) {
    && i < |clips| && clips[i].cut.Some? && clips[i].id == id
    && forall j :: i < j < |clips| && clips[j].cut.Some? ==> clips[j].id != id
  }

  ghost predicate NeverCut(clips: seq<Clip>, id: string) {
    forall i :: 0 <= i < |clips| && clips[i].cut.Some? ==> clips[i].id != id
  }

  /** Clip `i` is the first cut clip of its id. */
  ghost predicate FirstCutAt(clips: seq<Clip>, i: nat) {
    && i < |clips| && clips[i].cut.Some?
    && forall j :: 0 <= j < i && clips[j].cut.Some? ==> clips[j].id != clips[i].id
  }

  lemma FirstCutShorter(clips: seq<Clip>, last: nat, i: nat)
    requires last + 1 == |clips| && i < last
    ensures FirstCutAt(clips, i) <==> FirstCutAt(clips[..last], i)
  {
    assert forall j :: 0 <= j < last ==> clips[..last][j] == clips[j];
  }

  /** The entries are those of the first cut clips of each id, in order. */
  ghost predicate AreFirstCuts(p: seq<nat>, entries: Entries, clips: seq<Clip>) {
    && Increasing(p) && |p| == |entries|
    && (forall i: nat :: i in p <==> FirstCutAt(clips, i))
    && (forall j :: 0 <= j < |p| ==> p[j] < |clips| && entries[j].0 == clips[p[j]].id)
  }

  lemma NoFirstCut(p: seq<nat>, entries: Entries, clips: seq<Clip>, last: nat)
    requires last + 1 == |clips| && AreFirstCuts(p, entries, clips[..last])
    ensures FirstCutAt(clips, last) <==> clips[last].cut.Some? && EntryIndex(entries, clips[last].id) == |entries|
  {
    var (front, id) := (clips[..last], clips[last].id);
    assert forall j :: 0 <= j < last ==> front[j] == clips[j];
    var k := EntryIndex(entries, id);
    if k < |entries| {
      assert p[k] in p;
      assert FirstCutAt(front, p[k]);
    } else if j :| 0 <= j < last && clips[j].cut.Some? && clips[j].id == id {
      var i := FirstOfId(front, id, j);
    }
  }

  lemma {:induction false} FirstOfId(clips: seq<Clip>, id: string, j: nat) returns (i: nat)
    requires j < |clips| && clips[j].cut.Some? && clips[j].id == id
    ensures FirstCutAt(clips, i) && clips[i].id == id
    decreases j
  {
    if k: nat :| k < j && clips[k].cut.Some? && clips[k].id == id {
      i := FirstOfId(clips, id, k);
    } else {
      i := j;
    }
  }

  lemma {:induction false} EntryPositions(ctx: Context, clips: seq<Clip>) returns (p: seq<nat>)
    ensures AreFirstCuts(p, PreparedArtifacts(ctx, clips), clips)
  {
    if clips == [] {
      p := [];
    } else {
      var last := |clips| - 1;
      var (front, entries) := (clips[..last], PreparedArtifacts(ctx, clips[..last]));
      var before := EntryPositions(ctx, front);
      forall i: nat | i < last ensures FirstCutAt(clips, i) <==> FirstCutAt(front, i) {
        FirstCutShorter(clips, last, i);
      }
      NoFirstCut(before, entries, clips, last);
      forall j | 0 <= j < |before| ensures before[j] < last { assert before[j] in before; }
      if FirstCutAt(clips, last) {
        p := before + [last];
        IncreasingAppend(before, last);
        assert forall i :: i in p <==> i in before || i == last;
      } else {
        p := before;
      }
    }
  }

  /** Each id is prepared by its last cut clip. */
  lemma {:induction false} PreparedByLast(ctx: Context, clips: seq<Clip>, id: string, i: nat)
    requires LastCutAt(clips, id, i)
    ensures GetEntry(PreparedArtifacts(ctx, clips), id) == Some(ArtifactIdOf(ctx, id, clips[i].cut.value))
  {
    var last := |clips| - 1;
    var (front, before) := (clips[..last], PreparedArtifacts(ctx, clips[..last]));
    assert forall j :: 0 <= j < last ==> front[j] == clips[j];
    if i < last {
      assert LastCutAt(front, id, i);
      PreparedByLast(ctx, front, id, i);
    }
    if clips[last].cut.Some? {
      GetsSet(before, clips[last].id, ArtifactIdOf(ctx, clips[last].id, clips[last].cut.value), id);
    }
  }

  lemma GetsSet(entries: Entries, key: string, value: ArtifactId, other: string)
    ensures GetEntry(SetEntry(entries, key, value), other) ==
            if other == key then Some(value) else GetEntry(entries, other)
  {
    var (updated, k) := (SetEntry(entries, key, value), EntryIndex(entries, key));
    var (i, j) := (EntryIndex(entries, other), EntryIndex(updated, other));
    if other == key {
      assert updated[k].0 == key;
    } else {
      if i < |entries| { assert updated[i] == entries[i]; }
      if j < |updated| { assert j < |entries| && updated[j] == entries[j]; }
    }
  }

  lemma {:induction false} NeverPrepared(ctx: Context, clips: seq<Clip>, id: string)
    requires NeverCut(clips, id)
    ensures GetEntry(PreparedArtifacts(ctx, clips), id) == None
  {
    if clips != [] {
      var last := |clips| - 1;
      var (front, before) := (clips[..last], PreparedArtifacts(ctx, clips[..last]));
      assert forall j :: 0 <= j < last ==> front[j] == clips[j];
      NeverPrepared(ctx, front, id);
      if clips[last].cut.Some? {
        GetsSet(before, clips[last].id, ArtifactIdOf(ctx, clips[last].id, clips[last].cut.value), id);
      }
    }
  }

  // ---------------------------------------------------------------- the splice

  function CutArtifact(ctx: Context, clip: Clip): ArtifactId
    requires clip.cut.Some?
  {
    ctx.s3BasePath + "processing-artifacts/clip-cut-" + ctx.format(clip.cut.value.from) +
    "-" + ctx.format(clip.cut.value.to) + "-" + clip.id
  }

  /** The last task joins the files into the final video. */
  lemma SpliceJoins(ctx: Context, clips: seq<Clip>)
    requires FilesPresent(ctx, clips)
    ensures |RenderTasks(ctx, clips)| == |Cuts(clips)| + 1
    ensures var task := RenderTasks(ctx, clips)[|Cuts(clips)|];
            && task.name == "Splice" && task.parameters.SpliceParameters? && |task.parameters.fileKeys| == |clips|
            && Produces(task, ctx.s3BasePath + "video/" + ctx.videoName)
  {}

  /** File `k` is that of the clip that starts as number `k`: the artifact of the last cut clip of
      its id, or the uploaded file if the id is never cut. */
  lemma SplicesFile(ctx: Context, clips: seq<Clip>, k: nat)
    requires FilesPresent(ctx, clips) && k < |clips|
    ensures var task := RenderTasks(ctx, clips)[|Cuts(clips)|];
            && task.parameters.SpliceParameters? && |task.parameters.fileKeys| == |clips|
            && var (file, id) := (task.parameters.fileKeys[k], SortByFrom(clips)[k].id);
            && (forall i: nat :: LastCutAt(clips, id, i) ==> file == CutArtifact(ctx, clips[i]))
            && (NeverCut(clips, id) ==> file == ctx.s3BasePath + id)
  {
    var id := SortByFrom(clips)[k].id;
    SpliceJoins(ctx, clips);
    assert RenderTasks(ctx, clips)[|Cuts(clips)|] == SpliceTask(ctx, clips);
    forall i: nat | LastCutAt(clips, id, i)
      ensures GetEntry(PreparedArtifacts(ctx, clips), id) == Some(CutArtifact(ctx, clips[i]))
    {
      PreparedByLast(ctx, clips, id, i);
    }
    if NeverCut(clips, id) { NeverPrepared(ctx, clips, id); }
  }

  /** Dependency `j` is on the artifact of the last cut clip of the `j`-th cut id. */
  lemma DependsOnCuts(ctx: Context, clips: seq<Clip>) returns (p: seq<nat>)
    requires FilesPresent(ctx, clips)
    ensures Increasing(p) && forall i: nat :: i in p <==> FirstCutAt(clips, i)
    ensures var dependencies := RenderTasks(ctx, clips)[|Cuts(clips)|].dependencies;
            && |dependencies| == |p|
            && forall j, i: nat :: 0 <= j < |p| && p[j] < |clips| && LastCutAt(clips, clips[p[j]].id, i) ==>
                 dependencies[j] == Dependency(ArtifactType, CutArtifact(ctx, clips[i]))
  {
    var entries := PreparedArtifacts(ctx, clips);
    p := EntryPositions(ctx, clips);
    assert RenderTasks(ctx, clips)[|Cuts(clips)|] == SpliceTask(ctx, clips);
    forall j, i: nat | 0 <= j < |p| && p[j] < |clips| && LastCutAt(clips, clips[p[j]].id, i)
      ensures entries[j].1 == CutArtifact(ctx, clips[i])
    {
      PreparedByLast(ctx, clips, clips[p[j]].id, i);
      OnlyEntry(p, entries, clips, j);
    }
  }

  lemma OnlyEntry(p: seq<nat>, entries: Entries, clips: seq<Clip>, j: nat)
    requires AreFirstCuts(p, entries, clips) && j < |entries|
    ensures EntryIndex(entries, entries[j].0) == j
  {
    var k := EntryIndex(entries, entries[j].0);
    assert p[j] in p && p[k] in p;
    assert FirstCutAt(clips, p[j]) && FirstCutAt(clips, p[k]);
  }

  // ---------------------------------------------------------------- warnings

  ghost predicate GapAt(clips: seq<Clip>, i: int) {
    0 <= i < |clips| - 1 && clips[i].to != clips[i + 1].from
  }

  /** The warnings are those of the gaps at the positions, with their lengths. */
  ghost predicate AreGaps(p: seq<nat>, warnings: seq<Warning>, clips: seq<Clip>) {
    && Increasing(p) && |warnings| == |p| && (forall i: nat :: i in p <==> GapAt(clips, i))
    && forall j :: 0 <= j < |p| ==>
         && p[j] + 1 < |clips|
         && warnings[j] == Gap(clips[p[j]].id, clips[p[j] + 1].id, clips[p[j] + 1].from - clips[p[j]].to)
  }

  lemma FrontGaps(clips: seq<Clip>, last: nat, gap: nat, i: nat)
    requires last + 1 == |clips| && gap + 1 == last
    ensures GapAt(clips[..last], i) <==> i != gap && GapAt(clips, i)
  {}

  function GapBehind(clips: seq<Clip>, gap: nat, last: nat): seq<Warning>
    requires gap < last < |clips|
  {
    if clips[gap].to == clips[last].from then []
    else [Gap(clips[gap].id, clips[last].id, clips[last].from - clips[gap].to)]
  }

  lemma GapsStep(clips: seq<Clip>, last: nat, gap: nat)
    requires last + 1 == |clips| && gap + 1 == last
    ensures GapsOf(clips) == GapsOf(clips[..last]) + GapBehind(clips, gap, last)
  {}

  lemma OneMoreGap(clips: seq<Clip>, last: nat, gap: nat, before: seq<nat>, warnings: seq<Warning>)
    returns (p: seq<nat>)
    requires last + 1 == |clips| && gap + 1 == last && AreGaps(before, warnings, clips[..last])
    ensures AreGaps(p, warnings + GapBehind(clips, gap, last), clips)
  {
    forall i: nat ensures i in before <==> i != gap && GapAt(clips, i) { FrontGaps(clips, last, gap, i); }
    forall j | 0 <= j < |before| ensures before[j] < gap { assert before[j] in before; }
    if clips[gap].to == clips[last].from {
      assert warnings + [] == warnings;
      p := before;
    } else {
      p := before + [gap];
      IncreasingAppend(before, gap);
      assert forall i :: i in p <==> i in before || i == gap;
    }
  }

  /** One warning for each gap between neighbours, in order, with its length. */
  lemma {:induction false} GapPositions(clips: seq<Clip>) returns (p: seq<nat>)
    ensures AreGaps(p, GapsOf(clips), clips)
  {
    if |clips| < 2 {
      p := [];
    } else {
      var last := |clips| - 1;
      var gap := last - 1;
      var before := GapPositions(clips[..last]);
      GapsStep(clips, last, gap);
      p := OneMoreGap(clips, last, gap, before, GapsOf(clips[..last]));
    }
  }

  /** Behind the gaps comes a warning if the first clip does not start at zero. */
  lemma WarnsAtStart(sorted: seq<Clip>)
    requires sorted != []
    ensures WarningsOf(sorted) == GapsOf(sorted) + if sorted[0].from == 0.0 then [] else [NotAtZero]
  {}

  /** The workflow carries the scene's id and is complete with the final video. */
  lemma WorkflowOfScene(ctx: Context, clips: seq<Clip>)
    requires FilesPresent(ctx, clips)
    ensures var workflow := RenderWorkflow(ctx, clips);
            && workflow.name == ctx.sceneId && workflow.tasks == RenderTasks(ctx, clips)
            && workflow.description == "Rendering video " + ctx.videoName + " with " + Decimal(|clips|) +
                                       " clips for scene " + ctx.sceneId
            && workflow.completionCriteria ==
               [CompletionCriteria(ArtifactType, ctx.s3BasePath + "video/" + ctx.videoName)]
  {}
}
