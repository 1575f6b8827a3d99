/** Compiling a one-layer scene into a workflow: one Split task for each cut clip and a Splice
    task that joins the clips in the order of their start times. */
module RenderStrategy {
  import opened WorkflowTypes

  datatype CutOperation = CutOperation(from: real, to: real)
  datatype Clip = Clip(id: string, from: real, to: real, cut: Option<CutOperation>)
  datatype WorkspaceFile = WorkspaceFile(name: string, s3Path: string)

  // The workspace, the scene and its video, and how numbers are written in artifact ids.
  datatype Context = Context(s3BasePath: string, files: seq<WorkspaceFile>, sceneId: string, videoName: string,
                             format: real -> string)

  datatype RenderError = LayerCount | MissingFile(clipId: string) | NoClips

  datatype Warning = Gap(before: string, after: string, seconds: real) | NotAtZero

  // The workflow that is sent to the task manager.
  datatype CreateWorkflow = CreateWorkflow(name: string, description: string, tasks: seq<Task>,
                                           completionCriteria: seq<CompletionCriteria>)

  datatype RenderResult = RenderResult(workflow: CreateWorkflow, warnings: seq<Warning>)

  const DEFAULT_PRIORITY := 500
  const DEFAULT_RETRY := RetryPolicy(3, 1000, true)

  // ---------------------------------------------------------------- artifact ids

  function ArtifactIdOf(ctx: Context, id: string, cut: CutOperation): ArtifactId {
    ctx.s3BasePath + "processing-artifacts/clip-cut-" + ctx.format(cut.from) + "-" + ctx.format(cut.to) + "-" + id
  }

  function FinalVideoPath(ctx: Context): ArtifactId {
    ctx.s3BasePath + "video/" + ctx.videoName
  }

  /** The path of the first file of that name. */
  function FilePath(files: seq<WorkspaceFile>, name: string): (r: Option<string>)
    ensures r.Some? <==> exists i :: 0 <= i < |files| && files[i].name == name
  {
    if files == [] then None
    else if files[0].name == name then Some(files[0].s3Path)
    else
      assert forall i :: 1 <= i < |files| ==> files[i] == files[1..][i - 1];
      FilePath(files[1..], name)
  }

  // A map that is read in the order in which its keys were first set.
  type Entries = seq<(string, ArtifactId)>

  function EntryIndex(entries: Entries, key: string): (k: nat)
    ensures k <= |entries|
    ensures k < |entries| ==> entries[k].0 == key
    ensures forall j :: 0 <= j < k ==> entries[j].0 != key
  {
    if entries == [] || entries[0].0 == key then 0 else 1 + EntryIndex(entries[1..], key)
  }

  function SetEntry(entries: Entries, key: string, value: ArtifactId): Entries {
    var k := EntryIndex(entries, key);
    if k < |entries| then entries[k := (key, value)] else entries + [(key, value)]
  }

  function GetEntry(entries: Entries, key: string): Option<ArtifactId> {
    var k := EntryIndex(entries, key);
    if k < |entries| then Some(entries[k].1) else None
  }

  // ---------------------------------------------------------------- the workflow

  function Cuts(clips: seq<Clip>): (r: seq<Clip>)
    ensures forall c :: c in r <==> c in clips && c.cut.Some?
  {
    if clips == [] then []
    else
      assert forall c :: c in clips <==> c in clips[..|clips| - 1] || c == clips[|clips| - 1];
      Cuts(clips[..|clips| - 1]) + (if clips[|clips| - 1].cut.Some? then [clips[|clips| - 1]] else [])
  }

  /** The prepared artifact of each cut clip's id: the last one of the id, in the order of the
      first one of the id. */
  function PreparedArtifacts(ctx: Context, clips: seq<Clip>): Entries {
    if clips == [] then []
    else
      var last := clips[|clips| - 1];
      var before := PreparedArtifacts(ctx, clips[..|clips| - 1]);
      if last.cut.Some? then SetEntry(before, last.id, ArtifactIdOf(ctx, last.id, last.cut.value)) else before
  }

  function BuiltTask(name: string, dependencies: seq<Dependency>, parameters: Parameters, result: ArtifactId): Task {
    Task(name, dependencies, parameters, [result], DEFAULT_PRIORITY, DEFAULT_RETRY, 0, RetryAction,
         [CompletionCriteria(ArtifactType, result)])
  }

  function SplitTask(ctx: Context, clip: Clip): Task
    requires clip.cut.Some? && FilePath(ctx.files, clip.id).Some?
  {
    BuiltTask("Split", [], CutParameters(FilePath(ctx.files, clip.id).value, clip.cut.value.from, clip.cut.value.to),
              ArtifactIdOf(ctx, clip.id, clip.cut.value))
  }

  predicate FilesPresent(ctx: Context, clips: seq<Clip>) {
    forall c :: c in clips && c.cut.Some? ==> FilePath(ctx.files, c.id).Some?
  }

  /** The first cut clip without a file has that id. */
  ghost predicate FirstMissing(ctx: Context, clips: seq<Clip>, id: string) {
    exists i :: 0 <= i < |clips| && clips[i].cut.Some? && clips[i].id == id && FilePath(ctx.files, id).None?
      && FilesPresent(ctx, clips[..i])
  }

  function SplitTasks(ctx: Context, clips: seq<Clip>): (r: seq<Task>)
    requires FilesPresent(ctx, clips)
    ensures |r| == |Cuts(clips)|
    ensures forall i :: 0 <= i < |r| ==> r[i] == SplitTask(ctx, Cuts(clips)[i])
  {
    seq(|Cuts(clips)|,
        i requires 0 <= i < |Cuts(clips)| => assert Cuts(clips)[i] in Cuts(clips); SplitTask(ctx, Cuts(clips)[i]))
  }

  function ArtifactDependencies(entries: Entries): (r: seq<Dependency>)
    ensures |r| == |entries| && forall i :: 0 <= i < |r| ==> r[i] == Dependency(ArtifactType, entries[i].1)
  {
    seq(|entries|, i requires 0 <= i < |entries| => Dependency(ArtifactType, entries[i].1))
  }

  /** The file of a clip: its prepared artifact if its id has one, else the uploaded file. */
  function FileKey(ctx: Context, entries: Entries, clip: Clip): string {
    var prepared := GetEntry(entries, clip.id);
    if prepared.Some? then prepared.value else ctx.s3BasePath + clip.id
  }

  function FileKeys(ctx: Context, entries: Entries, clips: seq<Clip>): (r: seq<string>)
    ensures |r| == |clips| && forall i :: 0 <= i < |r| ==> r[i] == FileKey(ctx, entries, clips[i])
  {
    seq(|clips|, i requires 0 <= i < |clips| => FileKey(ctx, entries, clips[i]))
  }

  function SpliceTask(ctx: Context, clips: seq<Clip>): Task {
    var entries := PreparedArtifacts(ctx, clips);
    BuiltTask("Splice", ArtifactDependencies(entries), SpliceParameters(FileKeys(ctx, entries, SortByFrom(clips))),
              FinalVideoPath(ctx))
  }

  function RenderTasks(ctx: Context, clips: seq<Clip>): (r: seq<Task>)
    requires FilesPresent(ctx, clips)
    ensures |r| == |Cuts(clips)| + 1
  {
    SplitTasks(ctx, clips) + [SpliceTask(ctx, clips)]
  }

  function Description(ctx: Context, clips: nat): string {
    "Rendering video " + ctx.videoName + " with " + Decimal(clips) + " clips for scene " + ctx.sceneId
  }

  /** The workflow carries the scene's id and is complete with the final video. */
  function RenderWorkflow(ctx: Context, clips: seq<Clip>): CreateWorkflow
    requires FilesPresent(ctx, clips)
  {
    CreateWorkflow(ctx.sceneId, Description(ctx, |clips|), RenderTasks(ctx, clips),
                   [CompletionCriteria(ArtifactType, FinalVideoPath(ctx))])
  }

  // ---------------------------------------------------------------- order of the clips

  /** Puts a clip behind all clips that do not start later. */
  function Insert(sorted: seq<Clip>, clip: Clip): (r: seq<Clip>)
    ensures |r| == |sorted| + 1
  {
    if sorted == [] || sorted[|sorted| - 1].from <= clip.from then sorted + [clip]
    else Insert(sorted[..|sorted| - 1], clip) + [sorted[|sorted| - 1]]
  }

  function SortByFrom(clips: seq<Clip>): (r: seq<Clip>)
    ensures |r| == |clips|
  {
    if clips == [] then [] else Insert(SortByFrom(clips[..|clips| - 1]), clips[|clips| - 1])
  }

  function GapsOf(clips: seq<Clip>): seq<Warning> {
    if |clips| < 2 then []
    else
      var last := |clips| - 1;
      GapsOf(clips[..last]) +
      (if clips[last - 1].to != clips[last].from
       then [Gap(clips[last - 1].id, clips[last].id, clips[last].from - clips[last - 1].to)] else [])
  }

  function Shifted(clips: seq<Clip>, offset: real): (r: seq<Clip>)
    ensures |r| == |clips|
    ensures forall i :: 0 <= i < |r| ==> r[i] == clips[i].(from := clips[i].from - offset, to := clips[i].to - offset)
  {
    seq(|clips|, i requires 0 <= i < |clips| => clips[i].(from := clips[i].from - offset, to := clips[i].to - offset))
  }

  function WarningsOf(sorted: seq<Clip>): seq<Warning>
    requires sorted != []
  {
    GapsOf(sorted) + if sorted[0].from != 0.0 then [NotAtZero] else []
  }

  // ---------------------------------------------------------------- the strategy

  /** The place of a clip: behind the last clip that does not start later. */
  lemma {:induction false} InsertPlace(sorted: seq<Clip>, clip: Clip, i: nat)
    requires i <= |sorted| && (i > 0 ==> sorted[i - 1].from <= clip.from)
    requires forall k :: i <= k < |sorted| ==> sorted[k].from > clip.from
    ensures Insert(sorted, clip) == sorted[..i] + [clip] + sorted[i..]
    decreases |sorted|
  {
    var last := |sorted| - 1;
    if i == |sorted| {
      assert sorted[..i] == sorted && sorted[i..] == [];
    } else {
      InsertPlace(sorted[..last], clip, i);
      assert sorted[..last][..i] == sorted[..i] && sorted[..last][i..] + [sorted[last]] == sorted[i..];
    }
  }

  /** Moves the last clip of the prefix to its place. */
  method InsertLast(a: array<Clip>, n: nat)
    requires n < a.Length
    modifies a
    ensures a[..n + 1] == Insert(old(a[..n]), old(a[n]))
    ensures a[n + 1..] == old(a[n + 1..])
  {
    var i := n;
    ghost var (sorted, clip, behind) := (a[..n], a[n], a[n + 1..]);
    ghost var all := a[..];
    assert all == sorted + [clip] + [] + behind && sorted[..n] == sorted && sorted[n..] == [];
    while i > 0 && a[i - 1].from > a[i].from
      invariant 0 <= i <= n
      invariant a[..] == sorted[..i] + [clip] + sorted[i..] + behind
      invariant forall k :: i <= k < n ==> sorted[k].from > clip.from
    {
      var last := i - 1;
      assert a[last] == a[..][last] == sorted[last] && a[i] == a[..][i] == clip;
      a[last], a[i] := a[i], a[last];
      assert a[..] == sorted[..last] + [clip] + sorted[last..] + behind;
      i := last;
    }
    if i > 0 { assert a[i - 1] == a[..][i - 1] == sorted[i - 1] && a[i] == a[..][i] == clip; }
    InsertPlace(sorted, clip, i);
    assert a[..n + 1] == a[..][..n + 1] && a[n + 1..] == a[..][n + 1..];
  }

  /** The library's stable sort of an array in place. */
  method Sort(a: array<Clip>)
    modifies a
    ensures a[..] == SortByFrom(old(a[..]))
  {
    ghost var before := a[..];
    var n := 0;
    while n < a.Length
      invariant 0 <= n <= a.Length
      invariant a[..n] == SortByFrom(before[..n]) && a[n..] == before[n..]
    {
      assert before[..n + 1][..n] == before[..n] && before[..n + 1][n] == before[n] && a[n] == a[n..][0];
      InsertLast(a, n);
      assert before[n + 1..] == before[n..][1..];
      n := n + 1;
    }
    assert a[..n] == a[..] && before[..n] == before;
  }

  method CheckGaps(a: array<Clip>) returns (warnings: seq<Warning>)
    ensures warnings == GapsOf(a[..])
  {
    warnings := [];
    if a.Length == 0 {
      return;
    }
    var i := 0;
    while i < a.Length - 1
      invariant 0 <= i <= a.Length - 1
      invariant warnings == GapsOf(a[..i + 1])
    {
      assert a[..i + 2][..i + 1] == a[..i + 1];
      if a[i].to != a[i + 1].from {
        warnings := warnings + [Gap(a[i].id, a[i + 1].id, a[i + 1].from - a[i].to)];
      }
      i := i + 1;
    }
    assert a[..i + 1] == a[..];
  }

  /** Lets the first clip start at zero. */
  method ShiftToZero(a: array<Clip>)
    requires a.Length > 0
    modifies a
    ensures a[..] == Shifted(old(a[..]), old(a[0].from))
  {
    var offset := a[0].from;
    var i := 0;
    while i < a.Length
      invariant 0 <= i <= a.Length
      invariant forall k :: 0 <= k < i ==>
                  a[k] == old(a[k]).(from := old(a[k]).from - offset, to := old(a[k]).to - offset)
      invariant forall k :: i <= k < a.Length ==> a[k] == old(a[k])
    {
      a[i] := a[i].(from := a[i].from - offset, to := a[i].to - offset);
      i := i + 1;
    }
  }

  /** The Split tasks of the cut clips and the map of their artifacts, or the first cut clip
      whose file is missing. */
  method PrepareCuts(ctx: Context, clips: seq<Clip>)
    returns (tasks: seq<Task>, entries: Entries, missing: Option<string>)
    ensures missing.None? <==> FilesPresent(ctx, clips)
    ensures missing.None? ==> tasks == SplitTasks(ctx, clips) && entries == PreparedArtifacts(ctx, clips)
    ensures missing.Some? ==> FirstMissing(ctx, clips, missing.value)
  {
    tasks, entries := [], [];
    var i := 0;
    while i < |clips|
      invariant 0 <= i <= |clips|
      invariant FilesPresent(ctx, clips[..i])
      invariant tasks == SplitTasks(ctx, clips[..i]) && entries == PreparedArtifacts(ctx, clips[..i])
    {
      var clip := clips[i];
      assert clips[..i + 1][..i] == clips[..i] && clips[..i + 1] == clips[..i] + [clip];
      if clip.cut.Some? {
        var clipS3Path := FilePath(ctx.files, clip.id);
        if clipS3Path.None? {
          assert clip in clips;
          return tasks, entries, Some(clip.id);
        }
        tasks := tasks + [SplitTask(ctx, clip)];
        entries := SetEntry(entries, clip.id, ArtifactIdOf(ctx, clip.id, clip.cut.value));
      }
      i := i + 1;
    }
    assert clips[..i] == clips;
    missing := None;
  }

  /** Accepts exactly the scenes with one layer, at least one clip in it and a file for each
      cut clip.  The clips of the layer are left sorted and starting at zero. */
  method GenerateRenderWorkflow(layers: seq<array<Clip>>, ctx: Context) returns (r: Result<RenderResult, RenderError>)
    modifies layers
    ensures r.Ok? <==> |layers| == 1 && FilesPresent(ctx, old(layers[0][..])) && layers[0].Length > 0
    ensures |layers| != 1 ==> r == Err(LayerCount)
    ensures |layers| == 1 && r.Err? ==>
              && layers[0][..] == old(layers[0][..])
              && if layers[0].Length == 0 then r.error == NoClips
                 else r.error.MissingFile? && FirstMissing(ctx, layers[0][..], r.error.clipId)
    ensures r.Ok? ==> var clips := old(layers[0][..]);
                      && r.value.workflow == RenderWorkflow(ctx, clips)
                      && r.value.warnings == WarningsOf(SortByFrom(clips))
                      && layers[0][..] == Shifted(SortByFrom(clips), SortByFrom(clips)[0].from)
  {
    if |layers| != 1 {
      return Err(LayerCount);
    }
    var clips := layers[0];
    ghost var before := clips[..];
    var description := Description(ctx, clips.Length);
    var tasks, entries, missing := PrepareCuts(ctx, clips[..]);
    if missing.Some? {
      return Err(MissingFile(missing.value));
    }
    Sort(clips);
    var warnings := CheckGaps(clips);
    if clips.Length == 0 {
      return Err(NoClips);
    }
    var fileKeys := FileKeys(ctx, entries, clips[..]);
    if clips[0].from != 0.0 {
      warnings := warnings + [NotAtZero];
      ShiftToZero(clips);
    } else {
      assert Shifted(clips[..], 0.0) == clips[..];
    }
    var splice := BuiltTask("Splice", ArtifactDependencies(entries), SpliceParameters(fileKeys), FinalVideoPath(ctx));
    var criteria := [CompletionCriteria(ArtifactType, FinalVideoPath(ctx))];
    return Ok(RenderResult(CreateWorkflow(ctx.sceneId, description, tasks + [splice], criteria), warnings));
  }
}
