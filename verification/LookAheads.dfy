/** The look-ahead of a hold request, and the confluence of a worker's two event streams. */
module LookAheads {
  import opened WorkflowTypes
  import opened SchedulerModel
  import opened NodeMachine
  import opened Placement
  import opened Frontier
  import opened WorkflowGraph

  /** An offered node has an incoming edge that only the success of the node in work satisfies. */
  lemma OfferedBy(s: State, n: NodeId, m: NodeId) returns (e: EdgeDto)
    requires WF(s) && Closed(s) && n in s.wf.nodes && m in LookAhead(s, n)
    ensures m in s.wf.nodes && e in s.wf.nodes[m].edges && e.toId == m && !Satisfied(e, s.status, s.published)
    ensures Satisfied(e, s.status[n := Succeeded], s.published + ToSet(s.wf.nodes[n].task.results))
  {
    assert m in ReadySet(s.wf, s.status[n := Succeeded], s.published + ToSet(s.wf.nodes[n].task.results));
    assert !IsReady(m, s.wf, s.status, s.published);
    e :| e in s.wf.nodes[m].edges && e.toId == m && !Satisfied(e, s.status, s.published);
  }

  /** Every node that the look-ahead offers depends directly on the node in work. */
  lemma LookAheadIsDirect(s: State, n: NodeId, m: NodeId)
    requires WF(s) && Closed(s) && EdgesResolved(s.wf) && UniqueProducers(s.wf)
    requires n in s.wf.nodes && m in LookAhead(s, n)
    ensures m in s.wf.nodes && exists e :: e in s.wf.nodes[m].edges && e.toId == m && e.fromId == n
  {
    var e := OfferedBy(s, n, m);
    assert e.fromId == n;
  }

  // ---------------------------------------------------------------- interleavings

  /** Events that touch neither statuses nor artifacts: heartbeats and dispatch. */
  predicate Quiet(e: Event) {
    e.Beat? || e.GoesStale? || (e.Perform? && !e.call.RequeueHeld?)
  }

  /** `run` is the streams `a` and `b`, each in order, with quiet events anywhere. */
  predicate Interleaves(a: seq<Event>, b: seq<Event>, run: seq<Event>)
    decreases run
  {
    if run == [] then a == [] && b == []
    else
      || (Quiet(run[0]) && Interleaves(a, b, run[1..]))
      || (a != [] && run[0] == a[0] && Interleaves(a[1..], b, run[1..]))
      || (b != [] && run[0] == b[0] && Interleaves(a, b[1..], run[1..]))
  }

  function Uploads(n: NodeId, results: seq<ArtifactId>): (r: seq<Event>)
    ensures |r| == |results|
  {
    if results == [] then [] else [Uploaded(n, results[0])] + Uploads(n, results[1..])
  }

  /** The rest of a worker's reports on a node, given the node's status. */
  predicate Reports(tasks: seq<Event>, w: string, n: NodeId, st: DagNodeStatus) {
    || (st in Proceeding(Running) && tasks == [Started(w, n), Completed(w, n)])
    || (st in {Running, Succeeded} && tasks == [Completed(w, n)])
    || (st == Succeeded && tasks == [])
  }

  // ---------------------------------------------------------------- closed form

  /** The statuses of `s` when node `n` has status `st` and the given artifacts are
      published, before newly enabled nodes are queued. */
  function Base(s: State, n: NodeId, st: DagNodeStatus, published: set<ArtifactId>): map<NodeId, DagNodeStatus>
    requires WF(s)
  {
    map m | m in s.status ::
      if m == n then st
      else if s.status[m] == Running && published != s.published && CriteriaMet(s.wf.nodes[m].task, published)
      then Succeeded
      else s.status[m]
  }

  function Enable(base: map<NodeId, DagNodeStatus>, ready: set<NodeId>): map<NodeId, DagNodeStatus> {
    map m | m in base :: if m in ready then Queued else base[m]
  }

  function Settle(wf: Workflow, base: map<NodeId, DagNodeStatus>, published: set<ArtifactId>)
    : map<NodeId, DagNodeStatus>
  {
    Enable(base, ReadySet(wf, base, published))
  }

  /** State `t` is what `s` becomes when node `n` reaches `st` and the artifacts grow. */
  ghost predicate Settled(s: State, t: State, n: NodeId, st: DagNodeStatus) {
    && WF(s) && WF(t) && t.wf == s.wf && s.published <= t.published
    && t.status == Settle(s.wf, Base(s, n, st, t.published), t.published)
  }

  lemma CriteriaGrow(task: Task, p: set<ArtifactId>, q: set<ArtifactId>)
    requires p <= q && CriteriaMet(task, p)
    ensures CriteriaMet(task, q)
  {}

  lemma SettledStart(s: State, n: NodeId)
    requires WF(s) && Closed(s) && n in s.status
    ensures Settled(s, s, n, s.status[n])
  {
    assert Base(s, n, s.status[n], s.published) == s.status;
  }

  /** Statuses that only differ in which Pending nodes were queued settle alike. */
  lemma SettleAgain(wf: Workflow, base: map<NodeId, DagNodeStatus>, mid: map<NodeId, DagNodeStatus>,
                    published: set<ArtifactId>)
    requires base.Keys == mid.Keys == wf.nodes.Keys && ToSet(wf.order) == wf.nodes.Keys
    requires forall m :: m in base ==> mid[m] == base[m] || (mid[m] == Queued && m in ReadySet(wf, base, published))
    ensures MarkAll(mid, Outstanding(wf, mid, published), Queued) == Settle(wf, base, published)
  {
    forall m | m in base
      ensures AllMet(m, wf.nodes[m].edges, mid, published) == AllMet(m, wf.nodes[m].edges, base, published) {
      forall e ensures Satisfied(e, mid, published) == Satisfied(e, base, published) {}
    }
    forall m | m in base ensures m in wf.order { assert m in ToSet(wf.order); }
  }

  /** More artifacts and a later status of `n` keep a queued node enabled. */
  lemma ReadyStays(s: State, n: NodeId, st: DagNodeStatus, p: set<ArtifactId>, st': DagNodeStatus, p': set<ArtifactId>,
                   m: NodeId)
    requires WF(s) && n in s.status && s.published <= p <= p' && st != Pending && st' != Pending
    requires st == Succeeded ==> st' == Succeeded
    requires m in ReadySet(s.wf, Base(s, n, st, p), p)
    ensures m in ReadySet(s.wf, Base(s, n, st', p'), p')
  {
    var (b, b') := (Base(s, n, st, p), Base(s, n, st', p'));
    forall k | k in b && b[k] == Succeeded ensures b'[k] == Succeeded {
      if k != n && s.status[k] == Running { CriteriaGrow(s.wf.nodes[k].task, p, p'); }
    }
    MetMonotone(m, s.wf.nodes[m].edges, b, b', p);
    assert AllMet(m, s.wf.nodes[m].edges, b', p');
  }

  lemma SameReady(s: State, n: NodeId, st: DagNodeStatus, p: set<ArtifactId>)
    requires WF(s) && n in s.status && st in Proceeding(Running)
    ensures ReadySet(s.wf, Base(s, n, st, p), p) == ReadySet(s.wf, Base(s, n, Running, p), p)
    ensures n !in ReadySet(s.wf, Base(s, n, st, p), p)
  {
    forall m | m in s.status { StartedPointwise(s, n, st, p, m); }
  }

  lemma EnableOthers(base: map<NodeId, DagNodeStatus>, ready: set<NodeId>, n: NodeId, st: DagNodeStatus)
    requires n in base && n !in ready
    ensures Enable(base, ready)[n := st] == Enable(base[n := st], ready)
  {}

  lemma BaseRuns(s: State, n: NodeId, st: DagNodeStatus, p: set<ArtifactId>)
    requires WF(s) && n in s.status
    ensures Base(s, n, st, p)[n := Running] == Base(s, n, Running, p)
  {}

  /** A started node settles as Running. */
  lemma SettledRuns(s: State, t: State, n: NodeId, st: DagNodeStatus)
    requires Settled(s, t, n, st) && n in s.status && st in Proceeding(Running)
    ensures t.status[n := Running] == Settle(s.wf, Base(s, n, Running, t.published), t.published)
  {
    var p := t.published;
    SameReady(s, n, st, p);
    EnableOthers(Base(s, n, st, p), ReadySet(s.wf, Base(s, n, st, p), p), n, Running);
    BaseRuns(s, n, st, p);
  }

  lemma SettledStarted(s: State, t: State, w: string, n: NodeId, st: DagNodeStatus)
    requires Settled(s, t, n, st) && n in s.status && st in Proceeding(Running)
    ensures Settled(s, Step(t, Started(w, n)), n, Running) && Step(t, Started(w, n)).published == t.published
  {
    SettledAt(s, t, n, st);
    StartEffect(t, w, n);
    SettledRuns(s, t, n, st);
  }

  lemma SettledAt(s: State, t: State, n: NodeId, st: DagNodeStatus)
    requires Settled(s, t, n, st) && n in s.status && st != Pending
    ensures n in t.status && t.status[n] == st
  {}

  lemma StartEffect(t: State, w: string, n: NodeId)
    requires WF(t) && n in t.status && t.status[n] in Proceeding(Running)
    ensures Step(t, Started(w, n)) == Mark(t, n, Running)
  {}

  /** Starting a node enables no other node. */
  lemma StartedPointwise(s: State, n: NodeId, st: DagNodeStatus, published: set<ArtifactId>, m: NodeId)
    requires WF(s) && n in s.status && m in s.status && st in Proceeding(Running)
    ensures m in ReadySet(s.wf, Base(s, n, st, published), published) <==>
            m in ReadySet(s.wf, Base(s, n, Running, published), published)
  {
    var (b, b') := (Base(s, n, st, published), Base(s, n, Running, published));
    if m in ReadySet(s.wf, b, published) { MetMonotone(m, s.wf.nodes[m].edges, b, b', published); }
    if m in ReadySet(s.wf, b', published) { MetMonotone(m, s.wf.nodes[m].edges, b', b, published); }
  }

  lemma CompletedPointwise(s: State, t: State, n: NodeId, m: NodeId)
    requires Settled(s, t, n, Running) && n in s.status && m in Base(s, n, Succeeded, t.published)
    ensures var b' := Base(s, n, Succeeded, t.published);
            && m in t.status
            && (t.status[n := Succeeded][m] == b'[m]
                || (t.status[n := Succeeded][m] == Queued && m in ReadySet(s.wf, b', t.published)))
  {
    if m in ReadySet(s.wf, Base(s, n, Running, t.published), t.published) {
      ReadyStays(s, n, Running, t.published, Succeeded, t.published, m);
    }
  }

  lemma CompletionSettles(s: State, t: State, n: NodeId)
    requires Settled(s, t, n, Running) && n in s.status
    ensures var status := t.status[n := Succeeded];
            MarkAll(status, Outstanding(s.wf, status, t.published), Queued) ==
            Settle(s.wf, Base(s, n, Succeeded, t.published), t.published)
  {
    var b' := Base(s, n, Succeeded, t.published);
    forall m | m in b' { CompletedPointwise(s, t, n, m); }
    SettleAgain(s.wf, b', t.status[n := Succeeded], t.published);
  }

  lemma SettledCompleted(s: State, t: State, w: string, n: NodeId)
    requires Settled(s, t, n, Running) && n in s.status
    ensures Settled(s, Step(t, Completed(w, n)), n, Succeeded) && Step(t, Completed(w, n)).published == t.published
  {
    SettledAt(s, t, n, Running);
    CompletionSettles(s, t, n);
    CompletedEffect(t, n);
  }

  lemma CompletedEffect(t: State, n: NodeId)
    requires WF(t) && n in t.status && t.status[n] == Running
    ensures var (r, status) := (TaskCompleted(t, n), t.status[n := Succeeded]);
            && r.status == MarkAll(status, Outstanding(t.wf, status, t.published), Queued)
            && r.published == t.published && r.wf == t.wf
  {
    QueueOutstandingEffect(Mark(t, n, Succeeded));
  }

  /** The status of `n` after a new artifact. */
  function AfterUpload(s: State, n: NodeId, st: DagNodeStatus, published: set<ArtifactId>): DagNodeStatus
    requires WF(s) && n in s.wf.nodes
  {
    if st == Running && CriteriaMet(s.wf.nodes[n].task, published) then Succeeded else st
  }

  lemma UploadedPointwise(s: State, t: State, n: NodeId, st: DagNodeStatus, p: set<ArtifactId>, m: NodeId)
    requires Settled(s, t, n, st) && n in s.wf.nodes && st != Pending
    requires t.published <= p && p != t.published && m in s.status
    ensures var done := Select(t.wf.order, CompleteSet(t.wf, t.status, p));
            var mid, b' := MarkAll(t.status, done, Succeeded), Base(s, n, AfterUpload(s, n, st, p), p);
            mid[m] == b'[m] || (mid[m] == Queued && m in ReadySet(s.wf, b', p))
  {
    assert m in ToSet(s.wf.order);
    if m in ReadySet(s.wf, Base(s, n, st, t.published), t.published) {
      ReadyStays(s, n, st, t.published, AfterUpload(s, n, st, p), p, m);
    } else if m != n && s.status[m] == Running && CriteriaMet(s.wf.nodes[m].task, t.published) {
      CriteriaGrow(s.wf.nodes[m].task, t.published, p);
    }
  }

  lemma SettledUploaded(s: State, t: State, n: NodeId, st: DagNodeStatus, a: ArtifactId)
    requires Settled(s, t, n, st) && n in s.wf.nodes && st != Pending && a !in t.published
    ensures Settled(s, ArtifactUploaded(t, n, a), n, AfterUpload(s, n, st, t.published + {a}))
  {
    var p := t.published + {a};
    var done := Select(t.wf.order, CompleteSet(t.wf, t.status, p));
    var mid := t.(status := MarkAll(t.status, done, Succeeded), published := p);
    assert Base(s, n, AfterUpload(s, n, st, p), p).Keys == s.wf.nodes.Keys;
    forall m | m in s.status { UploadedPointwise(s, t, n, st, p, m); }
    SettleAgain(s.wf, Base(s, n, AfterUpload(s, n, st, p), p), mid.status, p);
    QueueOutstandingEffect(mid);
  }

  lemma QuietKeeps(t: State, e: Event)
    requires WF(t) && Quiet(e)
    ensures Step(t, e).status == t.status && Step(t, e).published == t.published && Step(t, e).wf == t.wf
  {
    if e.Perform? && e.call in t.calls { DispatchKeepsNodes(t.(calls := t.calls - multiset{e.call}), e.call); }
  }

  // ---------------------------------------------------------------- confluence

  /** What the reports still to come, together with the state reached, add up to. */
  ghost predicate OnTrack(s: State, t: State, w: string, n: NodeId, st: DagNodeStatus, tasks: seq<Event>) {
    Settled(s, t, n, st) && n in s.wf.nodes && Reports(tasks, w, n, st)
  }

  lemma UploadEffect(t: State, n: NodeId, a: ArtifactId)
    requires WF(t) && n in t.wf.nodes
    ensures ArtifactUploaded(t, n, a).published == t.published + {a}
    ensures a in t.published ==> ArtifactUploaded(t, n, a) == t
  {}

  lemma ReportsLater(s: State, w: string, n: NodeId, st: DagNodeStatus, p: set<ArtifactId>, tasks: seq<Event>)
    requires WF(s) && n in s.wf.nodes && Reports(tasks, w, n, st)
    ensures Reports(tasks, w, n, AfterUpload(s, n, st, p)) && st != Pending
  {}

  lemma NewUploadOnTrack(s: State, t: State, w: string, n: NodeId, st: DagNodeStatus, tasks: seq<Event>, a: ArtifactId)
    requires OnTrack(s, t, w, n, st, tasks) && a !in t.published
    ensures OnTrack(s, ArtifactUploaded(t, n, a), w, n, AfterUpload(s, n, st, t.published + {a}), tasks)
  {
    ReportsLater(s, w, n, st, t.published + {a}, tasks);
    SettledUploaded(s, t, n, st, a);
  }

  lemma UploadOnTrack(s: State, t: State, w: string, n: NodeId, st: DagNodeStatus, tasks: seq<Event>, a: ArtifactId)
    returns (st': DagNodeStatus)
    requires OnTrack(s, t, w, n, st, tasks)
    ensures OnTrack(s, ArtifactUploaded(t, n, a), w, n, st', tasks)
    ensures ArtifactUploaded(t, n, a).published == t.published + {a}
  {
    UploadEffect(t, n, a);
    if a in t.published {
      st' := st;
    } else {
      st' := AfterUpload(s, n, st, t.published + {a});
      NewUploadOnTrack(s, t, w, n, st, tasks, a);
    }
  }

  /** The next report starts or completes the node, and the rest goes on from there. */
  lemma NextReport(tasks: seq<Event>, w: string, n: NodeId, st: DagNodeStatus)
    requires Reports(tasks, w, n, st) && tasks != []
    ensures if st in Proceeding(Running) then tasks[0] == Started(w, n) && Reports(tasks[1..], w, n, Running)
            else st in {Running, Succeeded} && tasks[0] == Completed(w, n) && Reports(tasks[1..], w, n, Succeeded)
  {}

  lemma ReportOnTrack(s: State, t: State, w: string, n: NodeId, st: DagNodeStatus, tasks: seq<Event>)
    returns (st': DagNodeStatus)
    requires OnTrack(s, t, w, n, st, tasks) && tasks != []
    ensures OnTrack(s, Step(t, tasks[0]), w, n, st', tasks[1..])
    ensures Step(t, tasks[0]).published == t.published
  {
    NextReport(tasks, w, n, st);
    if st in Proceeding(Running) {
      st' := Running;
      SettledStarted(s, t, w, n, st);
    } else {
      st' := Succeeded;
      CompletionOnTrack(s, t, w, n, st);
    }
  }

  lemma CompletesOnce(t: State, w: string, n: NodeId)
    requires WF(t) && n in t.status && t.status[n] == Succeeded
    ensures Step(t, Completed(w, n)) == t
  {}

  lemma CompletionOnTrack(s: State, t: State, w: string, n: NodeId, st: DagNodeStatus)
    requires Settled(s, t, n, st) && n in s.wf.nodes && st in {Running, Succeeded}
    ensures Settled(s, Step(t, Completed(w, n)), n, Succeeded) && Step(t, Completed(w, n)).published == t.published
  {
    if st == Running {
      SettledCompleted(s, t, w, n);
    } else {
      SettledAt(s, t, n, st);
      CompletesOnce(t, w, n);
    }
  }

  lemma QuietOnTrack(s: State, t: State, w: string, n: NodeId, st: DagNodeStatus, tasks: seq<Event>, e: Event)
    requires OnTrack(s, t, w, n, st, tasks) && Quiet(e)
    ensures OnTrack(s, Step(t, e), w, n, st, tasks)
    ensures Step(t, e).published == t.published
  {
    QuietKeeps(t, e);
    SameOnTrack(s, t, Step(t, e), w, n, st, tasks);
  }

  lemma SameOnTrack(s: State, t: State, next: State, w: string, n: NodeId, st: DagNodeStatus, tasks: seq<Event>)
    requires OnTrack(s, t, w, n, st, tasks) && WF(next)
    requires next.status == t.status && next.published == t.published && next.wf == t.wf
    ensures OnTrack(s, next, w, n, st, tasks)
  {}

  lemma FirstResult(results: seq<ArtifactId>, published: set<ArtifactId>)
    requires results != []
    ensures (published + {results[0]}) + ToSet(results[1..]) == published + ToSet(results)
  {
    assert ToSet(results) == {results[0]} + ToSet(results[1..]);
  }

  lemma NextUpload(n: NodeId, results: seq<ArtifactId>)
    requires Uploads(n, results) != []
    ensures results != [] && Uploads(n, results)[0] == Uploaded(n, results[0])
    ensures Uploads(n, results)[1..] == Uploads(n, results[1..])
  {}

  lemma UploadEventOnTrack(s: State, t: State, w: string, n: NodeId, st: DagNodeStatus, tasks: seq<Event>,
                           results: seq<ArtifactId>, e: Event)
    returns (st': DagNodeStatus)
    requires OnTrack(s, t, w, n, st, tasks) && results != [] && e == Uploaded(n, results[0])
    ensures OnTrack(s, Step(t, e), w, n, st', tasks)
    ensures Step(t, e).published + ToSet(results[1..]) == t.published + ToSet(results)
  {
    st' := UploadOnTrack(s, t, w, n, st, tasks, results[0]);
    FirstResult(results, t.published);
  }

  /** One event of an interleaving. */
  lemma EventOnTrack(s: State, t: State, w: string, n: NodeId, st: DagNodeStatus,
                     tasks: seq<Event>, results: seq<ArtifactId>, run: seq<Event>)
    returns (next: State, st': DagNodeStatus, tasks': seq<Event>, results': seq<ArtifactId>)
    requires OnTrack(s, t, w, n, st, tasks) && run != []
    requires Interleaves(tasks, Uploads(n, results), run)
    ensures OnTrack(s, next, w, n, st', tasks') && Interleaves(tasks', Uploads(n, results'), run[1..])
    ensures next.published + ToSet(results') == t.published + ToSet(results)
    ensures next == Step(t, run[0])
  {
    next, st', tasks', results' := Step(t, run[0]), st, tasks, results;
    if Quiet(run[0]) && Interleaves(tasks, Uploads(n, results), run[1..]) {
      QuietOnTrack(s, t, w, n, st, tasks, run[0]);
    } else if tasks != [] && run[0] == tasks[0] && Interleaves(tasks[1..], Uploads(n, results), run[1..]) {
      st' := ReportOnTrack(s, t, w, n, st, tasks);
      tasks' := tasks[1..];
    } else {
      NextUpload(n, results);
      st' := UploadEventOnTrack(s, t, w, n, st, tasks, results, run[0]);
      results' := results[1..];
    }
  }

  lemma {:induction false} InterleavingSettles(s: State, t: State, w: string, n: NodeId, st: DagNodeStatus,
                                              tasks: seq<Event>, results: seq<ArtifactId>, run: seq<Event>)
    requires OnTrack(s, t, w, n, st, tasks)
    requires Interleaves(tasks, Uploads(n, results), run)
    ensures Settled(s, Exec(t, run), n, Succeeded)
    ensures Exec(t, run).published == t.published + ToSet(results)
    decreases run
  {
    if run == [] {
      assert results == [];
    } else {
      var next, st', tasks', results' := EventOnTrack(s, t, w, n, st, tasks, results, run);
      InterleavingSettles(s, next, w, n, st', tasks', results', run[1..]);
    }
  }

  /** Whatever the interleaving of a worker's task reports with its artifact reports, and
      whatever dispatch happens in between, the node succeeds, its results are published
      and every other node ends in the same status. */
  lemma Confluence(s: State, w: string, n: NodeId, tasks: seq<Event>, run1: seq<Event>, run2: seq<Event>)
    requires WF(s) && Closed(s) && n in s.wf.nodes && Reports(tasks, w, n, s.status[n])
    requires Interleaves(tasks, Uploads(n, s.wf.nodes[n].task.results), run1)
    requires Interleaves(tasks, Uploads(n, s.wf.nodes[n].task.results), run2)
    ensures Exec(s, run1).status == Exec(s, run2).status
    ensures Exec(s, run1).status[n] == Succeeded
    ensures Exec(s, run1).published == Exec(s, run2).published == s.published + ToSet(s.wf.nodes[n].task.results)
  {
    SettledStart(s, n);
    InterleavingSettles(s, s, w, n, s.status[n], tasks, s.wf.nodes[n].task.results, run1);
    InterleavingSettles(s, s, w, n, s.status[n], tasks, s.wf.nodes[n].task.results, run2);
  }

  /** Another Running node completes by the artifacts that come with the node in work. */
  predicate CompletesToo(s: State, n: NodeId, k: NodeId, published: set<ArtifactId>) {
    && k != n && k in s.wf.nodes && k in s.status && s.status[k] == Running
    && published != s.published && CriteriaMet(s.wf.nodes[k].task, published)
  }

  /** The node has a task dependency on such a node. */
  ghost predicate NeedsAnother(s: State, n: NodeId, m: NodeId, published: set<ArtifactId>) {
    && m in s.wf.nodes
    && exists e ::
         && e in s.wf.nodes[m].edges && e.toId == m && e.conditionType == TaskType
         && CompletesToo(s, n, e.fromId, published)
  }

  /** Being ready with and without the other completions. */
  lemma ReadyUnlessNeeded(s: State, n: NodeId, m: NodeId, published: set<ArtifactId>)
    requires WF(s) && n in s.wf.nodes && m in s.wf.nodes && s.published <= published
    ensures m in ReadySet(s.wf, s.status[n := Succeeded], published) <==>
            m in ReadySet(s.wf, Base(s, n, Succeeded, published), published) && !NeedsAnother(s, n, m, published)
  {
    var (alone, all) := (s.status[n := Succeeded], Base(s, n, Succeeded, published));
    if m in ReadySet(s.wf, alone, published) {
      MetMonotone(m, s.wf.nodes[m].edges, alone, all, published);
    }
    if m in ReadySet(s.wf, all, published) && !NeedsAnother(s, n, m, published) {
      forall e | e in s.wf.nodes[m].edges && e.toId == m ensures Satisfied(e, alone, published) {
        assert Satisfied(e, all, published);
      }
    }
  }

  lemma OfferedIsReady(s: State, n: NodeId, m: NodeId)
    requires WF(s) && n in s.wf.nodes && m in s.wf.nodes
    ensures m in LookAhead(s, n) <==>
            m in ReadySet(s.wf, s.status[n := Succeeded], s.published + ToSet(s.wf.nodes[n].task.results))
  {
    assert m in ToSet(s.wf.order);
  }

  lemma SettledQueued(s: State, t: State, n: NodeId, m: NodeId)
    requires Settled(s, t, n, Succeeded) && n in s.wf.nodes && m in s.wf.nodes
    ensures m in ReadySet(s.wf, Base(s, n, Succeeded, t.published), t.published) <==>
            m != n && s.status[m] == Pending && t.status[m] == Queued
  {}

  /** The look-ahead of a hold request offers exactly the nodes that will be queued by the
      time the worker's node has reported everything, except those that wait for another
      Running node which completes by the same artifacts. */
  lemma LookAheadFaithful(s: State, w: string, n: NodeId, tasks: seq<Event>, run: seq<Event>, m: NodeId)
    requires WF(s) && Closed(s) && n in s.wf.nodes && Reports(tasks, w, n, s.status[n])
    requires Interleaves(tasks, Uploads(n, s.wf.nodes[n].task.results), run)
    requires m in s.wf.nodes
    ensures m in LookAhead(s, n) <==>
            && s.status[m] == Pending && Exec(s, run).status[m] == Queued
            && !NeedsAnother(s, n, m, s.published + ToSet(s.wf.nodes[n].task.results))
  {
    SettledStart(s, n);
    InterleavingSettles(s, s, w, n, s.status[n], tasks, s.wf.nodes[n].task.results, run);
    OfferedIsReady(s, n, m);
    ReadyUnlessNeeded(s, n, m, s.published + ToSet(s.wf.nodes[n].task.results));
    SettledQueued(s, Exec(s, run), n, m);
  }
}
