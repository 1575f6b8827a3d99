/** When a workflow can still be completed: from a reachable state, honest reports and
    heartbeats lead to the success of every node exactly if nothing has failed for good or was
    canceled, no task on hold was dropped, and no tasks wait for each other. */
module Completion {
  import opened WorkflowTypes
  import opened SchedulerModel
  import opened NodeMachine
  import opened Placement
  import opened Frontier
  import opened Termination
  import opened Progress
  import opened WorkflowGraph
  import opened DagParser
  import opened ParserGuarantees
  import opened Guarantees
  import opened Blocking
  import opened Feasibility
  import opened Dropped

  // ---------------------------------------------------------------- worker names

  ghost predicate KeepsNames(s: State, t: State) {
    |t.workers| == |s.workers| && forall i :: 0 <= i < |s.workers| ==> t.workers[i].name == s.workers[i].name
  }

  lemma {:induction false} HoldKeepsNames(s: State, i: nat, preferred: seq<NodeId>, attempts: nat)
    requires WF(s) && i < |s.workers|
    ensures KeepsNames(s, PutOnHold(s, i, preferred, attempts))
    decreases attempts
  {
    if attempts != 0 {
      var (rest, task) := HoldCandidate(s, preferred);
      if !(task.Some? && CanMove(rest, task.value.nodeId, OnHold)) { HoldKeepsNames(rest, i, preferred, attempts - 1); }
    }
  }

  lemma {:induction false} RequeueKeepsNames(s: State, i: nat, held: seq<QueuedTask>)
    requires WF(s) && i < |s.workers|
    ensures KeepsNames(s, RequeueAllHeld(s, i, held))
    decreases held
  {
    if held != [] {
      if CanMove(s, held[0].nodeId, Queued) {
        RequeueKeepsNames(PopHold(QueueNode(s, held[0].nodeId), i), i, held[1..]);
      } else {
        RequeueKeepsNames(s, i, held[1..]);
      }
    }
  }

  lemma NextTaskKeepsNames(s: State, i: nat)
    requires WF(s) && i < |s.workers|
    ensures KeepsNames(s, NextTask(s, i).0)
  {}

  lemma WorkKeepsNames(s: State, t: State, i: nat, n: NodeId)
    requires WF(s) && WF(t) && KeepsNames(s, t) && i < |t.workers|
    ensures KeepsNames(s, Assign(t, i, n)) && KeepsNames(s, ClearWork(t, i)) && KeepsNames(s, Enqueue(t, n))
  {}

  lemma AfterNodeKeepsNames(s: State, n: NodeId)
    requires WF(s)
    ensures KeepsNames(s, RunAfterNode(s, n))
  {
    var i := FindWorkingOn(s.workers, n);
    if i < |s.workers| {
      var (taken, task) := NextTask(s, i);
      NextTaskKeepsNames(s, i);
      WorkKeepsNames(s, taken, i, if task.Some? then task.value.nodeId else n);
    }
  }

  lemma ForFreeWorkerKeepsNames(s: State, w: string)
    requires WF(s)
    ensures KeepsNames(s, RunForFreeWorker(s, w))
  {
    var i := FindWorker(s.workers, w);
    if i < |s.workers| {
      var (taken, task) := NextTask(s, i);
      NextTaskKeepsNames(s, i);
      if task.Some? { WorkKeepsNames(s, taken, i, task.value.nodeId); }
    }
  }

  lemma CallKeepsNames(s: State, c: Call)
    requires WF(s)
    ensures KeepsNames(s, RunCall(s, c))
  {
    match c
    case AfterNode(n) => AfterNodeKeepsNames(s, n);
    case ForFreeWorker(w) => ForFreeWorkerKeepsNames(s, w);
    case RequeueHeld(w) =>
      var i := FindWorker(s.workers, w);
      if i < |s.workers| { RequeueKeepsNames(s, i, s.workers[i].nodesOnHold); }
  }

  lemma FailedKeepsNames(s: State, n: NodeId)
    requires WF(s)
    ensures KeepsNames(s, TaskFailed(s, n))
  {
    if CanMove(s, n, Failed) {
      var failed := MarkFailed(s, n);
      ClearKeepsNames(if Exhausted(failed, n) then CancelFirst(failed) else QueueNode(failed, n), n);
    }
  }

  lemma ClearKeepsNames(s: State, n: NodeId)
    requires WF(s)
    ensures KeepsNames(s, ClearWorkOn(s, n))
  {}

  lemma HeartbeatNames(s: State, w: string)
    requires WF(s) && UniqueNames(s.workers)
    ensures UniqueNames(Heartbeat(s, w).workers)
  {}

  lemma StaleKeepsNames(s: State, w: string)
    requires WF(s)
    ensures KeepsNames(s, BecomesStale(s, w))
  {}

  /** No step gives two workers the same name. */
  lemma StepKeepsNames(s: State, e: Event)
    requires WF(s) && UniqueNames(s.workers)
    ensures UniqueNames(Step(s, e).workers)
  {
    match e
    case Started(_, _) =>
    case Completed(_, _) =>
    case Uploaded(_, _) =>
    case FailedEvent(_, n) => FailedKeepsNames(s, n);
    case HoldRequest(w) =>
      if HoldAccepted(s, w) { HoldKeepsNames(s, FindWorker(s.workers, w), Preferred(s, w), HOLD_ATTEMPTS); }
    case Perform(c) =>
      if c in s.calls {
        PerformRuns(s, c);
        CallKeepsNames(TakeCall(s, c), c);
      }
    case Beat(w) => HeartbeatNames(s, w);
    case GoesStale(w) => StaleKeepsNames(s, w);
  }

  lemma {:induction false} RunKeepsNames(s: State, es: seq<Event>)
    requires WF(s) && UniqueNames(s.workers)
    ensures UniqueNames(Exec(s, es).workers)
    decreases es
  {
    if es != [] {
      StepKeepsNames(s, es[0]);
      RunKeepsNames(Step(s, es[0]), es[1..]);
    }
  }

  /** A name that no worker has. */
  function NewName(ws: seq<Worker>): (r: string)
    ensures forall i :: 0 <= i < |ws| ==> |ws[i].name| < |r|
    ensures forall i :: 0 <= i < |ws| ==> ws[i].name != r
  {
    if ws == [] then "w"
    else
      var rest := NewName(ws[1..]);
      assert forall i :: 1 <= i < |ws| ==> ws[i] == ws[1..][i - 1];
      ws[0].name + rest
  }

  // ---------------------------------------------------------------- healthy states

  /** Nothing has failed for good or was canceled. */
  ghost predicate Unharmed(s: State) {
    forall n :: n in s.status ==> s.status[n] !in {Failed, Canceled}
  }

  /** Every task on hold is in the queue, in a hold list or with a worker. */
  ghost predicate HoldsPlaced(s: State) {
    forall n :: n in s.status && s.status[n] == OnHold ==> Places(s, n) == 1
  }

  ghost predicate Healthy(s: State) {
    Inv(s, true) && Closed(s) && WithinBudget(s) && UniqueNames(s.workers) && Unharmed(s)
  }

  /** The events that complete a workflow: reports of success, heartbeats, their absence, and
      dispatch. */
  predicate Gentle(e: Event) {
    || e.Started? || e.Completed? || e.Uploaded? || e.Beat? || e.GoesStale?
    || (e.Perform? && e.call.ForFreeWorker?)
  }

  lemma GentleSparesNode(s: State, e: Event, n: NodeId)
    requires WF(s) && Gentle(e) && n in s.status && s.status[n] !in {Failed, Canceled}
    ensures Step(s, e).status[n] !in {Failed, Canceled}
  {
    StepMoves(s, e, n);
  }

  lemma GentleSpares(s: State, e: Event)
    requires WF(s) && Unharmed(s) && Gentle(e)
    ensures Unharmed(Step(s, e))
  {
    forall n | n in s.status { GentleSparesNode(s, e, n); }
  }

  lemma GentleKeeps(s: State, e: Event)
    requires Healthy(s) && Honest(s, e) && Gentle(e)
    ensures Healthy(Step(s, e))
  {
    Loose(s, true);
    StepKeeps(s, e, true);
    StepCloses(s, e);
    StepKeepsBudget(s, e);
    StepKeepsNames(s, e);
    GentleSpares(s, e);
  }

  // ---------------------------------------------------------------- what is left to do

  function Left(s: State): int
    requires WF(s)
  {
    assert forall n :: n in s.wf.order ==> n in ToSet(s.wf.order);
    Measure(s.wf, NodesOf(s), s.wf.order)
  }

  function MissingResults(s: State): set<ArtifactId> {
    (set n, a | n in s.wf.nodes && a in s.wf.nodes[n].task.results :: a) - s.published
  }

  lemma {:induction false} ChangesShow(m: Machine, ops: seq<CasOp>)
    requires WellFormed(m) && CasRun(m, ops) != m
    ensures Changes(m, ops) > 0
    decreases ops
  {
    if ops != [] && Cas(m, ops[0]) == m { ChangesShow(m, ops[1..]); }
  }

  lemma LeftDrops(s: State, e: Event)
    requires WF(s)
    ensures Left(Step(s, e)) <= Left(s)
    ensures Step(s, e).status != s.status ==> Left(Step(s, e)) < Left(s)
  {
    var t := Step(s, e);
    StepIsCas(s, e);
    ChangesLowerMeasure(s.wf, NodesOf(s), OpsOf(s, e));
    if t.status != s.status {
      assert NodesOf(t) != NodesOf(s);
      ChangesShow(NodesOf(s), OpsOf(s, e));
    }
  }

  function HeldCount(ws: seq<Worker>): nat {
    if ws == [] then 0 else |ws[0].nodesOnHold| + HeldCount(ws[1..])
  }

  lemma {:induction false} HeldUpdate(ws: seq<Worker>, i: nat, w: Worker)
    requires i < |ws|
    ensures HeldCount(ws[i := w]) + |ws[i].nodesOnHold| == HeldCount(ws) + |w.nodesOnHold|
  {
    if i == 0 {
      assert ws[i := w][1..] == ws[1..];
    } else {
      assert ws[i := w][1..] == ws[1..][i - 1 := w];
      HeldUpdate(ws[1..], i - 1, w);
    }
  }

  lemma {:induction false} HeldAppend(ws: seq<Worker>, w: Worker)
    ensures HeldCount(ws + [w]) == HeldCount(ws) + |w.nodesOnHold|
  {
    if ws == [] {
      assert [w][1..] == [];
      assert ws + [w] == [w];
    } else {
      assert (ws + [w])[1..] == ws[1..] + [w];
      HeldAppend(ws[1..], w);
    }
  }

  /** `t` is closer to completion than `s`. */
  ghost predicate Closer(t: State, s: State)
    requires WF(s) && WF(t)
  {
    || Left(t) < Left(s)
    || (Left(t) == Left(s) && |MissingResults(t)| < |MissingResults(s)|)
    || (&& Left(t) == Left(s) && MissingResults(t) == MissingResults(s)
        && (|| HeldCount(t.workers) < HeldCount(s.workers)
            || (HeldCount(t.workers) == HeldCount(s.workers) && |t.queue| < |s.queue|)))
  }

  // ---------------------------------------------------------------- one round

  /** What a round achieves. */
  ghost predicate Improves(s: State, es: seq<Event>, own: bool)
    requires WF(s)
  {
    GenuineRun(s, es, own) && Healthy(Exec(s, es)) && Closer(Exec(s, es), s)
  }

  lemma OneGenuine(s: State, e: Event, own: bool)
    requires WF(s) && Honest(s, e) && (own ==> OwnUpload(s, e)) && Healthy(Step(s, e)) && Closer(Step(s, e), s)
    ensures Improves(s, [e], own)
  {
    OneEvent(s, e);
    OneIsGenuine(s, e, own);
  }

  /** A result may be published: it is missing, and its task has succeeded if that is asked for. */
  ghost predicate Publishable(s: State, n: NodeId, a: ArtifactId, own: bool) {
    && n in s.wf.nodes && n in s.status && a in s.wf.nodes[n].task.results && a !in s.published
    && (own ==> s.status[n] == Succeeded)
  }

  lemma PublishEffect(s: State, n: NodeId, a: ArtifactId)
    requires WF(s) && n in s.wf.nodes && a !in s.published
    ensures ArtifactUploaded(s, n, a).published == s.published + {a}
  {}

  lemma FewerMissing(s: State, t: State, n: NodeId, a: ArtifactId)
    requires t.wf == s.wf && t.published == s.published + {a} && a !in s.published
    requires n in s.wf.nodes && a in s.wf.nodes[n].task.results
    ensures |MissingResults(t)| < |MissingResults(s)|
  {
    assert a in MissingResults(s) && MissingResults(t) == MissingResults(s) - {a};
  }

  /** A result is published. */
  lemma PublishRound(s: State, n: NodeId, a: ArtifactId, own: bool) returns (es: seq<Event>)
    requires Healthy(s) && Publishable(s, n, a, own)
    ensures Improves(s, es, own)
  {
    var e := Uploaded(n, a);
    GentleKeeps(s, e);
    LeftDrops(s, e);
    PublishEffect(s, n, a);
    FewerMissing(s, Step(s, e), n, a);
    OneGenuine(s, e, own);
    es := [e];
  }

  lemma StartShows(s: State, n: NodeId)
    requires WF(s) && n in s.status && s.status[n] in {Queued, OnHold}
    ensures TaskStarted(s, n).status[n] == Running
  {}

  /** The worker of a node starts or completes it. */
  lemma ReportRound(s: State, i: nat, n: NodeId, own: bool) returns (es: seq<Event>)
    requires Healthy(s) && i < |s.workers| && s.workers[i].workingOn == Some(n)
    requires n in s.status && s.status[n] in {Queued, OnHold, Running}
    ensures Improves(s, es, own)
  {
    var w := s.workers[i].name;
    FindsByName(s.workers, i);
    if s.status[n] == Running {
      SuccessShows(s, n);
      es := ReportHelps(s, Completed(w, n), n, own);
    } else {
      StartShows(s, n);
      es := ReportHelps(s, Started(w, n), n, own);
    }
  }

  lemma ReportHelps(s: State, e: Event, n: NodeId, own: bool) returns (es: seq<Event>)
    requires Healthy(s) && Honest(s, e) && (e.Started? || e.Completed?)
    requires n in s.status && Step(s, e).status[n] != s.status[n]
    ensures Improves(s, es, own)
  {
    GentleKeeps(s, e);
    LeftDrops(s, e);
    OneGenuine(s, e, own);
    es := [e];
  }

  lemma SameLeft(s: State, t: State)
    requires WF(s) && WF(t) && t.wf == s.wf && t.status == s.status && t.retries == s.retries
             && t.published == s.published
    ensures Left(t) == Left(s) && MissingResults(t) == MissingResults(s)
  {}

  /** Two states in which nodes and artifacts are the same. */
  ghost predicate SameNodes(s: State, t: State) {
    t.wf == s.wf && t.status == s.status && t.retries == s.retries && t.published == s.published
  }

  // ---------------------------------------------------------------- recruiting a worker

  lemma Registers(s: State, w: string)
    requires WF(s) && FindWorker(s.workers, w) == |s.workers|
    ensures Step(s, Beat(w)) ==
            s.(workers := s.workers + [Worker(w, Online, None, [])], calls := s.calls + multiset{ForFreeWorker(w)})
  {}

  lemma HandsOut(s: State, w: string)
    requires WF(s) && s.queue != []
    requires var i := FindWorker(s.workers, w);
             i < |s.workers| && s.workers[i].workingOn.None? && s.workers[i].nodesOnHold == []
    ensures var t := RunForFreeWorker(s, w);
            SameNodes(s, t) && |t.queue| == |s.queue| - 1 && HeldCount(t.workers) == HeldCount(s.workers)
  {
    var i := FindWorker(s.workers, w);
    HeldUpdate(s.workers, i, RunForFreeWorker(s, w).workers[i]);
  }

  lemma {:induction false} LastFound(ws: seq<Worker>, worker: Worker)
    requires forall i :: 0 <= i < |ws| ==> ws[i].name != worker.name
    ensures FindWorker(ws + [worker], worker.name) == |ws|
  {
    if ws != [] {
      assert (ws + [worker])[1..] == ws[1..] + [worker];
      LastFound(ws[1..], worker);
    }
  }

  lemma RecruitEffect(s: State, w: string)
    requires WF(s) && s.queue != [] && forall i :: 0 <= i < |s.workers| ==> s.workers[i].name != w
    ensures var t := Step(Step(s, Beat(w)), Perform(ForFreeWorker(w)));
            SameNodes(s, t) && |t.queue| == |s.queue| - 1 && HeldCount(t.workers) == HeldCount(s.workers)
  {
    var (call, worker) := (ForFreeWorker(w), Worker(w, Online, None, []));
    LastFound(s.workers, worker);
    Registers(s, w);
    HeldAppend(s.workers, worker);
    var joined := Step(s, Beat(w));
    PerformRuns(joined, call);
    HandsOut(TakeCall(joined, call), w);
  }

  lemma TwoGenuine(s: State, a: Event, b: Event, own: bool)
    requires Healthy(s) && Gentle(a) && Gentle(b) && !a.Uploaded? && !b.Uploaded?
    requires Honest(s, a) && Honest(Step(s, a), b)
    ensures GenuineRun(s, [a, b], own) && Healthy(Exec(s, [a, b])) && Exec(s, [a, b]) == Step(Step(s, a), b)
  {
    GentleKeeps(s, a);
    GentleKeeps(Step(s, a), b);
    TwoEvents(s, a, b);
    OneIsGenuine(Step(s, a), b, own);
    assert [a, b][1..] == [b];
  }

  lemma OneIsGenuine(s: State, e: Event, own: bool)
    requires WF(s) && Honest(s, e) && (own ==> OwnUpload(s, e))
    ensures GenuineRun(s, [e], own)
  {
    assert [e][1..] == [];
  }

  /** A new worker registers and is given the head of the queue. */
  lemma RecruitRound(s: State, own: bool) returns (es: seq<Event>)
    requires Healthy(s) && s.queue != []
    ensures Improves(s, es, own)
  {
    var w := NewName(s.workers);
    es := [Beat(w), Perform(ForFreeWorker(w))];
    TwoGenuine(s, Beat(w), Perform(ForFreeWorker(w)), own);
    RecruitEffect(s, w);
    SameLeft(s, Exec(s, es));
  }

  // ---------------------------------------------------------------- releasing a held task

  /** A worker goes stale and comes back: it is then announced as having no work. */
  lemma Returns(s: State, i: nat)
    requires WF(s) && UniqueNames(s.workers) && i < |s.workers|
    ensures var w := s.workers[i].name; var t := Step(Step(s, GoesStale(w)), Beat(w));
            && SameNodes(s, t) && t.queue == s.queue && ForFreeWorker(w) in t.calls
            && t.workers == s.workers[i := s.workers[i].(status := Online)] && FindWorker(t.workers, w) == i
  {
    var w := s.workers[i].name;
    FindsByName(s.workers, i);
    var stale := Step(s, GoesStale(w));
    assert stale == BecomesStale(s, w) && stale.workers == s.workers[i := s.workers[i].(status := Stale)];
    SameNames(s.workers, stale.workers, w);
    assert Step(stale, Beat(w)) == Heartbeat(stale, w);
    SameNames(s.workers, Step(stale, Beat(w)).workers, w);
  }

  lemma Releases(s: State, w: string)
    requires WF(s)
    requires var i := FindWorker(s.workers, w); i < |s.workers| && s.workers[i].nodesOnHold != []
    ensures var t := RunForFreeWorker(s, w); SameNodes(s, t) && HeldCount(t.workers) < HeldCount(s.workers)
  {
    var i := FindWorker(s.workers, w);
    var t := RunForFreeWorker(s, w);
    var popped := PopHold(s, i);
    HeldUpdate(s.workers, i, popped.workers[i]);
    HeldUpdate(popped.workers, i, t.workers[i]);
    assert t.workers == popped.workers[i := t.workers[i]];
  }

  lemma ReleaseEffect(s: State, i: nat)
    requires WF(s) && UniqueNames(s.workers) && i < |s.workers| && s.workers[i].nodesOnHold != []
    ensures var w := s.workers[i].name; var t := Step(Step(Step(s, GoesStale(w)), Beat(w)), Perform(ForFreeWorker(w)));
            SameNodes(s, t) && HeldCount(t.workers) < HeldCount(s.workers)
  {
    var w := s.workers[i].name;
    var back := Step(Step(s, GoesStale(w)), Beat(w));
    Returns(s, i);
    HeldUpdate(s.workers, i, back.workers[i]);
    PerformRuns(back, ForFreeWorker(w));
    Releases(TakeCall(back, ForFreeWorker(w)), w);
  }

  /** A worker gives up its first task on hold, to its own work or to the queue. */
  lemma ReleaseRound(s: State, i: nat, own: bool) returns (es: seq<Event>)
    requires Healthy(s) && i < |s.workers| && s.workers[i].nodesOnHold != []
    ensures Improves(s, es, own)
  {
    var w := s.workers[i].name;
    var (a, b, c) := (GoesStale(w), Beat(w), Perform(ForFreeWorker(w)));
    TwoGenuine(s, a, b, own);
    ReleaseEffect(s, i);
    GentleKeeps(Exec(s, [a, b]), c);
    OneEvent(Exec(s, [a, b]), c);
    OneIsGenuine(Exec(s, [a, b]), c, own);
    ExecConcat(s, [a, b], [c]);
    GenuineConcat(s, [a, b], [c], own);
    es := [a, b] + [c];
    SameLeft(s, Exec(s, es));
  }

  // ---------------------------------------------------------------- progress

  lemma {:induction false} HeldSomewhere(ws: seq<Worker>, n: NodeId)
    requires CountWorkers(ws, n) > 0 && !IsWorkedOn(ws, n)
    ensures exists i :: 0 <= i < |ws| && ws[i].nodesOnHold != []
  {
    if CountAt(ws[0], n) > 0 {
      assert ws[0].workingOn != Some(n);
      assert ws[0].nodesOnHold != [];
    } else {
      forall i | 0 <= i < |ws[1..]| ensures ws[1..][i].workingOn != Some(n) { assert ws[i + 1].workingOn != Some(n); }
      HeldSomewhere(ws[1..], n);
      var i :| 0 <= i < |ws[1..]| && ws[1..][i].nodesOnHold != [];
      assert ws[i + 1].nodesOnHold != [];
    }
  }

  /** A node that is queued, on hold or running can be brought further. */
  lemma BringsOn(s: State, n: NodeId, own: bool) returns (es: seq<Event>)
    requires Healthy(s) && n in s.status && s.status[n] in {Queued, OnHold, Running}
    ensures Improves(s, es, own)
  {
    if IsWorkedOn(s.workers, n) {
      var i :| 0 <= i < |s.workers| && s.workers[i].workingOn == Some(n);
      es := ReportRound(s, i, n, own);
    } else if s.queue != [] {
      es := RecruitRound(s, own);
    } else {
      assert Places(s, n) + InHand(None, n) == 1;
      HeldSomewhere(s.workers, n);
      var i :| 0 <= i < |s.workers| && s.workers[i].nodesOnHold != [];
      es := ReleaseRound(s, i, own);
    }
  }

  /** If nothing can be published or brought further, the Pending nodes wait for each other. */
  lemma IdleIsBlocked(s: State, own: bool)
    requires WF(s) && Closed(s) && EdgesResolved(s.wf) && PendingSet(s.status) != {}
    requires forall n :: n in s.status ==> s.status[n] in {Pending, Succeeded}
    requires forall n, a :: !Publishable(s, n, a, own)
    ensures Blocked(s.wf, PendingSet(s.status), own)
  {
    var pending := PendingSet(s.status);
    forall n | n in pending ensures WaitsIn(s.wf, pending, n, own) {
      assert !IsReady(n, s.wf, s.status, s.published);
      var e :| e in s.wf.nodes[n].edges && e.toId == n && !Satisfied(e, s.status, s.published);
      if e.conditionType == ArtifactType {
        assert !Publishable(s, e.fromId, e.artifactId.value, own);
        forall m | m in s.wf.nodes && e.artifactId.value in s.wf.nodes[m].task.results ensures m in pending {
          assert !Publishable(s, m, e.artifactId.value, own);
        }
      }
      assert WaitsWithin(s.wf, pending, e, own);
    }
  }

  lemma IdleHasSucceeded(s: State, own: bool)
    requires WF(s) && Closed(s) && EdgesResolved(s.wf) && Feasible(s.wf, own)
    requires forall n :: n in s.status ==> s.status[n] in {Pending, Succeeded}
    requires forall n, a :: !Publishable(s, n, a, own)
    ensures forall n :: n in s.status ==> s.status[n] == Succeeded
  {
    if PendingSet(s.status) != {} { IdleIsBlocked(s, own); }
    assert forall n :: n in s.status && s.status[n] == Pending ==> n in PendingSet(s.status);
  }

  /** A node that can be brought further, or else an artifact that can be published. */
  lemma NextWork(s: State, own: bool) returns (n: NodeId, a: Option<ArtifactId>)
    requires WF(s) && Closed(s) && Unharmed(s) && EdgesResolved(s.wf) && Feasible(s.wf, own)
    requires exists n :: n in s.status && s.status[n] != Succeeded
    ensures a.Some? ==> Publishable(s, n, a.value, own)
    ensures a.None? ==> n in s.status && s.status[n] in {Queued, OnHold, Running}
  {
    if m, b :| Publishable(s, m, b, own) {
      n, a := m, Some(b);
    } else if m :| m in s.status && s.status[m] in {Queued, OnHold, Running} {
      n, a := m, None;
    } else {
      IdleHasSucceeded(s, own);
      assert false;
    }
  }

  /** From a healthy state in which some node has not succeeded, some genuine events lead to a
      healthy state that is closer to completion. */
  lemma Advance(s: State, own: bool) returns (es: seq<Event>)
    requires Healthy(s) && EdgesResolved(s.wf) && Feasible(s.wf, own)
    requires exists n :: n in s.status && s.status[n] != Succeeded
    ensures Improves(s, es, own)
  {
    var n, a := NextWork(s, own);
    if a.Some? { es := PublishRound(s, n, a.value, own); } else { es := BringsOn(s, n, own); }
  }

  // ---------------------------------------------------------------- the theorem

  lemma LeftIsNatural(s: State)
    requires WF(s) && WithinBudget(s)
    ensures Left(s) >= 0
  {
    assert forall n :: n in s.wf.order ==> n in ToSet(s.wf.order);
    BudgetBoundsMeasure(s, s.wf.order);
  }

  ghost predicate AllSucceeded(s: State) {
    forall n :: n in s.status ==> s.status[n] == Succeeded
  }

  /** The run completes the workflow. */
  ghost predicate Completes(s: State, es: seq<Event>, own: bool)
    requires WF(s)
  {
    GenuineRun(s, es, own) && AllSucceeded(Exec(s, es))
  }

  lemma CompletesAfter(s: State, first: seq<Event>, rest: seq<Event>, own: bool)
    requires WF(s) && GenuineRun(s, first, own) && Completes(Exec(s, first), rest, own)
    ensures Completes(s, first + rest, own)
  {
    ExecConcat(s, first, rest);
    GenuineConcat(s, first, rest, own);
  }

  /** A healthy state of a feasible workflow can be completed. */
  lemma {:induction false} CanFinish(s: State, own: bool) returns (es: seq<Event>)
    requires Healthy(s) && EdgesResolved(s.wf) && Feasible(s.wf, own)
    ensures Completes(s, es, own)
    decreases Left(s), |MissingResults(s)|, HeldCount(s.workers), |s.queue|
  {
    LeftIsNatural(s);
    if exists n :: n in s.status && s.status[n] != Succeeded {
      var first := Advance(s, own);
      var rest := CanFinish(Exec(s, first), own);
      es := first + rest;
      CompletesAfter(s, first, rest, own);
    } else {
      es := [];
    }
  }

  // ---------------------------------------------------------------- what cannot be completed

  /** With honest workers a node that failed for good stays Failed. */
  lemma FailedStays(s: State, e: Event, n: NodeId)
    requires Inv(s) && Honest(s, e) && n in s.status && s.status[n] == Failed
    ensures Step(s, e).status[n] == Failed
  {
    StepMoves(s, e, n);
    if e.Perform? { PerformMovesNothing(s, e.call); }
  }

  /** A node that failed for good or was canceled never succeeds. */
  lemma {:induction false} HarmedForever(s: State, es: seq<Event>, n: NodeId)
    requires Inv(s) && HonestRun(s, es) && n in s.status && s.status[n] in {Failed, Canceled}
    ensures Exec(s, es).status[n] in {Failed, Canceled}
    decreases es
  {
    if es != [] {
      if s.status[n] == Failed { FailedStays(s, es[0], n); } else { CanceledStays(s, es[0], n); }
      StepKeeps(s, es[0]);
      HarmedForever(Step(s, es[0]), es[1..], n);
    }
  }

  lemma CompletesUnharmed(s: State, es: seq<Event>, own: bool)
    requires Inv(s) && Completes(s, es, own)
    ensures Unharmed(s)
  {
    GenuineIsHonest(s, es, own);
    forall n | n in s.status ensures s.status[n] !in {Failed, Canceled} {
      if s.status[n] in {Failed, Canceled} { HarmedForever(s, es, n); }
    }
  }

  lemma CompletesPlaced(s: State, es: seq<Event>, own: bool)
    requires Inv(s) && Completes(s, es, own)
    ensures HoldsPlaced(s)
  {
    GenuineIsHonest(s, es, own);
    forall n | n in s.status && s.status[n] == OnHold ensures Places(s, n) == 1 {
      assert Places(s, n) + InHand(None, n) <= 1;
      AbsentIsNowhere(s, n);
      if Absent(s, n) { DroppedForever(s, es, n); }
    }
  }

  lemma CompletesFeasible(s: State, es: seq<Event>, nodes: set<NodeId>, own: bool)
    requires Inv(s) && Completes(s, es, own)
    ensures !StillBlocked(s, nodes, own)
  {
    if StillBlocked(s, nodes, own) {
      BlockedForever(s, es, nodes, own);
    }
  }

  // ---------------------------------------------------------------- from creation

  lemma ReachedState(wf: Workflow, workers: seq<Worker>, clock: nat, es: seq<Event>)
    requires Initial(wf, workers) && UniqueNames(workers) && HonestRun(Created(wf, workers, clock), es)
    ensures var s := Exec(Created(wf, workers, clock), es);
            Inv(s) && Closed(s) && WithinBudget(s) && UniqueNames(s.workers)
  {
    var created := Created(wf, workers, clock);
    Reached(wf, workers, clock, es);
    CreatedInv(wf, workers, clock);
    forall n | n in wf.nodes { QueueOutstandingMoves(Fresh(wf, workers, clock), n); }
    BudgetKept(created, es);
    RunKeepsNames(created, es);
  }

  lemma PlacedIsStrict(s: State)
    requires Inv(s) && HoldsPlaced(s)
    ensures Inv(s, true)
  {}

  /** A state that was reached and can be completed has no set of tasks that wait for each other. */
  lemma ReachedFeasible(wf: Workflow, workers: seq<Worker>, clock: nat, es: seq<Event>, rest: seq<Event>, own: bool)
    requires Initial(wf, workers) && GenuineRun(Created(wf, workers, clock), es, own)
    requires Completes(Exec(Created(wf, workers, clock), es), rest, own)
    ensures Feasible(wf, own)
  {
    var created := Created(wf, workers, clock);
    CreatedInv(wf, workers, clock);
    ExecConcat(created, es, rest);
    GenuineConcat(created, es, rest, own);
    forall nodes ensures !Blocked(wf, nodes, own) {
      if Blocked(wf, nodes, own) {
        CreatedBlocked(wf, workers, clock, nodes, own);
        CompletesFeasible(created, es + rest, nodes, own);
      }
    }
  }

  /** A run can be completed exactly if nothing has failed for good or was canceled, every task on
      hold still has a place, and no tasks wait for each other. */
  lemma ExactCompletion(wf: Workflow, workers: seq<Worker>, clock: nat, es: seq<Event>, own: bool)
    requires Initial(wf, workers) && UniqueNames(workers) && EdgesResolved(wf)
    requires GenuineRun(Created(wf, workers, clock), es, own)
    ensures var s := Exec(Created(wf, workers, clock), es);
            (exists rest :: Completes(s, rest, own)) <==> Unharmed(s) && HoldsPlaced(s) && Feasible(wf, own)
  {
    var s := Exec(Created(wf, workers, clock), es);
    GenuineIsHonest(Created(wf, workers, clock), es, own);
    ReachedState(wf, workers, clock, es);
    if rest :| Completes(s, rest, own) {
      CompletesUnharmed(s, rest, own);
      CompletesPlaced(s, rest, own);
      ReachedFeasible(wf, workers, clock, es, rest, own);
    }
    if Unharmed(s) && HoldsPlaced(s) && Feasible(wf, own) {
      PlacedIsStrict(s);
      var rest := CanFinish(s, own);
    }
  }

  lemma CreatedPlaced(wf: Workflow, workers: seq<Worker>, clock: nat)
    requires Distinct(wf.order) && ToSet(wf.order) == wf.nodes.Keys
    ensures Unharmed(Created(wf, workers, clock)) && HoldsPlaced(Created(wf, workers, clock))
  {
    forall n | n in wf.nodes { QueueOutstandingMoves(Fresh(wf, workers, clock), n); }
  }

  /** After any run of an accepted definition: the run can be completed exactly if nothing has
      failed for good or was canceled, every task on hold still has a place, and no task depends
      on itself.  If only own results are published this holds when no two tasks produce the
      same artifact, and artifact dependencies count as well. */
  lemma CanAlwaysFinish(def: WorkflowDefinition, workers: seq<Worker>, clock: nat, es: seq<Event>, own: bool)
    requires AllResolved(def.tasks) && Acyclic(ParsedWorkflow(def)) && (own ==> UniqueProducers(ParsedWorkflow(def)))
    requires Idle(workers) && UniqueNames(workers) && GenuineRun(CreatedFrom(def, workers, clock), es, own)
    ensures var s := Exec(CreatedFrom(def, workers, clock), es);
            (exists rest :: Completes(s, rest, own)) <==> Unharmed(s) && HoldsPlaced(s) && NoSelfWait(def, own)
  {
    ParsedOrder(def);
    ParsedEdgesResolved(def);
    ExactFeasibility(def, own);
    ExactCompletion(ParsedWorkflow(def), workers, clock, es, own);
  }

  /** An accepted definition can be completed from its creation on exactly if no task depends on
      itself. */
  lemma AcceptedCanFinish(def: WorkflowDefinition, workers: seq<Worker>, clock: nat, own: bool)
    requires AllResolved(def.tasks) && Acyclic(ParsedWorkflow(def)) && (own ==> UniqueProducers(ParsedWorkflow(def)))
    requires Idle(workers) && UniqueNames(workers)
    ensures (exists es :: Completes(CreatedFrom(def, workers, clock), es, own)) <==> NoSelfWait(def, own)
  {
    ParsedOrder(def);
    CreatedPlaced(ParsedWorkflow(def), workers, clock);
    NoEvents(CreatedFrom(def, workers, clock), own);
    CanAlwaysFinish(def, workers, clock, [], own);
  }

  lemma NoEvents(s: State, own: bool)
    requires WF(s)
    ensures Exec(s, []) == s && GenuineRun(s, [], own)
  {}

  /** Without tasks that depend on themselves, own results are enough, whoever else produces an
      artifact. */
  lemma OwnResultsSuffice(def: WorkflowDefinition, workers: seq<Worker>, clock: nat) returns (es: seq<Event>)
    requires AllResolved(def.tasks) && Acyclic(ParsedWorkflow(def)) && NoSelfReference(def)
    requires Idle(workers) && UniqueNames(workers)
    ensures Completes(CreatedFrom(def, workers, clock), es, true)
  {
    var wf := ParsedWorkflow(def);
    ParsedOrder(def);
    ParsedEdgesResolved(def);
    ExactFeasibility(def, true);
    CreatedPlaced(wf, workers, clock);
    ReachedState(wf, workers, clock, []);
    PlacedIsStrict(Created(wf, workers, clock));
    es := CanFinish(Created(wf, workers, clock), true);
  }
}
