/** Tasks on hold that a hold request dropped: nothing ever gives them a place again. */
module Dropped {
  import opened WorkflowTypes
  import opened SchedulerModel
  import opened NodeMachine
  import opened Placement
  import opened Frontier

  ghost predicate NotIn(q: seq<QueuedTask>, n: NodeId) {
    forall t :: t in q ==> t.nodeId != n
  }

  ghost predicate NotAt(w: Worker, n: NodeId) {
    w.workingOn != Some(n) && NotIn(w.nodesOnHold, n)
  }

  /** The node is in no queue entry, no hold list and no worker's work. */
  ghost predicate Absent(s: State, n: NodeId) {
    NotIn(s.queue, n) && forall i :: 0 <= i < |s.workers| ==> NotAt(s.workers[i], n)
  }

  lemma {:induction false} NoneAtWorkers(ws: seq<Worker>, n: NodeId)
    ensures CountWorkers(ws, n) == 0 <==> forall i :: 0 <= i < |ws| ==> NotAt(ws[i], n)
  {
    if ws != [] {
      CountMember(ws[0].nodesOnHold, n);
      NoneAtWorkers(ws[1..], n);
      assert forall i :: 1 <= i < |ws| ==> ws[i] == ws[1..][i - 1];
      if forall i :: 0 <= i < |ws| ==> NotAt(ws[i], n) {
        assert forall i :: 0 <= i < |ws[1..]| ==> ws[1..][i] == ws[i + 1];
      }
    }
  }

  lemma AbsentIsNowhere(s: State, n: NodeId)
    ensures Absent(s, n) <==> Places(s, n) == 0
  {
    CountMember(s.queue, n);
    NoneAtWorkers(s.workers, n);
  }

  // ---------------------------------------------------------------- what steps leave absent

  lemma {:induction false} QueueAllLeaves(s: State, ns: seq<NodeId>, n: NodeId)
    requires WF(s) && Absent(s, n) && n !in ns
    ensures Absent(QueueAll(s, ns), n)
    decreases ns
  {
    if ns != [] && CanMove(s, ns[0], Queued) { QueueAllLeaves(QueueNode(s, ns[0]), ns[1..], n); }
  }

  lemma OutstandingLeaves(s: State, n: NodeId)
    requires WF(s) && Absent(s, n) && n in s.status && s.status[n] != Pending
    ensures Absent(QueueOutstanding(s), n)
  {
    QueueAllLeaves(s, Outstanding(s.wf, s.status, s.published), n);
  }

  lemma CompletedLeavesAbsent(s: State, k: NodeId, n: NodeId)
    requires WF(s) && Absent(s, n) && n in s.status && s.status[n] == OnHold
    ensures Absent(TaskCompleted(s, k), n)
  {
    if CanMove(s, k, Succeeded) { OutstandingLeaves(Mark(s, k, Succeeded), n); }
  }

  lemma UploadedLeavesAbsent(s: State, k: NodeId, a: ArtifactId, n: NodeId)
    requires WF(s) && Absent(s, n) && n in s.status && s.status[n] == OnHold
    ensures Absent(ArtifactUploaded(s, k, a), n)
  {
    if k in s.wf.nodes && a !in s.published {
      var published := s.(published := s.published + {a});
      var done := Select(s.wf.order, CompleteSet(s.wf, s.status, published.published));
      OutstandingLeaves(published.(status := MarkAll(s.status, done, Succeeded)), n);
    }
  }

  lemma ClearLeavesAbsent(s: State, k: NodeId, n: NodeId)
    requires WF(s) && Absent(s, n)
    ensures Absent(ClearWorkOn(s, k), n)
  {}

  lemma FailedLeavesAbsent(s: State, k: NodeId, n: NodeId)
    requires WF(s) && Absent(s, n) && k != n
    ensures Absent(TaskFailed(s, k), n)
  {
    if CanMove(s, k, Failed) {
      var failed := MarkFailed(s, k);
      if Exhausted(failed, k) {
        ClearLeavesAbsent(CancelFirst(failed), k, n);
      } else {
        ClearLeavesAbsent(QueueNode(failed, k), k, n);
      }
    }
  }

  lemma NextTaskLeaves(s: State, i: nat, n: NodeId)
    requires WF(s) && Absent(s, n) && i < |s.workers|
    ensures var (t, task) := NextTask(s, i); Absent(t, n) && (task.Some? ==> task.value.nodeId != n)
  {
    assert NotAt(s.workers[i], n);
  }

  lemma AfterNodeLeavesAbsent(s: State, k: NodeId, n: NodeId)
    requires WF(s) && Absent(s, n)
    ensures Absent(RunAfterNode(s, k), n)
  {
    var i := FindWorkingOn(s.workers, k);
    if i < |s.workers| { NextTaskLeaves(s, i, n); }
  }

  lemma ForFreeLeavesAbsent(s: State, w: string, n: NodeId)
    requires WF(s) && Absent(s, n)
    ensures Absent(RunForFreeWorker(s, w), n)
  {
    var i := FindWorker(s.workers, w);
    if i < |s.workers| { NextTaskLeaves(s, i, n); }
  }

  lemma CallLeavesAbsent(s: State, c: Call, n: NodeId)
    requires Inv(s) && Absent(s, n)
    ensures Absent(RunCall(s, c), n)
  {
    match c
    case AfterNode(k) => AfterNodeLeavesAbsent(s, k, n);
    case ForFreeWorker(w) => ForFreeLeavesAbsent(s, w, n);
    case RequeueHeld(w) => RequeueHeldKeeps(s, w);
  }

  lemma PerformLeavesAbsent(s: State, c: Call, n: NodeId)
    requires Inv(s) && Absent(s, n)
    ensures Absent(Step(s, Perform(c)), n)
  {
    if c in s.calls {
      PerformRuns(s, c);
      TakeCallKeeps(s, c);
      CallLeavesAbsent(TakeCall(s, c), c, n);
    }
  }

  lemma {:induction false} HoldLeavesAbsent(s: State, i: nat, preferred: seq<NodeId>, attempts: nat, n: NodeId)
    requires WF(s) && Absent(s, n) && i < |s.workers| && (preferred != [] ==> preferred[0] != n)
    ensures Absent(PutOnHold(s, i, preferred, attempts), n)
    decreases attempts
  {
    if attempts != 0 {
      var (rest, task) := HoldCandidate(s, preferred);
      CandidateLeaves(s, preferred, n);
      if task.Some? && CanMove(rest, task.value.nodeId, OnHold) {
        PushLeaves(Mark(rest, task.value.nodeId, OnHold), i, task.value, n);
      } else {
        HoldLeavesAbsent(rest, i, preferred, attempts - 1, n);
      }
    }
  }

  lemma CandidateLeaves(s: State, preferred: seq<NodeId>, n: NodeId)
    requires WF(s) && Absent(s, n) && (preferred != [] ==> preferred[0] != n)
    ensures var (rest, task) := HoldCandidate(s, preferred); Absent(rest, n) && (task.Some? ==> task.value.nodeId != n)
  {}

  lemma PushLeaves(s: State, i: nat, t: QueuedTask, n: NodeId)
    requires WF(s) && Absent(s, n) && i < |s.workers| && t.nodeId != n
    ensures Absent(PushHold(s, i, t), n)
  {
    assert NotAt(s.workers[i], n);
  }

  lemma RequestLeavesAbsent(s: State, w: string, n: NodeId)
    requires WF(s) && Absent(s, n) && n in s.status && s.status[n] == OnHold
    ensures Absent(HoldRequested(s, w), n)
  {
    if HoldAccepted(s, w) {
      PreferredPending(s, w);
      var preferred := Preferred(s, w);
      if preferred != [] { assert preferred[0] in preferred; }
      HoldLeavesAbsent(s, FindWorker(s.workers, w), preferred, HOLD_ATTEMPTS, n);
    }
  }

  lemma BeatLeavesAbsent(s: State, w: string, n: NodeId)
    requires WF(s) && Absent(s, n)
    ensures Absent(Heartbeat(s, w), n)
  {}

  lemma StaleLeavesAbsent(s: State, w: string, n: NodeId)
    requires WF(s) && Absent(s, n)
    ensures Absent(BecomesStale(s, w), n)
  {}

  // ---------------------------------------------------------------- dropped tasks

  /** A task on hold without a place. */
  ghost predicate IsDropped(s: State, n: NodeId) {
    n in s.status && s.status[n] == OnHold && Absent(s, n)
  }

  /** An honest report is never about an absent node. */
  lemma ReportsOthers(s: State, w: string, k: NodeId, n: NodeId)
    requires Absent(s, n) && WorksOn(s, w, k)
    ensures k != n
  {
    assert NotAt(s.workers[FindWorker(s.workers, w)], n);
  }

  lemma StaysAbsent(s: State, e: Event, n: NodeId)
    requires Inv(s) && Honest(s, e) && IsDropped(s, n)
    ensures Absent(Step(s, e), n)
  {
    match e
    case Started(_, _) =>
    case Completed(_, k) => CompletedLeavesAbsent(s, k, n);
    case Uploaded(k, a) => UploadedLeavesAbsent(s, k, a, n);
    case FailedEvent(w, k) =>
      ReportsOthers(s, w, k, n);
      FailedLeavesAbsent(s, k, n);
    case HoldRequest(w) => RequestLeavesAbsent(s, w, n);
    case Perform(c) => PerformLeavesAbsent(s, c, n);
    case Beat(w) => BeatLeavesAbsent(s, w, n);
    case GoesStale(w) => StaleLeavesAbsent(s, w, n);
  }

  lemma StaysOnHold(s: State, e: Event, n: NodeId)
    requires Inv(s) && Honest(s, e) && IsDropped(s, n)
    ensures Step(s, e).status[n] == OnHold
  {
    StepMoves(s, e, n);
    if e.Started? { ReportsOthers(s, e.worker, e.nodeId, n); }
  }

  /** A dropped task stays on hold without a place over every honest run: it never runs. */
  lemma {:induction false} DroppedForever(s: State, es: seq<Event>, n: NodeId)
    requires Inv(s) && HonestRun(s, es) && IsDropped(s, n)
    ensures IsDropped(Exec(s, es), n)
    decreases es
  {
    if es != [] {
      StaysAbsent(s, es[0], n);
      StaysOnHold(s, es[0], n);
      StepKeeps(s, es[0]);
      DroppedForever(Step(s, es[0]), es[1..], n);
    }
  }
}
