/** Where the scheduler falls short of what its names and messages promise, with the exact
    condition for each case. */
module Limits {
  import opened WorkflowTypes
  import opened SchedulerModel
  import opened NodeMachine
  import opened Placement
  import opened Frontier

  // ---------------------------------------------------------------- canceling

  lemma PendingListed(s: State)
    requires WF(s)
    ensures forall n :: n in s.status && s.status[n] == Pending <==> n in Select(s.wf.order, PendingSet(s.status))
  {
    forall n | n in s.status ensures n in s.wf.order { assert n in ToSet(s.wf.order); }
  }

  lemma SecondStaysPending(s: State)
    requires WF(s) && |Select(s.wf.order, PendingSet(s.status))| >= 2
    ensures var n := Select(s.wf.order, PendingSet(s.status))[1]; n in s.status && CancelFirst(s).status[n] == Pending
  {
    var pending := Select(s.wf.order, PendingSet(s.status));
    assert pending[1] in pending && pending[0] != pending[1];
  }

  /** Canceling "all pending tasks" leaves no Pending node exactly when there was at most
      one, since the update reaches only the first match. */
  lemma CancelReachesAll(s: State)
    requires WF(s)
    ensures (forall n :: n in s.status ==> CancelFirst(s).status[n] != Pending)
            <==> |Select(s.wf.order, PendingSet(s.status))| <= 1
  {
    var pending := Select(s.wf.order, PendingSet(s.status));
    PendingListed(s);
    if |pending| >= 2 {
      SecondStaysPending(s);
    } else if |pending| == 1 {
      assert forall n :: n in pending ==> n == pending[0];
    }
  }

  // ---------------------------------------------------------------- holding too early

  /** Every node that has left Pending, other than by being canceled, has its dependencies
      met; nodes on hold included. */
  ghost predicate AllStartable(s: State)
    requires WF(s)
  {
    forall n :: n in s.wf.nodes && s.status[n] !in {Pending, Canceled} ==>
             AllMet(n, s.wf.nodes[n].edges, s.status, s.published)
  }

  /** An accepted hold request whose look-ahead is not empty. */
  ghost predicate HoldsEarly(s: State, e: Event) {
    e.HoldRequest? && HoldAccepted(s, e.worker) && Preferred(s, e.worker) != []
  }

  lemma EarlyHoldBreaks(s: State, e: Event)
    requires Inv(s) && Closed(s) && HoldsEarly(s, e)
    ensures !AllStartable(Step(s, e))
  {
    var i, n := FindWorker(s.workers, e.worker), Preferred(s, e.worker)[0];
    PreferredPending(s, e.worker);
    assert n in Preferred(s, e.worker);
    assert !IsReady(n, s.wf, s.status, s.published);
    var t := PushHold(Mark(s, n, OnHold), i, QueuedTask(n, s.wf.nodes[n].task, s.clock));
    EarlyHoldResult(s, i, Preferred(s, e.worker));
    if AllMet(n, s.wf.nodes[n].edges, t.status, t.published) {
      MetMonotone(n, s.wf.nodes[n].edges, t.status, s.status, s.published);
    }
  }

  lemma EarlyHoldResult(s: State, i: nat, preferred: seq<NodeId>)
    requires WF(s) && i < |s.workers| && preferred != [] && preferred[0] in s.status
             && s.status[preferred[0]] == Pending
    ensures PutOnHold(s, i, preferred, HOLD_ATTEMPTS) ==
            PushHold(Mark(s, preferred[0], OnHold), i, QueuedTask(preferred[0], s.wf.nodes[preferred[0]].task, s.clock))
  {}

  lemma OtherStepsKeep(s: State, e: Event)
    requires Inv(s) && Honest(s, e) && AllStartable(s) && !HoldsEarly(s, e)
    ensures AllStartable(Step(s, e))
  {
    var t := Step(s, e);
    StepEvolves(s, e);
    forall n | n in t.wf.nodes && t.status[n] !in {Pending, Canceled}
      ensures AllMet(n, t.wf.nodes[n].edges, t.status, t.published) {
      if s.status[n] == Canceled {
        CanceledStays(s, e, n);
      } else if s.status[n] == Pending {
        FirstQueued(s, e, n);
        if t.status[n] == OnHold { LateHoldOnlyQueued(s, e, n); }
      } else {
        MetGrows(n, s.wf.nodes[n].edges, s, t);
      }
    }
  }

  /** Without a look-ahead only Queued nodes are put on hold. */
  lemma LateHoldOnlyQueued(s: State, e: Event, n: NodeId)
    requires Inv(s) && Honest(s, e) && !HoldsEarly(s, e) && n in s.status && s.status[n] == Pending
    ensures Step(s, e).status[n] != OnHold
  {
    StepMoves(s, e, n);
    if e.HoldRequest? && HoldAccepted(s, e.worker) {
      forall t | t in s.queue ensures t.nodeId != n { assert s.status[t.nodeId] in {Queued, OnHold}; }
      HoldSpares(s, FindWorker(s.workers, e.worker), [], HOLD_ATTEMPTS, n);
    }
  }

  /** An honest step lets a node through whose dependencies are open exactly when it is an
      accepted hold request with a non-empty look-ahead. */
  lemma ExactEarlyHold(s: State, e: Event)
    requires Inv(s) && Closed(s) && Honest(s, e) && AllStartable(s)
    ensures AllStartable(Step(s, e)) <==> !HoldsEarly(s, e)
  {
    if HoldsEarly(s, e) { EarlyHoldBreaks(s, e); } else { OtherStepsKeep(s, e); }
  }

  // ---------------------------------------------------------------- starting too early

  /** A task on hold is reported as started while one of its dependencies is open. */
  ghost predicate StartsEarly(s: State, e: Event)
    requires WF(s)
  {
    && e.Started? && e.nodeId in s.wf.nodes && s.status[e.nodeId] == OnHold
    && !AllMet(e.nodeId, s.wf.nodes[e.nodeId].edges, s.status, s.published)
  }

  lemma HandsHeld(s: State, w: string, n: NodeId)
    requires Inv(s)
    requires var i := FindWorker(s.workers, w);
             i < |s.workers| && s.workers[i].workingOn.None? && s.workers[i].nodesOnHold != []
    requires n == s.workers[FindWorker(s.workers, w)].nodesOnHold[0].nodeId
    ensures var handed := RunForFreeWorker(s, w);
            && n in s.status && s.status[n] == OnHold && WorksOn(handed, w, n)
            && handed.status == s.status && handed.published == s.published
  {
    var i := FindWorker(s.workers, w);
    assert WorkerOk(s, s.workers[i]) && s.workers[i].nodesOnHold[0] in s.workers[i].nodesOnHold;
    SameNames(s.workers, RunForFreeWorker(s, w).workers, w);
  }

  lemma HeldStarts(handed: State, w: string, n: NodeId)
    requires WF(handed) && n in handed.status && handed.status[n] == OnHold && WorksOn(handed, w, n)
    ensures var e := Started(w, n);
            && Honest(handed, e) && Step(handed, e).status == handed.status[n := Running]
            && (StartsEarly(handed, e) <==> !AllMet(n, handed.wf.nodes[n].edges, handed.status, handed.published))
  {}

  /** A free worker is handed its first task on hold and may start it: early, exactly if one of
      that task's dependencies is still open. */
  lemma HeldIsStarted(s: State, w: string, n: NodeId)
    requires Inv(s) && ForFreeWorker(w) in s.calls
    requires var i := FindWorker(s.workers, w);
             i < |s.workers| && s.workers[i].workingOn.None? && s.workers[i].nodesOnHold != []
    requires n == s.workers[FindWorker(s.workers, w)].nodesOnHold[0].nodeId
    ensures var (handed, e) := (Step(s, Perform(ForFreeWorker(w))), Started(w, n));
            && n in s.status && Honest(handed, e) && Step(handed, e).status == s.status[n := Running]
            && (StartsEarly(handed, e) <==> !AllMet(n, s.wf.nodes[n].edges, s.status, s.published))
  {
    var call := ForFreeWorker(w);
    TakeCallKeeps(s, call);
    HandsHeld(TakeCall(s, call), w, n);
    PerformRuns(s, call);
    HeldStarts(Step(s, Perform(call)), w, n);
  }

  lemma EarlyStartBreaks(s: State, e: Event)
    requires Inv(s) && StartsEarly(s, e)
    ensures !DependenciesMet(Step(s, e), {})
  {
    var (n, t) := (e.nodeId, Step(s, e));
    assert t == Mark(s, n, Running);
    if AllMet(n, t.wf.nodes[n].edges, t.status, t.published) {
      MetMonotone(n, s.wf.nodes[n].edges, t.status, s.status, s.published);
    }
  }

  /** How a node that is active after a step was before it. */
  lemma BecomesActive(s: State, e: Event, n: NodeId)
    requires Inv(s) && Honest(s, e) && DependenciesMet(s, {}) && !StartsEarly(s, e)
    requires n in s.wf.nodes && Active(Step(s, e).status[n])
    ensures var t := Step(s, e); AllMet(n, t.wf.nodes[n].edges, t.status, t.published)
  {
    if s.status[n] == Pending {
      FirstQueued(s, e, n);
    } else if s.status[n] == Canceled {
      CanceledStays(s, e, n);
    } else {
      if s.status[n] == OnHold { StepMoves(s, e, n); }
      StepEvolves(s, e);
      MetGrows(n, s.wf.nodes[n].edges, s, Step(s, e));
    }
  }

  /** An honest step makes a node active with open dependencies exactly if it starts a task on
      hold whose dependencies are open. */
  lemma ExactEarlyStart(s: State, e: Event)
    requires Inv(s) && Honest(s, e) && DependenciesMet(s, {})
    ensures DependenciesMet(Step(s, e), {}) <==> !StartsEarly(s, e)
  {
    if StartsEarly(s, e) {
      EarlyStartBreaks(s, e);
    } else {
      forall n | n in s.wf.nodes && Active(Step(s, e).status[n]) { BecomesActive(s, e, n); }
    }
  }

  ghost predicate NeverStartsEarly(s: State, es: seq<Event>)
    requires WF(s)
    decreases es
  {
    es == [] || (!StartsEarly(s, es[0]) && NeverStartsEarly(Step(s, es[0]), es[1..]))
  }

  /** In every state of the run the active nodes have their dependencies met. */
  ghost predicate AlwaysSafe(s: State, es: seq<Event>)
    requires WF(s)
    decreases es
  {
    DependenciesMet(s, {}) && (es == [] || AlwaysSafe(Step(s, es[0]), es[1..]))
  }

  /** Holds included, an honest run is safe throughout exactly if no task on hold is started
      early. */
  lemma {:induction false} SafeUnlessEarly(s: State, es: seq<Event>)
    requires Inv(s) && HonestRun(s, es) && DependenciesMet(s, {})
    ensures AlwaysSafe(s, es) <==> NeverStartsEarly(s, es)
    ensures AlwaysSafe(s, es) ==> DependenciesMet(Exec(s, es), {})
    decreases es
  {
    if es != [] {
      ExactEarlyStart(s, es[0]);
      if DependenciesMet(Step(s, es[0]), {}) {
        StepKeeps(s, es[0]);
        SafeUnlessEarly(Step(s, es[0]), es[1..]);
      }
    }
  }

  // ---------------------------------------------------------------- workers that get no more work

  ghost predicate Given(s: State, i: nat, n: NodeId) {
    i < |s.workers| && s.workers[i].workingOn == Some(n) && AfterNode(n) !in s.calls
  }

  /** The worker was given the node, the node can neither succeed nor fail as it is, and no call
      is left to give the worker other work. */
  ghost predicate Sits(s: State, i: nat, n: NodeId) {
    Given(s, i, n) && n in s.status && s.status[n] !in {Running, Canceled}
  }

  lemma NextTaskKeepsWork(s: State, k: nat, i: nat)
    requires WF(s) && k < |s.workers| && i < |s.workers|
    ensures NextTask(s, k).0.workers[i].workingOn == s.workers[i].workingOn
  {}

  lemma DispatchLeaves(s: State, c: Call, i: nat, n: NodeId)
    requires WF(s) && Given(s, i, n) && c != AfterNode(n) && !c.RequeueHeld?
    ensures Given(RunCall(s, c), i, n)
  {
    DispatchKeepsNodes(s, c);
    match c
    case AfterNode(m) =>
      var k := FindWorkingOn(s.workers, m);
      if k < |s.workers| { NextTaskKeepsWork(s, k, i); }
    case ForFreeWorker(w) =>
      var k := FindWorker(s.workers, w);
      if k < |s.workers| { NextTaskKeepsWork(s, k, i); }
  }

  lemma {:induction false} RequeueLeaves(s: State, k: nat, held: seq<QueuedTask>, i: nat, n: NodeId)
    requires WF(s) && k < |s.workers| && Given(s, i, n)
    ensures Given(RequeueAllHeld(s, k, held), i, n)
    decreases held
  {
    if held != [] {
      if CanMove(s, held[0].nodeId, Queued) {
        RequeueLeaves(PopHold(QueueNode(s, held[0].nodeId), k), k, held[1..], i, n);
      } else {
        RequeueLeaves(s, k, held[1..], i, n);
      }
    }
  }

  lemma {:induction false} HoldLeaves(s: State, k: nat, preferred: seq<NodeId>, attempts: nat, i: nat, n: NodeId)
    requires WF(s) && k < |s.workers| && Given(s, i, n)
    ensures Given(PutOnHold(s, k, preferred, attempts), i, n)
    decreases attempts
  {
    if attempts != 0 {
      var (rest, task) := HoldCandidate(s, preferred);
      if !(task.Some? && CanMove(rest, task.value.nodeId, OnHold)) {
        HoldLeaves(rest, k, preferred, attempts - 1, i, n);
      }
    }
  }

  lemma RetryLeaves(s: State, m: NodeId, i: nat, n: NodeId)
    requires WF(s) && Given(s, i, n) && m in s.status && m != n
    ensures var t := ClearWorkOn(QueueNode(MarkFailed(s, m), m), m);
            Given(t.(calls := t.calls + FreeWorkerCalls(t.workers)), i, n)
  {
    FreeCallsOnly(ClearWorkOn(QueueNode(MarkFailed(s, m), m), m).workers, n);
  }

  lemma FailedLeaves(s: State, m: NodeId, i: nat, n: NodeId)
    requires WF(s) && Sits(s, i, n)
    ensures Given(TaskFailed(s, m), i, n)
  {
    if CanMove(s, m, Failed) {
      assert m != n;
      if !Exhausted(MarkFailed(s, m), m) { RetryLeaves(s, m, i, n); }
    }
  }

  lemma StartedLeaves(s: State, m: NodeId, i: nat, n: NodeId)
    requires WF(s) && Given(s, i, n)
    ensures Given(TaskStarted(s, m), i, n)
  {}

  lemma CompletedLeaves(s: State, m: NodeId, i: nat, n: NodeId)
    requires WF(s) && Sits(s, i, n)
    ensures Given(TaskCompleted(s, m), i, n)
  {
    assert CanMove(s, m, Succeeded) ==> m != n;
  }

  lemma UploadedLeaves(s: State, m: NodeId, a: ArtifactId, i: nat, n: NodeId)
    requires WF(s) && Sits(s, i, n)
    ensures Given(ArtifactUploaded(s, m, a), i, n)
  {
    if m in s.wf.nodes && a !in s.published {
      var done := Select(s.wf.order, CompleteSet(s.wf, s.status, s.published + {a}));
      if AfterNode(n) in AfterNodeCalls(done) { AfterNodeCallsOf(done, n); }
    }
  }

  lemma CallLeaves(s: State, c: Call, i: nat, n: NodeId)
    requires WF(s) && Given(s, i, n)
    ensures Given(Step(s, Perform(c)), i, n)
  {
    if c in s.calls {
      var t := s.(calls := s.calls - multiset{c});
      assert Step(s, Perform(c)) == RunCall(t, c);
      if c.RequeueHeld? {
        var k := FindWorker(t.workers, c.worker);
        if k < |t.workers| { RequeueLeaves(t, k, t.workers[k].nodesOnHold, i, n); }
      } else {
        DispatchLeaves(t, c, i, n);
      }
    }
  }

  lemma RequestLeaves(s: State, w: string, i: nat, n: NodeId)
    requires WF(s) && Given(s, i, n)
    ensures Given(HoldRequested(s, w), i, n)
  {
    if HoldAccepted(s, w) { HoldLeaves(s, FindWorker(s.workers, w), Preferred(s, w), HOLD_ATTEMPTS, i, n); }
  }

  lemma BeatLeaves(s: State, w: string, i: nat, n: NodeId)
    requires WF(s) && Given(s, i, n)
    ensures Given(Heartbeat(s, w), i, n) && Given(BecomesStale(s, w), i, n)
  {}

  /** Whatever happens next, heartbeats included, the worker is not given other work. */
  lemma StepLeaves(s: State, e: Event, i: nat, n: NodeId)
    requires WF(s) && Sits(s, i, n)
    ensures Given(Step(s, e), i, n)
  {
    match e
    case Started(_, k) => StartedLeaves(s, k, i, n);
    case Completed(_, k) => CompletedLeaves(s, k, i, n);
    case Uploaded(k, a) => UploadedLeaves(s, k, a, i, n);
    case FailedEvent(_, k) => FailedLeaves(s, k, i, n);
    case HoldRequest(w) => RequestLeaves(s, w, i, n);
    case Perform(c) => CallLeaves(s, c, i, n);
    case Beat(w) => BeatLeaves(s, w, i, n);
    case GoesStale(w) => BeatLeaves(s, w, i, n);
  }

  // ---------------------------------------------------------------- stranded workers

  /** The worker still works on a succeeded node and no call is left to give it other work. */
  ghost predicate Stranded(s: State, i: nat, n: NodeId) {
    Given(s, i, n) && n in s.status && s.status[n] == Succeeded
  }

  /** What an online worker is given next is not the node that it has finished. */
  lemma NextIsOther(s: State, i: nat, n: NodeId)
    requires Inv(s) && i < |s.workers| && s.workers[i].workingOn == Some(n)
    ensures var task := NextTask(s, i).1; task.Some? ==> task.value.nodeId != n
  {
    OnlyThere(s, i, n);
    if s.workers[i].nodesOnHold != [] {
      assert s.workers[i].nodesOnHold[0] in s.workers[i].nodesOnHold;
    } else if s.queue != [] {
      assert s.queue[MinIndex(s.queue)] in s.queue;
    }
  }

  lemma FollowUp(s: State, i: nat, n: NodeId)
    requires Inv(s) && i < |s.workers| && s.workers[i].workingOn == Some(n)
    ensures RunAfterNode(s, n).workers[i].workingOn == Some(n) <==> s.workers[i].status == Stale
  {
    ClearWorkOnPlaces(s, i, n, n);
    NextIsOther(s, i, n);
  }

  /** The last follow-up of a finished node strands its worker exactly if the worker is stale
      at that moment. */
  lemma ExactStranding(s: State, i: nat, n: NodeId)
    requires Inv(s) && i < |s.workers| && s.workers[i].workingOn == Some(n) && s.calls[AfterNode(n)] == 1
    ensures Stranded(Step(s, Perform(AfterNode(n))), i, n) <==> s.workers[i].status == Stale
  {
    var t := TakeCall(s, AfterNode(n));
    PerformRuns(s, AfterNode(n));
    TakeCallKeeps(s, AfterNode(n));
    FollowUp(t, i, n);
    DispatchKeepsNodes(t, AfterNode(n));
  }

  /** A stranded worker never gets work again, whoever reports what. */
  lemma {:induction false} StrandedForever(s: State, es: seq<Event>, i: nat, n: NodeId)
    requires WF(s) && Stranded(s, i, n)
    ensures Stranded(Exec(s, es), i, n)
    decreases es
  {
    if es != [] {
      StepLeaves(s, es[0], i, n);
      StepMoves(s, es[0], n);
      StrandedForever(Step(s, es[0]), es[1..], i, n);
    }
  }

  // ---------------------------------------------------------------- tasks that never start

  /** The worker was given a task, from the queue or from its hold list, that it has not
      reported as started. */
  ghost predicate Unstarted(s: State, i: nat, n: NodeId, st: DagNodeStatus) {
    Given(s, i, n) && n in s.status && s.status[n] == st && st in Proceeding(Running)
  }

  lemma AttemptSpares(s: State, k: nat, preferred: seq<NodeId>, n: NodeId)
    requires WF(s) && k < |s.workers| && n in s.status
    requires (preferred != [] ==> preferred[0] != n) && forall t :: t in s.queue ==> t.nodeId != n
    ensures var next := AfterAttempt(s, k, preferred);
            && next.status.Keys == s.status.Keys && next.status[n] == s.status[n]
            && forall t :: t in next.queue ==> t.nodeId != n
  {}

  lemma {:induction false} HoldSpares(s: State, k: nat, preferred: seq<NodeId>, attempts: nat, n: NodeId)
    requires WF(s) && k < |s.workers| && n in s.status
    requires (preferred != [] ==> preferred[0] != n) && forall t :: t in s.queue ==> t.nodeId != n
    ensures PutOnHold(s, k, preferred, attempts).status[n] == s.status[n]
    decreases attempts
  {
    if attempts != 0 {
      var left := attempts - 1;
      HoldStep(s, k, preferred, attempts, left);
      AttemptSpares(s, k, preferred, n);
      if !AttemptHolds(s, preferred) { HoldSpares(AfterAttempt(s, k, preferred), k, preferred, left, n); }
    }
  }

  lemma NotOffered(s: State, k: NodeId, n: NodeId)
    requires k in s.wf.nodes && n in s.status && s.status[n] in Proceeding(Running)
    ensures n !in LookAhead(s, k)
  {}

  lemma UnstartedHold(s: State, w: string, i: nat, n: NodeId, st: DagNodeStatus)
    requires Inv(s) && Unstarted(s, i, n, st)
    ensures HoldRequested(s, w).status[n] == st
  {
    if HoldAccepted(s, w) {
      var preferred := Preferred(s, w);
      NotOffered(s, s.workers[FindWorker(s.workers, w)].workingOn.value, n);
      if preferred != [] { assert preferred[0] in preferred; }
      OnlyThere(s, i, n);
      HoldSpares(s, FindWorker(s.workers, w), preferred, HOLD_ATTEMPTS, n);
    }
  }

  lemma UnstartedStatus(s: State, e: Event, i: nat, n: NodeId, st: DagNodeStatus)
    requires Inv(s) && Unstarted(s, i, n, st) && !(e.Started? && e.nodeId == n)
    ensures n in Step(s, e).status && Step(s, e).status[n] == st
  {
    if e.HoldRequest? { UnstartedHold(s, e.worker, i, n, st); } else { StepMoves(s, e, n); }
  }

  lemma FailureCounts(s: State, n: NodeId)
    requires WF(s) && CanMove(s, n, Failed)
    ensures TaskFailed(s, n) != s
  {
    if Exhausted(MarkFailed(s, n), n) { GivesUpWhenExhausted(s, n); } else { RetriesWhenFailed(s, n); }
    assert TaskFailed(s, n).retries[n] == s.retries[n] + 1;
  }

  lemma NoFailure(s: State, n: NodeId)
    requires WF(s) && !CanMove(s, n, Failed)
    ensures TaskFailed(s, n) == s
  {}

  /** A failure report on a task that was never started is ignored: it counts no retry and
      gives nobody the task again. */
  lemma FailureIgnored(s: State, w: string, n: NodeId)
    requires WF(s) && n in s.status
    ensures Step(s, FailedEvent(w, n)) == s <==> s.status[n] !in {Running, Canceled}
  {
    if s.status[n] in {Running, Canceled} { FailureCounts(s, n); } else { NoFailure(s, n); }
  }

  /** Unless its worker starts it, a task that was handed out keeps its status and stays with
      that worker. */
  lemma UnstartedStep(s: State, e: Event, i: nat, n: NodeId, st: DagNodeStatus)
    requires Inv(s) && Unstarted(s, i, n, st) && Honest(s, e) && !(e.Started? && e.nodeId == n)
    ensures Unstarted(Step(s, e), i, n, st)
  {
    StepLeaves(s, e, i, n);
    UnstartedStatus(s, e, i, n, st);
  }

  predicate NeverStarts(es: seq<Event>, n: NodeId) {
    forall e :: e in es && e.Started? ==> e.nodeId != n
  }

  lemma {:induction false} UnstartedForever(s: State, es: seq<Event>, i: nat, n: NodeId, st: DagNodeStatus)
    requires Inv(s) && Unstarted(s, i, n, st) && HonestRun(s, es) && NeverStarts(es, n)
    ensures Unstarted(Exec(s, es), i, n, st)
    decreases es
  {
    if es != [] {
      assert es[0] in es;
      StepKeeps(s, es[0]);
      UnstartedStep(s, es[0], i, n, st);
      UnstartedForever(Step(s, es[0]), es[1..], i, n, st);
    }
  }
}
