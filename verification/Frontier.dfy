/** The dependency frontier: newly enabled nodes are always queued in the step that enabled
    them, and no node that was never on hold starts before its dependencies are met. */
module Frontier {
  import opened WorkflowTypes
  import opened SchedulerModel
  import opened NodeMachine
  import opened Placement

  /** No Pending node has all its incoming edges satisfied. */
  ghost predicate Closed(s: State) {
    forall n :: n in s.wf.nodes ==> !IsReady(n, s.wf, s.status, s.published)
  }

  // ---------------------------------------------------------------- status changes of a step

  /** What a step may do to the status of one node. */
  ghost predicate MoveOk(s: State, t: State, e: Event, n: NodeId)
    requires WF(s) && WF(t) && t.wf == s.wf && n in s.status
  {
    var (from, to) := (s.status[n], t.status[n]);
    var enabled := from == Pending && to == Queued && AllMet(n, s.wf.nodes[n].edges, t.status, t.published);
    from == to ||
    match e
    case Started(_, k) => k == n && from in {Queued, OnHold} && to == Running
    case Completed(_, k) => (k == n && from == Running && to == Succeeded) || enabled
    case Uploaded(_, _) => (from == Running && to == Succeeded) || enabled
    case FailedEvent(_, k) =>
      (k == n && from in {Running, Canceled} && to in {Queued, Failed}) || (from == Pending && to == Canceled)
    case HoldRequest(_) => from in {Pending, Queued} && to == OnHold
    case Perform(c) => c.RequeueHeld? && from in {Pending, Failed} && to == Queued
    case Beat(_) => false
    case GoesStale(_) => false
  }

  lemma QueueOutstandingMoves(s: State, n: NodeId)
    requires WF(s) && n in s.status
    ensures var t := QueueOutstanding(s);
            t.status[n] == s.status[n] ||
            (s.status[n] == Pending && t.status[n] == Queued && AllMet(n, s.wf.nodes[n].edges, t.status, t.published))
  {
    var t := QueueOutstanding(s);
    QueueOutstandingEffect(s);
    if t.status[n] != s.status[n] {
      assert n in ReadySet(s.wf, s.status, s.published);
      MetMonotone(n, s.wf.nodes[n].edges, s.status, t.status, s.published);
    }
  }

  lemma SuccessShows(s: State, n: NodeId)
    requires WF(s) && n in s.status && s.status[n] == Running
    ensures TaskCompleted(s, n).status[n] == Succeeded
  {
    QueueOutstandingMoves(Mark(s, n, Succeeded), n);
  }

  lemma CompletedMoves(s: State, w: string, k: NodeId, n: NodeId)
    requires WF(s) && n in s.status
    ensures MoveOk(s, TaskCompleted(s, k), Completed(w, k), n)
  {
    if CanMove(s, k, Succeeded) { QueueOutstandingMoves(Mark(s, k, Succeeded), n); }
  }

  lemma UploadedMoves(s: State, k: NodeId, a: ArtifactId, n: NodeId)
    requires WF(s) && n in s.status
    ensures MoveOk(s, ArtifactUploaded(s, k, a), Uploaded(k, a), n)
  {
    if k in s.wf.nodes && a !in s.published {
      var done := Select(s.wf.order, CompleteSet(s.wf, s.status, s.published + {a}));
      QueueOutstandingMoves(s.(status := MarkAll(s.status, done, Succeeded), published := s.published + {a}), n);
    }
  }

  lemma CancelMoves(s: State, n: NodeId)
    requires WF(s) && n in s.status
    ensures var to := CancelFirst(s).status[n]; to == s.status[n] || (s.status[n] == Pending && to == Canceled)
  {
    var pending := Select(s.wf.order, PendingSet(s.status));
    if pending != [] { assert pending[0] in pending; }
  }

  /** What a counted failure does to statuses and retry counts. */
  lemma FailedNodes(s: State, k: NodeId)
    requires WF(s) && CanMove(s, k, Failed)
    ensures var failed := MarkFailed(s, k);
            && TaskFailed(s, k).retries == failed.retries
            && TaskFailed(s, k).status ==
               if Exhausted(failed, k) then CancelFirst(failed).status else failed.status[k := Queued]
  {
    if Exhausted(MarkFailed(s, k), k) { GivesUpWhenExhausted(s, k); } else { RetriesWhenFailed(s, k); }
  }

  lemma FailureMoves(s: State, t: State, w: string, k: NodeId, n: NodeId)
    requires WF(s) && WF(t) && t.wf == s.wf && n in s.status && CanMove(s, k, Failed)
    requires var failed := MarkFailed(s, k);
             t.status == if Exhausted(failed, k) then CancelFirst(failed).status else failed.status[k := Queued]
    ensures MoveOk(s, t, FailedEvent(w, k), n)
  {
    CancelMoves(MarkFailed(s, k), n);
  }

  lemma FailedMoves(s: State, w: string, k: NodeId, n: NodeId)
    requires WF(s) && n in s.status
    ensures MoveOk(s, TaskFailed(s, k), FailedEvent(w, k), n)
  {
    if CanMove(s, k, Failed) {
      FailedNodes(s, k);
      FailureMoves(s, TaskFailed(s, k), w, k, n);
    }
  }

  lemma PerformMoves(s: State, c: Call, n: NodeId)
    requires WF(s) && n in s.status
    ensures MoveOk(s, Step(s, Perform(c)), Perform(c), n)
  {
    if c in s.calls && !c.RequeueHeld? { DispatchKeepsNodes(s.(calls := s.calls - multiset{c}), c); }
  }

  lemma StartedMoves(s: State, w: string, k: NodeId, n: NodeId)
    requires WF(s) && n in s.status
    ensures MoveOk(s, TaskStarted(s, k), Started(w, k), n)
  {}

  lemma AttemptsMove(s: State, t: State, i: nat, preferred: seq<NodeId>, attempts: nat, w: string, n: NodeId)
    requires WF(s) && i < |s.workers| && n in s.status && t == PutOnHold(s, i, preferred, attempts)
    ensures WF(t) && t.wf == s.wf && MoveOk(s, t, HoldRequest(w), n)
  {}

  lemma HoldMoves(s: State, w: string, n: NodeId)
    requires WF(s) && n in s.status
    ensures MoveOk(s, HoldRequested(s, w), HoldRequest(w), n)
  {
    if HoldAccepted(s, w) {
      AttemptsMove(s, HoldRequested(s, w), FindWorker(s.workers, w), Preferred(s, w), HOLD_ATTEMPTS, w, n);
    }
  }

  lemma WorkerMoves(s: State, w: string, n: NodeId)
    requires WF(s) && n in s.status
    ensures MoveOk(s, Heartbeat(s, w), Beat(w), n) && MoveOk(s, BecomesStale(s, w), GoesStale(w), n)
  {}

  /** Every step, honest or not, changes statuses only as MoveOk says. */
  lemma StepMoves(s: State, e: Event, n: NodeId)
    requires WF(s) && n in s.status
    ensures MoveOk(s, Step(s, e), e, n)
  {
    match e
    case Started(w, k) => StartedMoves(s, w, k, n);
    case Completed(w, k) => CompletedMoves(s, w, k, n);
    case Uploaded(k, a) => UploadedMoves(s, k, a, n);
    case FailedEvent(w, k) => FailedMoves(s, w, k, n);
    case HoldRequest(w) => HoldMoves(s, w, n);
    case Perform(c) => PerformMoves(s, c, n);
    case Beat(w) => WorkerMoves(s, w, n);
    case GoesStale(w) => WorkerMoves(s, w, n);
  }

  /** In a state with honest workers a scheduling call changes no status. */
  lemma PerformMovesNothing(s: State, c: Call)
    requires Inv(s)
    ensures var t := Step(s, Perform(c)); t.status == s.status && t.retries == s.retries && t.published == s.published
  {
    if c in s.calls {
      PerformRuns(s, c);
      TakeCallKeeps(s, c);
      CallMovesNothing(TakeCall(s, c), c);
    }
  }

  lemma CallMovesNothing(s: State, c: Call)
    requires Inv(s)
    ensures var t := RunCall(s, c); t.status == s.status && t.retries == s.retries && t.published == s.published
  {
    if c.RequeueHeld? { RequeueHeldKeeps(s, c.worker); } else { DispatchKeepsNodes(s, c); }
  }

  // ---------------------------------------------------------------- closed frontier

  lemma QueueOutstandingCloses(s: State)
    requires WF(s)
    ensures Closed(QueueOutstanding(s))
  {
    var t := QueueOutstanding(s);
    QueueOutstandingEffect(s);
    forall n | n in t.wf.nodes ensures !IsReady(n, t.wf, t.status, t.published) {
      if IsReady(n, t.wf, t.status, t.published) {
        assert s.status[n] == Pending;
        MetMonotone(n, s.wf.nodes[n].edges, t.status, s.status, s.published);
      }
    }
  }

  /** Satisfied edges stay satisfied when the succeeded nodes and the artifacts only grow. */
  lemma MetMonotone(n: NodeId, edges: seq<EdgeDto>, before: map<NodeId, DagNodeStatus>,
                    after: map<NodeId, DagNodeStatus>,
                    published: set<ArtifactId>)
    requires AllMet(n, edges, before, published)
    requires forall m :: m in before && before[m] == Succeeded ==> m in after && after[m] == Succeeded
    ensures AllMet(n, edges, after, published)
  {}

  lemma MetGrows(n: NodeId, edges: seq<EdgeDto>, s: State, t: State)
    requires WF(s) && WF(t) && Evolves(s, t)
    requires AllMet(n, edges, s.status, s.published)
    ensures AllMet(n, edges, t.status, t.published)
  {}

  /** A step that enters neither Pending nor Succeeded and publishes nothing opens no node. */
  lemma NothingOpens(s: State, t: State)
    requires WF(s) && WF(t) && t.wf == s.wf && t.published == s.published && Closed(s)
    requires forall n :: n in s.status && t.status[n] != s.status[n] ==>
               t.status[n] != Succeeded && t.status[n] != Pending
    ensures Closed(t)
  {
    forall n | n in t.wf.nodes ensures !IsReady(n, t.wf, t.status, t.published) {
      if IsReady(n, t.wf, t.status, t.published) {
        MetMonotone(n, s.wf.nodes[n].edges, t.status, s.status, s.published);
      }
    }
  }

  lemma UploadedCloses(s: State, n: NodeId, a: ArtifactId)
    requires WF(s) && Closed(s)
    ensures Closed(ArtifactUploaded(s, n, a))
  {
    if n in s.wf.nodes && a !in s.published {
      var done := Select(s.wf.order, CompleteSet(s.wf, s.status, s.published + {a}));
      QueueOutstandingCloses(s.(status := MarkAll(s.status, done, Succeeded), published := s.published + {a}));
    }
  }

  /** Every handler, for every event of any worker, leaves the frontier closed. */
  lemma OtherStepCloses(s: State, e: Event)
    requires WF(s) && Closed(s) && !e.Completed? && !e.Uploaded?
    ensures Closed(Step(s, e))
  {
    forall n | n in s.status { StepMoves(s, e, n); }
    NothingOpens(s, Step(s, e));
  }

  lemma CompletedCloses(s: State, n: NodeId)
    requires WF(s) && Closed(s)
    ensures Closed(TaskCompleted(s, n))
  {
    if CanMove(s, n, Succeeded) { QueueOutstandingCloses(Mark(s, n, Succeeded)); }
  }

  lemma StepCloses(s: State, e: Event)
    requires WF(s) && Closed(s)
    ensures Closed(Step(s, e))
  {
    match e
    case Completed(_, n) => CompletedCloses(s, n);
    case Uploaded(n, a) => UploadedCloses(s, n, a);
    case _ => OtherStepCloses(s, e);
  }

  /** From the creation of a workflow on, no run of handlers ever leaves an enabled node
      Pending. */
  lemma {:induction false} FrontierAlwaysClosed(s: State, es: seq<Event>)
    requires WF(s) && Closed(s)
    ensures Closed(Exec(s, es))
    decreases es
  {
    if es != [] {
      StepCloses(s, es[0]);
      FrontierAlwaysClosed(Step(s, es[0]), es[1..]);
    }
  }

  lemma CreatedCloses(wf: Workflow, workers: seq<Worker>, clock: nat)
    requires Distinct(wf.order) && ToSet(wf.order) == wf.nodes.Keys
    ensures Closed(Created(wf, workers, clock))
  {
    QueueOutstandingCloses(Fresh(wf, workers, clock));
  }

  // ---------------------------------------------------------------- dependency safety

  function HeldNodes(s: State): set<NodeId> {
    set n | n in s.status && s.status[n] == OnHold
  }

  /** The nodes that are on hold in some state of the run. */
  function EverHeld(s: State, es: seq<Event>): set<NodeId>
    requires WF(s)
    decreases es
  {
    HeldNodes(s) + if es == [] then {} else EverHeld(Step(s, es[0]), es[1..])
  }

  predicate Active(st: DagNodeStatus) {
    st in {Queued, Running, Failed, Succeeded}
  }

  /** Every active node outside `held` has all its dependencies met. */
  ghost predicate DependenciesMet(s: State, held: set<NodeId>)
    requires WF(s)
  {
    forall n :: n in s.wf.nodes && n !in held && Active(s.status[n]) ==>
             AllMet(n, s.wf.nodes[n].edges, s.status, s.published)
  }

  /** When a node leaves Pending other than by being put on hold or canceled, it becomes
      Queued and all its dependencies are met. */
  lemma FirstQueued(s: State, e: Event, n: NodeId)
    requires Inv(s) && n in s.status && s.status[n] == Pending
    ensures var t := Step(s, e);
            || t.status[n] in {Pending, OnHold, Canceled}
            || (t.status[n] == Queued && AllMet(n, s.wf.nodes[n].edges, t.status, t.published))
  {
    StepMoves(s, e, n);
    if e.Perform? { PerformMovesNothing(s, e.call); }
  }

  /** With honest workers a Canceled node stays Canceled. */
  lemma CanceledStays(s: State, e: Event, n: NodeId)
    requires Inv(s) && Honest(s, e) && n in s.status && s.status[n] == Canceled
    ensures Step(s, e).status[n] == Canceled
  {
    StepMoves(s, e, n);
    if e.FailedEvent? && CanMove(s, e.nodeId, Failed) { FailedSplit(s, e.worker, e.nodeId); }
  }

  lemma StepKeepsMet(s: State, e: Event, held: set<NodeId>, n: NodeId)
    requires Inv(s) && Honest(s, e) && HeldNodes(s) <= held && DependenciesMet(s, held)
    requires n in s.wf.nodes && n !in held && Active(Step(s, e).status[n])
    ensures var t := Step(s, e); AllMet(n, t.wf.nodes[n].edges, t.status, t.published)
  {
    if s.status[n] == Pending {
      FirstQueued(s, e, n);
    } else if s.status[n] == Canceled {
      CanceledStays(s, e, n);
    } else {
      assert n !in HeldNodes(s);
      StepEvolves(s, e);
      MetGrows(n, s.wf.nodes[n].edges, s, Step(s, e));
    }
  }

  lemma StepKeepsDependencies(s: State, e: Event, held: set<NodeId>)
    requires Inv(s) && Honest(s, e) && HeldNodes(s) <= held && DependenciesMet(s, held)
    ensures DependenciesMet(Step(s, e), held)
  {
    forall n | n in s.wf.nodes && n !in held && Active(Step(s, e).status[n]) { StepKeepsMet(s, e, held, n); }
  }

  /** On every honest run, a node that was never on hold is Queued, Running, Failed or
      Succeeded only with all its dependencies met. */
  lemma {:induction false} DependencySafety(s: State, es: seq<Event>, held: set<NodeId>)
    requires Inv(s) && HonestRun(s, es) && EverHeld(s, es) <= held && DependenciesMet(s, held)
    ensures DependenciesMet(Exec(s, es), held)
    decreases es
  {
    if es != [] {
      StepKeeps(s, es[0]);
      StepKeepsDependencies(s, es[0], held);
      DependencySafety(Step(s, es[0]), es[1..], held);
    }
  }

  lemma CreatedDependencies(wf: Workflow, workers: seq<Worker>, clock: nat)
    requires Distinct(wf.order) && ToSet(wf.order) == wf.nodes.Keys
    ensures DependenciesMet(Created(wf, workers, clock), {})
    ensures HeldNodes(Created(wf, workers, clock)) == {}
  {
    var s := Fresh(wf, workers, clock);
    forall n | n in wf.nodes { QueueOutstandingMoves(s, n); }
  }

  // ---------------------------------------------------------------- runs without holds

  predicate HoldFree(es: seq<Event>) {
    forall e :: e in es ==> !e.HoldRequest?
  }

  lemma OnlyHoldRequestsHold(s: State, e: Event)
    requires WF(s) && !e.HoldRequest?
    ensures HeldNodes(Step(s, e)) <= HeldNodes(s)
  {
    forall n | n in s.status { StepMoves(s, e, n); }
  }

  lemma {:induction false} HoldFreeRun(s: State, es: seq<Event>)
    requires Inv(s) && HonestRun(s, es) && HoldFree(es) && HeldNodes(s) == {}
    ensures EverHeld(s, es) == {}
    decreases es
  {
    if es != [] {
      assert es[0] in es;
      OnlyHoldRequestsHold(s, es[0]);
      StepKeeps(s, es[0]);
      HoldFreeRun(Step(s, es[0]), es[1..]);
    }
  }

  // ---------------------------------------------------------------- order of success

  function NewlySucceeded(s: State, t: State): seq<NodeId> {
    Select(s.wf.order,
           set n | n in s.wf.nodes && n in s.status && n in t.status
                   && s.status[n] != Succeeded && t.status[n] == Succeeded)
  }

  /** The nodes in the order in which they succeed along the run. */
  function SuccessLog(s: State, es: seq<Event>): seq<NodeId>
    requires WF(s)
    decreases es
  {
    if es == [] then [] else NewlySucceeded(s, Step(s, es[0])) + SuccessLog(Step(s, es[0]), es[1..])
  }

  /** Every task dependency of a logged node outside `held` is logged before it. */
  ghost predicate Topological(log: seq<NodeId>, wf: Workflow, held: set<NodeId>) {
    forall j, e ::
      (&& 0 <= j < |log| && log[j] !in held && log[j] in wf.nodes
       && e in wf.nodes[log[j]].edges && e.toId == log[j] && e.conditionType == TaskType)
      ==> e.fromId in log[..j]
  }

  ghost predicate LogsSuccess(log: seq<NodeId>, s: State) {
    forall n :: n in s.status ==> (n in log <==> s.status[n] == Succeeded)
  }

  /** A node that succeeds was Running, so its dependencies were met before the step. */
  lemma SucceedsWhenMet(s: State, e: Event, n: NodeId, held: set<NodeId>)
    requires WF(s) && n in s.status && n !in held && DependenciesMet(s, held)
    requires s.status[n] != Succeeded && Step(s, e).status[n] == Succeeded
    ensures AllMet(n, s.wf.nodes[n].edges, s.status, s.published)
  {
    StepMoves(s, e, n);
  }

  lemma LogStep(s: State, e: Event, log: seq<NodeId>, held: set<NodeId>)
    requires Inv(s) && Honest(s, e) && DependenciesMet(s, held)
    requires LogsSuccess(log, s) && Topological(log, s.wf, held)
    ensures var longer := log + NewlySucceeded(s, Step(s, e));
            LogsSuccess(longer, Step(s, e)) && Topological(longer, s.wf, held)
  {
    var added := NewlySucceeded(s, Step(s, e));
    StepEvolves(s, e);
    forall n | n in added
      ensures n in s.status && n !in log && (n !in held ==> AllMet(n, s.wf.nodes[n].edges, s.status, s.published)) {
      if n !in held { SucceedsWhenMet(s, e, n, held); }
    }
    LogExtends(s, log, added, held);
    StillLogged(s, Step(s, e), log, added);
  }

  lemma StillLogged(s: State, t: State, log: seq<NodeId>, added: seq<NodeId>)
    requires WF(s) && WF(t) && t.wf == s.wf && Evolves(s, t) && LogsSuccess(log, s) && added == NewlySucceeded(s, t)
    ensures LogsSuccess(log + added, t)
  {
    forall n | n in t.status ensures n in log + added <==> t.status[n] == Succeeded {
      assert n in log + added <==> n in log || n in added;
    }
  }

  /** Nodes that succeed with their dependencies met may follow the nodes that succeeded before. */
  lemma LogExtends(s: State, log: seq<NodeId>, added: seq<NodeId>, held: set<NodeId>)
    requires WF(s) && LogsSuccess(log, s) && Topological(log, s.wf, held)
    requires forall n :: n in added ==>
               n in s.status && (n !in held ==> AllMet(n, s.wf.nodes[n].edges, s.status, s.published))
    ensures Topological(log + added, s.wf, held)
  {
    var longer := log + added;
    forall j, d | 0 <= j < |longer| && longer[j] !in held && longer[j] in s.wf.nodes && d in s.wf.nodes[longer[j]].edges
      && d.toId == longer[j] && d.conditionType == TaskType
      ensures d.fromId in longer[..j]
    {
      if j < |log| {
        assert longer[..j] == log[..j] && longer[j] == log[j];
      } else {
        assert longer[j] in added;
        assert Satisfied(d, s.status, s.published);
        assert d.fromId in log;
        assert log == longer[..j][..|log|];
      }
    }
  }

  ghost predicate OrderInv(s: State, log: seq<NodeId>, held: set<NodeId>) {
    Inv(s) && DependenciesMet(s, held) && LogsSuccess(log, s) && Topological(log, s.wf, held)
  }

  lemma OrderStep(s: State, e: Event, log: seq<NodeId>, held: set<NodeId>)
    requires OrderInv(s, log, held) && Honest(s, e) && HeldNodes(s) <= held
    ensures OrderInv(Step(s, e), log + NewlySucceeded(s, Step(s, e)), held)
  {
    LogStep(s, e, log, held);
    StepKeeps(s, e);
    StepKeepsDependencies(s, e, held);
  }

  lemma LogUnfolds(s: State, es: seq<Event>, log: seq<NodeId>)
    requires WF(s)
    ensures es == [] ==> log + SuccessLog(s, es) == log && Exec(s, es) == s
    ensures es != [] ==>
              var t := Step(s, es[0]);
              && log + SuccessLog(s, es) == log + NewlySucceeded(s, t) + SuccessLog(t, es[1..])
              && EverHeld(t, es[1..]) <= EverHeld(s, es) && HeldNodes(s) <= EverHeld(s, es)
  {
    if es == [] { assert log + [] == log; }
  }

  /** On every honest run the nodes that were never on hold succeed in a topological order
      of the task dependencies. */
  lemma {:induction false} SuccessOrder(s: State, es: seq<Event>, log: seq<NodeId>, held: set<NodeId>)
    requires OrderInv(s, log, held) && HonestRun(s, es) && EverHeld(s, es) <= held
    ensures OrderInv(Exec(s, es), log + SuccessLog(s, es), held)
    decreases es
  {
    LogUnfolds(s, es, log);
    if es != [] {
      OrderStep(s, es[0], log, held);
      SuccessOrder(Step(s, es[0]), es[1..], log + NewlySucceeded(s, Step(s, es[0])), held);
    }
  }
}
