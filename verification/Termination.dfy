/** Retries and termination: every status change lowers a measure, so a run with honest
    workers changes statuses only finitely often and starts no task too often. */
module Termination {
  import opened WorkflowTypes
  import opened SchedulerModel
  import opened NodeMachine
  import opened Placement
  import opened Frontier

  function Limit(wf: Workflow, n: NodeId): nat {
    if n in wf.nodes then wf.nodes[n].task.retryPolicy.maxRetryCount else 0
  }

  // ---------------------------------------------------------------- the retry budget

  /** A node's retry count passes its limit only by one, and then the node is Failed. */
  ghost predicate InBudget(s: State, n: NodeId)
    requires WF(s) && n in s.status
  {
    s.retries[n] <= Limit(s.wf, n) || (s.retries[n] == Limit(s.wf, n) + 1 && s.status[n] == Failed)
  }

  ghost predicate WithinBudget(s: State)
    requires WF(s)
  {
    forall n :: n in s.status ==> InBudget(s, n)
  }

  lemma FailureInBudget(s: State, n: NodeId, m: NodeId)
    requires WF(s) && CanMove(s, n, Failed) && s.status[n] == Running
    requires m in s.status && InBudget(s, n) && InBudget(s, m)
    ensures InBudget(TaskFailed(s, n), m)
  {
    FailedNodes(s, n);
    CancelMoves(MarkFailed(s, n), m);
  }

  lemma FailedBudget(s: State, w: string, n: NodeId)
    requires Inv(s) && WorksOn(s, w, n) && WithinBudget(s)
    ensures WithinBudget(TaskFailed(s, n))
  {
    if CanMove(s, n, Failed) {
      FailedSplit(s, w, n);
      forall m | m in s.status ensures InBudget(TaskFailed(s, n), m) { FailureInBudget(s, n, m); }
    }
  }

  /** With honest workers only a failure report changes retry counts. */
  lemma StepKeepsBudget(s: State, e: Event)
    requires Inv(s) && Honest(s, e) && WithinBudget(s)
    ensures WithinBudget(Step(s, e))
  {
    if e.FailedEvent? {
      FailedBudget(s, e.worker, e.nodeId);
    } else {
      if e.Perform? { PerformMovesNothing(s, e.call); }
      forall n | n in s.status { StepMoves(s, e, n); }
      RetriesKept(s, e);
    }
  }

  lemma UploadKeepsRetries(s: State, n: NodeId, a: ArtifactId)
    requires WF(s)
    ensures ArtifactUploaded(s, n, a).retries == s.retries
  {}

  lemma RequestKeepsRetries(s: State, w: string)
    requires WF(s)
    ensures HoldRequested(s, w).retries == s.retries
  {}

  lemma ReportKeepsRetries(s: State, n: NodeId)
    requires WF(s)
    ensures TaskStarted(s, n).retries == s.retries && TaskCompleted(s, n).retries == s.retries
  {}

  lemma WorkerKeepsRetries(s: State, w: string)
    requires WF(s)
    ensures Heartbeat(s, w).retries == s.retries && BecomesStale(s, w).retries == s.retries
  {}

  lemma RetriesKept(s: State, e: Event)
    requires Inv(s) && !e.FailedEvent?
    ensures Step(s, e).retries == s.retries
  {
    match e
    case Started(_, n) => ReportKeepsRetries(s, n);
    case Completed(_, n) => ReportKeepsRetries(s, n);
    case Uploaded(n, a) => UploadKeepsRetries(s, n, a);
    case HoldRequest(w) => RequestKeepsRetries(s, w);
    case Beat(w) => WorkerKeepsRetries(s, w);
    case GoesStale(w) => WorkerKeepsRetries(s, w);
    case Perform(c) => PerformMovesNothing(s, c);
  }

  lemma {:induction false} BudgetKept(s: State, es: seq<Event>)
    requires Inv(s) && HonestRun(s, es) && WithinBudget(s)
    ensures WithinBudget(Exec(s, es))
    decreases es
  {
    if es != [] {
      StepKeeps(s, es[0]);
      StepKeepsBudget(s, es[0]);
      BudgetKept(Step(s, es[0]), es[1..]);
    }
  }

  // ---------------------------------------------------------------- the measure

  function Rank(st: DagNodeStatus): nat {
    match st
    case Pending => 6
    case Failed => 5
    case Queued => 4
    case OnHold => 3
    case Running => 2
    case Succeeded => 1
    case Canceled => 1
  }

  /** Attempts left, then how far the current attempt has come. */
  function NodeMeasure(wf: Workflow, m: Machine, n: NodeId): int
    requires n in m.status && n in m.retries
  {
    (Limit(wf, n) + 1 - m.retries[n]) * 6 + Rank(m.status[n])
  }

  function Measure(wf: Workflow, m: Machine, ns: seq<NodeId>): int
    requires forall n :: n in ns ==> n in m.status && n in m.retries
  {
    if ns == [] then 0 else NodeMeasure(wf, m, ns[0]) + Measure(wf, m, ns[1..])
  }

  lemma NodeMeasureDrops(wf: Workflow, m: Machine, op: CasOp, n: NodeId)
    requires WellFormed(m) && n in m.status
    ensures var t := Cas(m, op);
            || (t.status[n] == m.status[n] && t.retries[n] == m.retries[n])
            || NodeMeasure(wf, t, n) < NodeMeasure(wf, m, n)
  {
    if op.CancelOne? {
      var pending := Select(m.order, PendingSet(m.status));
      if pending != [] { assert pending[0] in pending; }
    }
  }

  lemma {:induction false} MeasureDrops(wf: Workflow, m: Machine, op: CasOp, ns: seq<NodeId>)
    requires WellFormed(m) && forall n :: n in ns ==> n in m.status
    ensures Measure(wf, Cas(m, op), ns) <= Measure(wf, m, ns)
    ensures (exists n :: n in ns && (Cas(m, op).status[n] != m.status[n] || Cas(m, op).retries[n] != m.retries[n])) ==>
              Measure(wf, Cas(m, op), ns) < Measure(wf, m, ns)
  {
    if ns != [] {
      NodeMeasureDrops(wf, m, op, ns[0]);
      MeasureDrops(wf, m, op, ns[1..]);
      assert forall n :: n in ns <==> n == ns[0] || n in ns[1..];
    }
  }

  /** How many compare-and-sets of the sequence change the stored nodes. */
  function Changes(m: Machine, ops: seq<CasOp>): nat
    requires WellFormed(m)
    decreases ops
  {
    if ops == [] then 0 else (if Cas(m, ops[0]) != m then 1 else 0) + Changes(Cas(m, ops[0]), ops[1..])
  }

  lemma ChangeShows(m: Machine, op: CasOp)
    requires WellFormed(m) && Cas(m, op) != m
    ensures exists n :: n in m.order && (Cas(m, op).status[n] != m.status[n] || Cas(m, op).retries[n] != m.retries[n])
  {
    var t := Cas(m, op);
    assert forall n :: n in m.status ==> n in ToSet(m.order);
    assert t.status != m.status;
    var n :| n in m.status && t.status[n] != m.status[n];
  }

  /** Every effective compare-and-set lowers the measure, whoever issues it. */
  lemma {:induction false} ChangesLowerMeasure(wf: Workflow, m: Machine, ops: seq<CasOp>)
    requires WellFormed(m)
    ensures Measure(wf, CasRun(m, ops), m.order) + Changes(m, ops) <= Measure(wf, m, m.order)
    decreases ops
  {
    assert forall n :: n in m.order ==> n in ToSet(m.order);
    if ops != [] {
      MeasureDrops(wf, m, ops[0], m.order);
      if Cas(m, ops[0]) != m { ChangeShows(m, ops[0]); }
      ChangesLowerMeasure(wf, Cas(m, ops[0]), ops[1..]);
    }
  }

  lemma {:induction false} BudgetBoundsMeasure(s: State, ns: seq<NodeId>)
    requires WF(s) && WithinBudget(s) && forall n :: n in ns ==> n in s.status
    ensures Measure(s.wf, NodesOf(s), ns) >= 0
  {
    if ns != [] {
      assert ns[0] in ns;
      BudgetBoundsMeasure(s, ns[1..]);
    }
  }

  // ---------------------------------------------------------------- the theorems

  /** On an honest run the number of status changes is bounded by the initial measure, so
      no run changes statuses for ever. */
  lemma FinitelyManyChanges(s: State, es: seq<Event>)
    requires Inv(s) && HonestRun(s, es) && WithinBudget(s)
    ensures Changes(NodesOf(s), RunOps(s, es)) <= Measure(s.wf, NodesOf(s), s.wf.order)
  {
    var t := Exec(s, es);
    BudgetKept(s, es);
    RunIsCas(s, es);
    RunEvolves(s, es);
    assert forall n :: n in s.wf.order ==> n in ToSet(s.wf.order);
    BudgetBoundsMeasure(t, s.wf.order);
    ChangesLowerMeasure(s.wf, NodesOf(s), RunOps(s, es));
  }

  /** On an honest run no task is started more often than its retry limit plus one. */
  lemma StartsBounded(s: State, es: seq<Event>, n: NodeId)
    requires Inv(s) && HonestRun(s, es) && WithinBudget(s) && n in s.status
    requires s.retries[n] == 0 && s.status[n] in {Pending, Queued}
    ensures Entries(NodesOf(s), RunOps(s, es), n, Running) <= Limit(s.wf, n) + 1
  {
    BudgetKept(s, es);
    RunIsCas(s, es);
    RunEvolves(s, es);
    CasRunSafety(NodesOf(s), RunOps(s, es), n);
  }
}
