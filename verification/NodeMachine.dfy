/** The stored nodes as a machine of single compare-and-sets, and what no sequence of
    them can do, whoever issues them and however handlers interleave. */
module NodeMachine {
  import opened WorkflowTypes
  import opened SchedulerModel

  datatype Machine = Machine(order: seq<NodeId>, status: map<NodeId, DagNodeStatus>, retries: map<NodeId, nat>)

  // One guarded update of the database.  Fail also counts a retry.
  datatype CasOp = Move(nodeId: NodeId, to: DagNodeStatus) | Fail(nodeId: NodeId) | CancelOne

  ghost predicate WellFormed(m: Machine) {
    ToSet(m.order) == m.status.Keys == m.retries.Keys
  }

  function NodesOf(s: State): Machine {
    Machine(s.wf.order, s.status, s.retries)
  }

  function Cas(m: Machine, op: CasOp): (r: Machine)
    requires WellFormed(m)
    ensures WellFormed(r) && r.order == m.order
  {
    match op
    case Move(n, to) =>
      if to != Failed && n in m.status && m.status[n] in Proceeding(to) then m.(status := m.status[n := to]) else m
    case Fail(n) =>
      if n in m.status && m.status[n] in Proceeding(Failed) then
        m.(status := m.status[n := Failed], retries := m.retries[n := m.retries[n] + 1])
      else m
    case CancelOne =>
      var pending := Select(m.order, PendingSet(m.status));
      if pending == [] then m else m.(status := m.status[pending[0] := Canceled])
  }

  function CasRun(m: Machine, ops: seq<CasOp>): (r: Machine)
    requires WellFormed(m)
    ensures WellFormed(r) && r.order == m.order
    decreases ops
  {
    if ops == [] then m else CasRun(Cas(m, ops[0]), ops[1..])
  }

  /** How often node `n` enters status `to` along the sequence. */
  function Entries(m: Machine, ops: seq<CasOp>, n: NodeId, to: DagNodeStatus): nat
    requires WellFormed(m) && n in m.status
    decreases ops
  {
    if ops == [] then 0
    else
      var next := Cas(m, ops[0]);
      (if m.status[n] != to && next.status[n] == to then 1 else 0) + Entries(next, ops[1..], n, to)
  }

  /** 1 for a node in its current attempt after its start. */
  function Begun(st: DagNodeStatus): nat {
    if st == Running || st == Succeeded then 1 else 0
  }

  lemma CasSafety(m: Machine, op: CasOp, n: NodeId)
    requires WellFormed(m) && n in m.status
    ensures var st, next := m.status[n], Cas(m, op);
            && (st == Succeeded ==> next.status[n] == Succeeded)
            && (st != Pending ==> next.status[n] != Pending)
            && next.retries[n] == m.retries[n] + (if st != Failed && next.status[n] == Failed then 1 else 0)
            && Begun(st) + (if st != Running && next.status[n] == Running then 1 else 0)
               <= (if st != Failed && next.status[n] == Failed then 1 else 0) + Begun(next.status[n])
  {
    match op
    case Move(k, to) =>
    case Fail(k) =>
    case CancelOne =>
      var pending := Select(m.order, PendingSet(m.status));
      if pending != [] { assert pending[0] in pending; }
  }

  /** For every sequence of compare-and-sets: Succeeded is absorbing, Pending is never
      entered again, the retry count is the number of failures, and a node starts at most
      once more than it failed. */
  lemma {:induction false} CasRunSafety(m: Machine, ops: seq<CasOp>, n: NodeId)
    requires WellFormed(m) && n in m.status
    ensures m.status[n] == Succeeded ==> CasRun(m, ops).status[n] == Succeeded
    ensures m.status[n] != Pending ==> CasRun(m, ops).status[n] != Pending
    ensures CasRun(m, ops).retries[n] == m.retries[n] + Entries(m, ops, n, Failed)
    ensures Begun(m.status[n]) + Entries(m, ops, n, Running) <=
              Entries(m, ops, n, Failed) + Begun(CasRun(m, ops).status[n])
    decreases ops
  {
    if ops != [] {
      CasSafety(m, ops[0], n);
      CasRunSafety(Cas(m, ops[0]), ops[1..], n);
    }
  }

  lemma CasRunFirst(m: Machine, op: CasOp, rest: seq<CasOp>)
    requires WellFormed(m)
    ensures CasRun(m, [op] + rest) == CasRun(Cas(m, op), rest)
  {
    assert ([op] + rest)[1..] == rest;
  }

  lemma {:induction false} CasRunConcat(m: Machine, a: seq<CasOp>, b: seq<CasOp>)
    requires WellFormed(m)
    ensures CasRun(m, a + b) == CasRun(CasRun(m, a), b)
    decreases a
  {
    if a == [] {
      assert a + b == b;
    } else {
      assert (a + b)[1..] == a[1..] + b;
      CasRunConcat(Cas(m, a[0]), a[1..], b);
    }
  }

  // ---------------------------------------------------------------- handlers as sequences

  function QueueOps(s: State, ns: seq<NodeId>): seq<CasOp>
    requires WF(s)
    decreases ns
  {
    if ns == [] || !CanMove(s, ns[0], Queued) then []
    else [Move(ns[0], Queued)] + QueueOps(QueueNode(s, ns[0]), ns[1..])
  }

  function SucceedOps(ns: seq<NodeId>): seq<CasOp> {
    if ns == [] then [] else [Move(ns[0], Succeeded)] + SucceedOps(ns[1..])
  }

  function HoldOps(s: State, preferred: seq<NodeId>, attempts: nat): seq<CasOp>
    requires WF(s)
    decreases attempts
  {
    if attempts == 0 then []
    else
      var (rest, task) := HoldCandidate(s, preferred);
      if task.Some? && CanMove(rest, task.value.nodeId, OnHold) then [Move(task.value.nodeId, OnHold)]
      else HoldOps(rest, preferred, attempts - 1)
  }

  function RequeueOps(s: State, i: nat, held: seq<QueuedTask>): seq<CasOp>
    requires WF(s) && i < |s.workers|
    decreases held
  {
    if held == [] then []
    else
      [Move(held[0].nodeId, Queued)] +
      (if CanMove(s, held[0].nodeId, Queued) then RequeueOps(PopHold(QueueNode(s, held[0].nodeId), i), i, held[1..])
       else RequeueOps(s, i, held[1..]))
  }

  function CompletedOps(s: State, n: NodeId): seq<CasOp>
    requires WF(s)
  {
    if !CanMove(s, n, Succeeded) then []
    else
      var done := Mark(s, n, Succeeded);
      [Move(n, Succeeded)] + QueueOps(done, Outstanding(done.wf, done.status, done.published))
  }

  function FailedOps(s: State, n: NodeId): seq<CasOp>
    requires WF(s)
  {
    if !CanMove(s, n, Failed) then []
    else if Exhausted(MarkFailed(s, n), n) then [Fail(n), CancelOne]
    else [Fail(n), Move(n, Queued)]
  }

  function UploadedOps(s: State, n: NodeId, a: ArtifactId): seq<CasOp>
    requires WF(s)
  {
    if n !in s.wf.nodes || a in s.published then []
    else
      var published := s.(published := s.published + {a});
      var done := Select(s.wf.order, CompleteSet(s.wf, s.status, published.published));
      var marked := published.(status := MarkAll(s.status, done, Succeeded));
      SucceedOps(done) + QueueOps(marked, Outstanding(marked.wf, marked.status, marked.published))
  }

  function HoldRequestOps(s: State, w: string): seq<CasOp>
    requires WF(s)
  {
    if HoldAccepted(s, w) then HoldOps(s, Preferred(s, w), HOLD_ATTEMPTS) else []
  }

  function PerformOps(s: State, c: Call): seq<CasOp>
    requires WF(s)
  {
    if c !in s.calls || !c.RequeueHeld? then []
    else
      var started := s.(calls := s.calls - multiset{c});
      var i := FindWorker(started.workers, c.worker);
      if i == |started.workers| then [] else RequeueOps(started, i, started.workers[i].nodesOnHold)
  }

  /** The compare-and-sets that the handler of an event issues and that succeed. */
  function OpsOf(s: State, e: Event): seq<CasOp>
    requires WF(s)
  {
    match e
    case Started(_, n) => [Move(n, Running)]
    case Completed(_, n) => CompletedOps(s, n)
    case FailedEvent(_, n) => FailedOps(s, n)
    case Uploaded(n, a) => UploadedOps(s, n, a)
    case HoldRequest(w) => HoldRequestOps(s, w)
    case Perform(c) => PerformOps(s, c)
    case Beat(_) => []
    case GoesStale(_) => []
  }

  lemma {:induction false} QueueAllIsCas(s: State, ns: seq<NodeId>)
    requires WF(s)
    ensures NodesOf(QueueAll(s, ns)) == CasRun(NodesOf(s), QueueOps(s, ns))
    decreases ns
  {
    if ns != [] && CanMove(s, ns[0], Queued) {
      QueueAllIsCas(QueueNode(s, ns[0]), ns[1..]);
    }
  }

  lemma MarkFirst(status: map<NodeId, DagNodeStatus>, ns: seq<NodeId>, to: DagNodeStatus)
    requires ns != [] && ns[0] in status
    ensures MarkAll(status[ns[0] := to], ns[1..], to) == MarkAll(status, ns, to)
  {
    assert forall n :: n in ns <==> n == ns[0] || n in ns[1..];
  }

  lemma {:induction false} MarkAllIsCas(m: Machine, ns: seq<NodeId>)
    requires WellFormed(m) && Distinct(ns)
    requires forall n :: n in ns ==> n in m.status && m.status[n] == Running
    ensures CasRun(m, SucceedOps(ns)) == m.(status := MarkAll(m.status, ns, Succeeded))
    decreases ns
  {
    if ns == [] {
      assert MarkAll(m.status, ns, Succeeded) == m.status;
    } else {
      var next := Cas(m, Move(ns[0], Succeeded));
      forall n | n in ns[1..] ensures n in next.status && next.status[n] == Running {
        var k :| 0 <= k < |ns[1..]| && ns[1..][k] == n;
        assert ns[k + 1] == n && ns[0] != ns[k + 1];
      }
      assert ns[0] in ns;
      MarkFirst(m.status, ns, Succeeded);
      MarkAllIsCas(next, ns[1..]);
    }
  }

  lemma {:induction false} PutOnHoldIsCas(s: State, i: nat, preferred: seq<NodeId>, attempts: nat)
    requires WF(s) && i < |s.workers|
    ensures NodesOf(PutOnHold(s, i, preferred, attempts)) == CasRun(NodesOf(s), HoldOps(s, preferred, attempts))
    decreases attempts
  {
    if attempts != 0 {
      var (rest, task) := HoldCandidate(s, preferred);
      if task.Some? && CanMove(rest, task.value.nodeId, OnHold) {
        CasRunOne(NodesOf(s), Move(task.value.nodeId, OnHold));
      } else {
        PutOnHoldIsCas(rest, i, preferred, attempts - 1);
      }
    }
  }

  lemma {:induction false} RequeueIsCas(s: State, i: nat, held: seq<QueuedTask>)
    requires WF(s) && i < |s.workers|
    ensures NodesOf(RequeueAllHeld(s, i, held)) == CasRun(NodesOf(s), RequeueOps(s, i, held))
    decreases held
  {
    if held == [] {
    } else if CanMove(s, held[0].nodeId, Queued) {
      RequeueIsCas(PopHold(QueueNode(s, held[0].nodeId), i), i, held[1..]);
    } else {
      RequeueIsCas(s, i, held[1..]);
    }
  }

  lemma CasRunOne(m: Machine, op: CasOp)
    requires WellFormed(m)
    ensures CasRun(m, [op]) == Cas(m, op)
  {
    assert CasRun(Cas(m, op), [op][1..]) == Cas(m, op);
  }

  lemma StartedIsCas(s: State, n: NodeId)
    requires WF(s)
    ensures NodesOf(TaskStarted(s, n)) == CasRun(NodesOf(s), [Move(n, Running)])
  {
    CasRunOne(NodesOf(s), Move(n, Running));
  }

  lemma CompletedIsCas(s: State, n: NodeId)
    requires WF(s)
    ensures NodesOf(TaskCompleted(s, n)) == CasRun(NodesOf(s), CompletedOps(s, n))
  {
    if CanMove(s, n, Succeeded) {
      var done := Mark(s, n, Succeeded);
      var ready := Outstanding(done.wf, done.status, done.published);
      CasRunFirst(NodesOf(s), Move(n, Succeeded), QueueOps(done, ready));
      QueueAllIsCas(done, ready);
    }
  }

  lemma FailIsCas(s: State, n: NodeId)
    requires WF(s) && CanMove(s, n, Failed)
    ensures NodesOf(MarkFailed(s, n)) == Cas(NodesOf(s), Fail(n))
  {}

  lemma RetryIsCas(s: State, n: NodeId)
    requires WF(s) && CanMove(s, n, Failed) && !Exhausted(MarkFailed(s, n), n)
    ensures NodesOf(TaskFailed(s, n)) == Cas(Cas(NodesOf(s), Fail(n)), Move(n, Queued))
  {
    FailIsCas(s, n);
    assert NodesOf(QueueNode(MarkFailed(s, n), n)) == Cas(NodesOf(MarkFailed(s, n)), Move(n, Queued));
  }

  lemma GiveUpIsCas(s: State, n: NodeId)
    requires WF(s) && CanMove(s, n, Failed) && Exhausted(MarkFailed(s, n), n)
    ensures NodesOf(TaskFailed(s, n)) == Cas(Cas(NodesOf(s), Fail(n)), CancelOne)
  {
    FailIsCas(s, n);
    assert NodesOf(CancelFirst(MarkFailed(s, n))) == Cas(NodesOf(MarkFailed(s, n)), CancelOne);
  }

  lemma FailedIsCas(s: State, n: NodeId)
    requires WF(s)
    ensures NodesOf(TaskFailed(s, n)) == CasRun(NodesOf(s), FailedOps(s, n))
  {
    if CanMove(s, n, Failed) {
      var second := if Exhausted(MarkFailed(s, n), n) then CancelOne else Move(n, Queued);
      if Exhausted(MarkFailed(s, n), n) { GiveUpIsCas(s, n); } else { RetryIsCas(s, n); }
      assert [Fail(n), second] == [Fail(n)] + [second];
      CasRunFirst(NodesOf(s), Fail(n), [second]);
      CasRunOne(Cas(NodesOf(s), Fail(n)), second);
    }
  }

  lemma UploadedIsCas(s: State, n: NodeId, a: ArtifactId)
    requires WF(s)
    ensures NodesOf(ArtifactUploaded(s, n, a)) == CasRun(NodesOf(s), UploadedOps(s, n, a))
  {
    if n in s.wf.nodes && a !in s.published {
      var published := s.(published := s.published + {a});
      var done := Select(s.wf.order, CompleteSet(s.wf, s.status, published.published));
      var marked := published.(status := MarkAll(s.status, done, Succeeded));
      var ready := Outstanding(marked.wf, marked.status, marked.published);
      MarkAllIsCas(NodesOf(s), done);
      QueueAllIsCas(marked, ready);
      CasRunConcat(NodesOf(s), SucceedOps(done), QueueOps(marked, ready));
    }
  }

  lemma HoldIsCas(s: State, w: string)
    requires WF(s)
    ensures NodesOf(HoldRequested(s, w)) == CasRun(NodesOf(s), HoldRequestOps(s, w))
  {
    if HoldAccepted(s, w) { PutOnHoldIsCas(s, FindWorker(s.workers, w), Preferred(s, w), HOLD_ATTEMPTS); }
  }

  lemma DispatchKeepsNodes(s: State, c: Call)
    requires WF(s) && !c.RequeueHeld?
    ensures var t := RunCall(s, c); t == s.(workers := t.workers, queue := t.queue, clock := t.clock)
  {}

  lemma PerformIsCas(s: State, c: Call)
    requires WF(s)
    ensures NodesOf(Step(s, Perform(c))) == CasRun(NodesOf(s), PerformOps(s, c))
  {
    if c in s.calls {
      var started := s.(calls := s.calls - multiset{c});
      if c.RequeueHeld? {
        var i := FindWorker(started.workers, c.worker);
        if i < |started.workers| { RequeueIsCas(started, i, started.workers[i].nodesOnHold); }
      } else {
        DispatchKeepsNodes(started, c);
      }
    }
  }

  /** Every handler changes the stored nodes by a sequence of compare-and-sets only. */
  lemma StepIsCas(s: State, e: Event)
    requires WF(s)
    ensures NodesOf(Step(s, e)) == CasRun(NodesOf(s), OpsOf(s, e))
  {
    match e
    case Started(_, n) => StartedIsCas(s, n);
    case Completed(_, n) => CompletedIsCas(s, n);
    case FailedEvent(_, n) => FailedIsCas(s, n);
    case Uploaded(n, a) => UploadedIsCas(s, n, a);
    case HoldRequest(w) => HoldIsCas(s, w);
    case Perform(c) => PerformIsCas(s, c);
    case Beat(_) =>
    case GoesStale(_) =>
  }

  function RunOps(s: State, es: seq<Event>): seq<CasOp>
    requires WF(s)
    decreases es
  {
    if es == [] then [] else OpsOf(s, es[0]) + RunOps(Step(s, es[0]), es[1..])
  }

  /** So does every run of handlers, with dishonest workers too. */
  lemma {:induction false} RunIsCas(s: State, es: seq<Event>)
    requires WF(s)
    ensures NodesOf(Exec(s, es)) == CasRun(NodesOf(s), RunOps(s, es))
    decreases es
  {
    if es != [] {
      StepIsCas(s, es[0]);
      RunIsCas(Step(s, es[0]), es[1..]);
      CasRunConcat(NodesOf(s), OpsOf(s, es[0]), RunOps(Step(s, es[0]), es[1..]));
    }
  }

  /** What a step cannot undo. */
  ghost predicate Evolves(s: State, t: State)
    requires WF(s) && WF(t)
  {
    && t.wf == s.wf
    && s.published <= t.published
    && forall n :: n in s.status ==>
         && (s.status[n] == Succeeded ==> t.status[n] == Succeeded)
         && (s.status[n] != Pending ==> t.status[n] != Pending)
         && s.retries[n] <= t.retries[n]
  }

  /** Every step, honest or not, keeps the workflow, only adds artifacts, and never leaves
      Succeeded, re-enters Pending or lowers a retry count. */
  lemma StepEvolves(s: State, e: Event)
    requires WF(s)
    ensures Evolves(s, Step(s, e))
  {
    StepIsCas(s, e);
    forall n | n in s.status
      ensures var t := Step(s, e);
              && (s.status[n] == Succeeded ==> t.status[n] == Succeeded)
              && (s.status[n] != Pending ==> t.status[n] != Pending)
              && s.retries[n] <= t.retries[n]
    {
      CasRunSafety(NodesOf(s), OpsOf(s, e), n);
    }
  }

  lemma {:induction false} RunEvolves(s: State, es: seq<Event>)
    requires WF(s)
    ensures Evolves(s, Exec(s, es))
    decreases es
  {
    if es != [] {
      StepEvolves(s, es[0]);
      RunEvolves(Step(s, es[0]), es[1..]);
    }
  }
}
