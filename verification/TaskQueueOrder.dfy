/** The order in which tasks leave the queue. */
module TaskQueueOrder {
  import opened WorkflowTypes
  import opened SchedulerModel

  /** What leaves the queue when it is emptied by dequeues alone. */
  function Drain(q: seq<QueuedTask>): seq<QueuedTask>
    decreases |q|
  {
    if q == [] then [] else [q[MinIndex(q)]] + Drain(RemoveAt(q, MinIndex(q)))
  }

  lemma Removed(q: seq<QueuedTask>, k: nat)
    requires k < |q|
    ensures multiset(q) == multiset([q[k]]) + multiset(RemoveAt(q, k))
  {
    assert q == q[..k] + [q[k]] + q[k + 1..];
  }

  /** Emptying the queue yields everything in it once, and nothing that must precede an
      earlier entry. */
  lemma {:induction false} DrainSorts(q: seq<QueuedTask>)
    ensures multiset(Drain(q)) == multiset(q)
    ensures forall i, j :: 0 <= i < j < |Drain(q)| ==> !Before(Drain(q)[j], Drain(q)[i])
    decreases |q|
  {
    if q != [] {
      var k := MinIndex(q);
      var rest := Drain(RemoveAt(q, k));
      DrainSorts(RemoveAt(q, k));
      Removed(q, k);
      assert Drain(q) == [q[k]] + rest;
      forall j | 0 <= j < |rest| ensures !Before(rest[j], q[k]) {
        assert rest[j] in multiset(rest);
        assert rest[j] in multiset(q);
      }
    }
  }

  // ---------------------------------------------------------------- runs

  datatype QueueOp = Put(nodeId: NodeId, task: Task) | Take

  /** The entries put in by a run, stamped by a clock that advances with each. */
  function PutIn(ops: seq<QueueOp>, clock: nat): seq<QueuedTask> {
    if ops == [] then []
    else match ops[0]
      case Put(n, task) => [QueuedTask(n, task, clock)] + PutIn(ops[1..], clock + 1)
      case Take => PutIn(ops[1..], clock)
  }

  /** The entries taken out by a run, in order; taking from an empty queue yields nothing. */
  function TakenOut(q: seq<QueuedTask>, ops: seq<QueueOp>, clock: nat): seq<QueuedTask>
    decreases ops
  {
    if ops == [] then []
    else match ops[0]
      case Put(n, task) => TakenOut(q + [QueuedTask(n, task, clock)], ops[1..], clock + 1)
      case Take =>
        if q == [] then TakenOut(q, ops[1..], clock)
        else [q[MinIndex(q)]] + TakenOut(RemoveAt(q, MinIndex(q)), ops[1..], clock)
  }

  function LeftIn(q: seq<QueuedTask>, ops: seq<QueueOp>, clock: nat): seq<QueuedTask>
    decreases ops
  {
    if ops == [] then q
    else match ops[0]
      case Put(n, task) => LeftIn(q + [QueuedTask(n, task, clock)], ops[1..], clock + 1)
      case Take => LeftIn(if q == [] then q else RemoveAt(q, MinIndex(q)), ops[1..], clock)
  }

  /** Nothing is lost or made up: what was there and what is put in is taken out or left. */
  lemma {:induction false} QueueConserves(q: seq<QueuedTask>, ops: seq<QueueOp>, clock: nat)
    ensures multiset(q) + multiset(PutIn(ops, clock)) ==
              multiset(TakenOut(q, ops, clock)) + multiset(LeftIn(q, ops, clock))
    decreases ops
  {
    if ops != [] {
      match ops[0]
      case Put(n, task) =>
        var t := QueuedTask(n, task, clock);
        QueueConserves(q + [t], ops[1..], clock + 1);
        PutBalances(q, t, PutIn(ops[1..], clock + 1));
      case Take =>
        if q == [] {
          QueueConserves(q, ops[1..], clock);
        } else {
          var k := MinIndex(q);
          QueueConserves(RemoveAt(q, k), ops[1..], clock);
          TakeBalances(q, k, PutIn(ops[1..], clock), TakenOut(RemoveAt(q, k), ops[1..], clock),
                       LeftIn(RemoveAt(q, k), ops[1..], clock));
        }
    }
  }

  lemma PutBalances(q: seq<QueuedTask>, t: QueuedTask, put: seq<QueuedTask>)
    ensures multiset(q) + multiset([t] + put) == multiset(q + [t]) + multiset(put)
  {}

  lemma TakeBalances(q: seq<QueuedTask>, k: nat, put: seq<QueuedTask>, taken: seq<QueuedTask>, left: seq<QueuedTask>)
    requires k < |q| && multiset(RemoveAt(q, k)) + multiset(put) == multiset(taken) + multiset(left)
    ensures multiset(q) + multiset(put) == multiset([q[k]] + taken) + multiset(left)
  {
    Removed(q, k);
    var (head, rest) := (multiset([q[k]]), multiset(RemoveAt(q, k)));
    assert multiset([q[k]] + taken) == head + multiset(taken);
    assert multiset(q) + multiset(put) == head + (rest + multiset(put));
    assert (head + multiset(taken)) + multiset(left) == head + (multiset(taken) + multiset(left));
  }

  /** The stamps grow along the queue and lie in the past. */
  ghost predicate Stamped(q: seq<QueuedTask>, clock: nat) {
    && (forall i, j :: 0 <= i < j < |q| ==> q[i].addedAt < q[j].addedAt)
    && (forall i :: 0 <= i < |q| ==> q[i].addedAt < clock)
  }

  ghost predicate ArrivalOrder(log: seq<QueuedTask>) {
    forall i, j :: 0 <= i < j < |log| && log[i].task.priority == log[j].task.priority ==>
             log[i].addedAt < log[j].addedAt
  }

  /** Whatever a run takes out was there before or came after. */
  lemma {:induction false} TakenFrom(q: seq<QueuedTask>, ops: seq<QueueOp>, clock: nat, t: QueuedTask)
    requires t in TakenOut(q, ops, clock)
    ensures t in q || t.addedAt >= clock
    decreases ops
  {
    match ops[0]
    case Put(n, task) => TakenFrom(q + [QueuedTask(n, task, clock)], ops[1..], clock + 1, t);
    case Take =>
      if q == [] {
        TakenFrom(q, ops[1..], clock, t);
      } else if t != q[MinIndex(q)] {
        TakenFrom(RemoveAt(q, MinIndex(q)), ops[1..], clock, t);
      }
  }

  /** In any run, tasks of the same priority leave in the order in which they arrived. */
  lemma {:induction false} FirstComeFirstServed(q: seq<QueuedTask>, ops: seq<QueueOp>, clock: nat)
    requires Stamped(q, clock)
    ensures ArrivalOrder(TakenOut(q, ops, clock))
    decreases ops
  {
    if ops != [] {
      match ops[0]
      case Put(n, task) => FirstComeFirstServed(q + [QueuedTask(n, task, clock)], ops[1..], clock + 1);
      case Take =>
        if q == [] {
          FirstComeFirstServed(q, ops[1..], clock);
        } else {
          var k := MinIndex(q);
          var rest := TakenOut(RemoveAt(q, k), ops[1..], clock);
          FirstComeFirstServed(RemoveAt(q, k), ops[1..], clock);
          forall j | 0 <= j < |rest| && rest[j].task.priority == q[k].task.priority
            ensures q[k].addedAt < rest[j].addedAt {
            TakenFrom(RemoveAt(q, k), ops[1..], clock, rest[j]);
            if rest[j] in RemoveAt(q, k) { LaterInQueue(q, k, rest[j], clock); }
          }
        }
    }
  }

  lemma LaterInQueue(q: seq<QueuedTask>, k: nat, t: QueuedTask, clock: nat)
    requires Stamped(q, clock) && k < |q| && k == MinIndex(q) && t in RemoveAt(q, k)
             && t.task.priority == q[k].task.priority
    ensures q[k].addedAt < t.addedAt
  {
    var j :| 0 <= j < |q| && j != k && q[j] == t;
    assert !Before(q[j], q[k]);
  }

  // ---------------------------------------------------------------- the scheduler's queue

  ghost predicate InStamps(s: State) {
    WF(s) && Stamped(s.queue, s.clock)
  }

  lemma {:induction false} QueueAllStamps(s: State, ns: seq<NodeId>)
    requires InStamps(s)
    ensures InStamps(QueueAll(s, ns))
    decreases ns
  {
    if ns != [] && CanMove(s, ns[0], Queued) { QueueAllStamps(QueueNode(s, ns[0]), ns[1..]); }
  }

  lemma NextTaskStamps(s: State, i: nat)
    requires InStamps(s) && i < |s.workers|
    ensures InStamps(NextTask(s, i).0) && NextTask(s, i).0.clock == s.clock
  {}

  lemma CandidateStamps(s: State, preferred: seq<NodeId>)
    requires InStamps(s)
    ensures InStamps(HoldCandidate(s, preferred).0)
  {}

  lemma {:induction false} HoldStamps(s: State, i: nat, preferred: seq<NodeId>, attempts: nat)
    requires InStamps(s) && i < |s.workers|
    ensures InStamps(PutOnHold(s, i, preferred, attempts))
    decreases attempts
  {
    if attempts != 0 {
      var (rest, task) := HoldCandidate(s, preferred);
      CandidateStamps(s, preferred);
      if !(task.Some? && CanMove(rest, task.value.nodeId, OnHold)) { HoldStamps(rest, i, preferred, attempts - 1); }
    }
  }

  lemma {:induction false} RequeueStamps(s: State, i: nat, held: seq<QueuedTask>)
    requires InStamps(s) && i < |s.workers|
    ensures InStamps(RequeueAllHeld(s, i, held))
    decreases held
  {
    if held != [] {
      if CanMove(s, held[0].nodeId, Queued) {
        RequeueStamps(PopHold(QueueNode(s, held[0].nodeId), i), i, held[1..]);
      } else {
        RequeueStamps(s, i, held[1..]);
      }
    }
  }

  lemma AfterNodeStamps(s: State, n: NodeId)
    requires InStamps(s)
    ensures InStamps(RunAfterNode(s, n))
  {
    var i := FindWorkingOn(s.workers, n);
    if i < |s.workers| { NextTaskStamps(s, i); }
  }

  lemma ForFreeWorkerStamps(s: State, w: string)
    requires InStamps(s)
    ensures InStamps(RunForFreeWorker(s, w))
  {
    var i := FindWorker(s.workers, w);
    if i < |s.workers| { NextTaskStamps(s, i); }
  }

  lemma CallStamps(s: State, c: Call)
    requires InStamps(s)
    ensures InStamps(RunCall(s, c))
  {
    match c
    case AfterNode(n) => AfterNodeStamps(s, n);
    case ForFreeWorker(w) => ForFreeWorkerStamps(s, w);
    case RequeueHeld(w) =>
      var i := FindWorker(s.workers, w);
      if i < |s.workers| { RequeueStamps(s, i, s.workers[i].nodesOnHold); }
  }

  lemma CompletedStamps(s: State, n: NodeId)
    requires InStamps(s)
    ensures InStamps(TaskCompleted(s, n))
  {
    if CanMove(s, n, Succeeded) {
      var marked := Mark(s, n, Succeeded);
      QueueAllStamps(marked, Outstanding(marked.wf, marked.status, marked.published));
    }
  }

  lemma FailedStamps(s: State, n: NodeId)
    requires InStamps(s)
    ensures InStamps(TaskFailed(s, n))
  {
    if CanMove(s, n, Failed) {
      var failed := MarkFailed(s, n);
      if Exhausted(failed, n) {
        GivesUpWhenExhausted(s, n);
      } else {
        RetriesWhenFailed(s, n);
        EnqueueStamps(Mark(failed, n, Queued), n);
      }
    }
  }

  lemma EnqueueStamps(s: State, n: NodeId)
    requires InStamps(s)
    ensures InStamps(Enqueue(s, n))
  {}

  lemma UploadedStamps(s: State, n: NodeId, a: ArtifactId)
    requires InStamps(s)
    ensures InStamps(ArtifactUploaded(s, n, a))
  {
    if n in s.wf.nodes && a !in s.published {
      var published := s.(published := s.published + {a});
      var done := Select(s.wf.order, CompleteSet(s.wf, s.status, published.published));
      var marked := published.(status := MarkAll(s.status, done, Succeeded));
      QueueAllStamps(marked, Outstanding(marked.wf, marked.status, marked.published));
    }
  }

  /** Every step of the scheduler leaves the queue in the order of its stamps, so that what it
      dequeues comes first come, first served among equal priorities. */
  lemma StepStamps(s: State, e: Event)
    requires InStamps(s)
    ensures InStamps(Step(s, e))
  {
    match e
    case Completed(_, n) => CompletedStamps(s, n);
    case FailedEvent(_, n) => FailedStamps(s, n);
    case Uploaded(n, a) => UploadedStamps(s, n, a);
    case HoldRequest(w) =>
      if HoldAccepted(s, w) { HoldStamps(s, FindWorker(s.workers, w), Preferred(s, w), HOLD_ATTEMPTS); }
    case Perform(c) =>
      if c in s.calls { CallStamps(s.(calls := s.calls - multiset{c}), c); }
    case _ =>
  }

  /** In every reachable state the head of the queue is the one entry of its priority that
      was enqueued first. */
  lemma {:induction false} HeadIsOldest(s: State, es: seq<Event>, j: nat)
    requires InStamps(s)
    ensures var t := Exec(s, es);
            InStamps(t) && (j < |t.queue| && j != MinIndex(t.queue) ==>
              var head := t.queue[MinIndex(t.queue)];
              head.task.priority < t.queue[j].task.priority ||
              (head.task.priority == t.queue[j].task.priority && head.addedAt < t.queue[j].addedAt))
    decreases es
  {
    if es == [] {
      if j < |s.queue| { assert !Before(s.queue[j], s.queue[MinIndex(s.queue)]); }
    } else {
      StepStamps(s, es[0]);
      HeadIsOldest(Step(s, es[0]), es[1..], j);
    }
  }
}
