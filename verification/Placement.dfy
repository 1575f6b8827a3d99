/** Where a node is: in the queue, on a hold list, or at the worker that works on it.
    With honest workers no node is ever in two places and no Queued or Running node gets
    lost. */
module Placement {
  import opened WorkflowTypes
  import opened SchedulerModel
  import opened NodeMachine

  // ---------------------------------------------------------------- counting places

  function One(b: bool): nat {
    if b then 1 else 0
  }

  function CountIn(q: seq<QueuedTask>, n: NodeId): nat {
    if q == [] then 0 else One(q[0].nodeId == n) + CountIn(q[1..], n)
  }

  function CountAt(w: Worker, n: NodeId): nat {
    CountIn(w.nodesOnHold, n) + One(w.workingOn == Some(n))
  }

  function CountWorkers(ws: seq<Worker>, n: NodeId): nat {
    if ws == [] then 0 else CountAt(ws[0], n) + CountWorkers(ws[1..], n)
  }

  /** How often node `n` occurs in the queue, in all hold lists and as a worker's work. */
  function Places(s: State, n: NodeId): nat {
    CountIn(s.queue, n) + CountWorkers(s.workers, n)
  }

  lemma {:induction false} CountConcat(p: seq<QueuedTask>, q: seq<QueuedTask>, n: NodeId)
    ensures CountIn(p + q, n) == CountIn(p, n) + CountIn(q, n)
  {
    if p == [] {
      assert p + q == q;
    } else {
      assert (p + q)[1..] == p[1..] + q;
      CountConcat(p[1..], q, n);
    }
  }

  lemma CountAppend(q: seq<QueuedTask>, t: QueuedTask, n: NodeId)
    ensures CountIn(q + [t], n) == CountIn(q, n) + One(t.nodeId == n)
  {
    CountConcat(q, [t], n);
  }

  lemma CountRemove(q: seq<QueuedTask>, k: nat, n: NodeId)
    requires k < |q|
    ensures CountIn(q, n) == CountIn(RemoveAt(q, k), n) + One(q[k].nodeId == n)
  {
    assert q == q[..k] + ([q[k]] + q[k + 1..]);
    CountConcat(q[..k], [q[k]] + q[k + 1..], n);
    CountConcat([q[k]], q[k + 1..], n);
    CountConcat(q[..k], q[k + 1..], n);
  }

  lemma {:induction false} CountMember(q: seq<QueuedTask>, n: NodeId)
    ensures CountIn(q, n) > 0 <==> exists t :: t in q && t.nodeId == n
  {
    if q != [] {
      CountMember(q[1..], n);
      assert forall t :: t in q <==> t == q[0] || t in q[1..];
    }
  }

  lemma {:induction false} CountUpdate(ws: seq<Worker>, i: nat, w: Worker, n: NodeId)
    requires i < |ws|
    ensures CountWorkers(ws[i := w], n) + CountAt(ws[i], n) == CountWorkers(ws, n) + CountAt(w, n)
  {
    if i == 0 {
      assert ws[0 := w][1..] == ws[1..];
    } else {
      assert ws[i := w][1..] == ws[1..][i - 1 := w];
      CountUpdate(ws[1..], i - 1, w, n);
    }
  }

  lemma {:induction false} CountNewWorker(ws: seq<Worker>, w: Worker, n: NodeId)
    ensures CountWorkers(ws + [w], n) == CountWorkers(ws, n) + CountAt(w, n)
  {
    if ws == [] {
      assert (ws + [w])[1..] == [];
    } else {
      assert (ws + [w])[1..] == ws[1..] + [w];
      CountNewWorker(ws[1..], w, n);
    }
  }

  lemma {:induction false} CountAtMost(ws: seq<Worker>, i: nat, n: NodeId)
    requires i < |ws|
    ensures CountAt(ws[i], n) <= CountWorkers(ws, n)
  {
    if i > 0 { CountAtMost(ws[1..], i - 1, n); }
  }

  lemma SetWorkerPlaces(s: State, i: nat, w: Worker, n: NodeId)
    requires WF(s) && i < |s.workers|
    ensures Places(SetWorker(s, i, w), n) + CountAt(s.workers[i], n) == Places(s, n) + CountAt(w, n)
  {
    CountUpdate(s.workers, i, w, n);
  }

  // ---------------------------------------------------------------- the invariant

  function InHand(hand: Option<NodeId>, n: NodeId): nat {
    One(hand == Some(n))
  }

  ghost predicate Unique(s: State, hand: Option<NodeId>) {
    forall n :: Places(s, n) + InHand(hand, n) <= 1
  }

  ghost predicate InQueueOk(s: State) {
    forall t :: t in s.queue ==> t.nodeId in s.status && s.status[t.nodeId] in {Queued, OnHold}
  }

  ghost predicate HeldOk(s: State, w: Worker) {
    forall t :: t in w.nodesOnHold ==> t.nodeId in s.status && s.status[t.nodeId] == OnHold
  }

  ghost predicate WorkOk(s: State, w: Worker) {
    w.workingOn.Some? ==>
      w.workingOn.value in s.status && s.status[w.workingOn.value] in {Queued, OnHold, Running, Succeeded}
  }

  ghost predicate WorkerOk(s: State, w: Worker) {
    HeldOk(s, w) && WorkOk(s, w)
  }

  /** The statuses a node may have at each place. */
  ghost predicate Located(s: State) {
    InQueueOk(s) && forall i :: 0 <= i < |s.workers| ==> WorkerOk(s, s.workers[i])
  }

  ghost predicate IsWorkedOn(ws: seq<Worker>, n: NodeId) {
    exists i :: 0 <= i < |ws| && ws[i].workingOn == Some(n)
  }

  /** No Running node lacks its worker, and no Queued node is without a place; if strict, no
      node on hold is without a place either. */
  ghost predicate Kept(s: State, hand: Option<NodeId>, strict: bool) {
    && (forall n :: n in s.status && s.status[n] == Running ==> IsWorkedOn(s.workers, n))
    && (forall n :: n in s.status && (s.status[n] == Queued || (strict && s.status[n] == OnHold)) ==>
          Places(s, n) + InHand(hand, n) == 1)
  }

  ghost predicate CallsDone(s: State) {
    forall n :: AfterNode(n) in s.calls ==> n in s.status && s.status[n] == Succeeded
  }

  /** The invariant, for a state in which the task in `hand` is being moved. */
  ghost predicate InvWith(s: State, hand: Option<NodeId>, strict: bool) {
    WF(s) && Unique(s, hand) && Located(s) && Kept(s, hand, strict) && CallsDone(s)
  }

  ghost predicate Inv(s: State, strict: bool := false) {
    InvWith(s, None, strict)
  }

  // ---------------------------------------------------------------- moving tasks

  lemma PopHoldPlaces(s: State, i: nat, n: NodeId)
    requires WF(s) && i < |s.workers| && s.workers[i].nodesOnHold != []
    ensures Places(s, n) == Places(PopHold(s, i), n) + One(s.workers[i].nodesOnHold[0].nodeId == n)
  {
    var w := s.workers[i];
    SetWorkerPlaces(s, i, w.(nodesOnHold := w.nodesOnHold[1..]), n);
  }

  lemma TakeFromHold(s: State, i: nat, strict: bool := false)
    requires Inv(s, strict) && i < |s.workers| && s.workers[i].nodesOnHold != []
    ensures InvWith(PopHold(s, i), Some(s.workers[i].nodesOnHold[0].nodeId), strict)
    ensures s.status[s.workers[i].nodesOnHold[0].nodeId] == OnHold
  {
    var t := PopHold(s, i);
    forall n { PopHoldPlaces(s, i, n); }
    assert WorkerOk(s, s.workers[i]) && s.workers[i].nodesOnHold[0] in s.workers[i].nodesOnHold;
    forall j | 0 <= j < |t.workers| ensures WorkerOk(t, t.workers[j]) {
      assert WorkerOk(s, s.workers[j]);
    }
    forall n | IsWorkedOn(s.workers, n) ensures IsWorkedOn(t.workers, n) {
      var j :| 0 <= j < |s.workers| && s.workers[j].workingOn == Some(n);
      assert t.workers[j].workingOn == Some(n);
    }
  }

  lemma TakeHead(s: State, strict: bool := false)
    requires Inv(s, strict) && s.queue != []
    ensures InvWith(TakeFromQueue(s), Some(s.queue[MinIndex(s.queue)].nodeId), strict)
    ensures s.status[s.queue[MinIndex(s.queue)].nodeId] in {Queued, OnHold}
  {
    var t := TakeFromQueue(s);
    forall n ensures Places(s, n) == Places(t, n) + One(s.queue[MinIndex(s.queue)].nodeId == n) {
      CountRemove(s.queue, MinIndex(s.queue), n);
    }
    forall j | 0 <= j < |t.workers| ensures WorkerOk(t, t.workers[j]) {
      assert WorkerOk(s, s.workers[j]);
    }
  }

  lemma TakeNext(s: State, i: nat, strict: bool := false)
    requires Inv(s, strict) && i < |s.workers|
    ensures var (t, task) := NextTask(s, i);
            && (task.None? ==> t == s)
            && (task.Some? ==>
                 && InvWith(t, Some(task.value.nodeId), strict)
                 && task.value.nodeId in s.status && s.status[task.value.nodeId] in {Queued, OnHold})
            && t.workers[i].workingOn == s.workers[i].workingOn
  {
    if s.workers[i].nodesOnHold != [] { TakeFromHold(s, i, strict); } else if s.queue != [] { TakeHead(s, strict); }
  }

  /** Giving a worker other work keeps Running nodes at their workers, if its old work is done. */
  lemma WorkKept(s: State, i: nat, w: Worker)
    requires WF(s) && i < |s.workers| && Located(s)
    requires s.workers[i].workingOn.Some? ==> s.status[s.workers[i].workingOn.value] == Succeeded
    requires forall n :: n in s.status && s.status[n] == Running ==> IsWorkedOn(s.workers, n)
    ensures forall n :: n in s.status && s.status[n] == Running ==> IsWorkedOn(SetWorker(s, i, w).workers, n)
  {
    forall n | n in s.status && s.status[n] == Running ensures IsWorkedOn(SetWorker(s, i, w).workers, n) {
      var j :| 0 <= j < |s.workers| && s.workers[j].workingOn == Some(n);
      assert SetWorker(s, i, w).workers[j].workingOn == Some(n);
    }
  }

  /** A worker without work, or whose work has succeeded, takes the task in hand. */
  lemma AssignKeeps(s: State, i: nat, n: NodeId, strict: bool := false)
    requires InvWith(s, Some(n), strict) && i < |s.workers|
    requires n in s.status && s.status[n] in {Queued, OnHold}
    requires s.workers[i].workingOn.Some? ==> s.status[s.workers[i].workingOn.value] == Succeeded
    ensures Inv(Assign(s, i, n), strict)
  {
    var t := Assign(s, i, n);
    forall m { SetWorkerPlaces(s, i, t.workers[i], m); }
    forall j | 0 <= j < |t.workers| ensures WorkerOk(t, t.workers[j]) {
      assert WorkerOk(s, s.workers[j]);
    }
    WorkKept(s, i, t.workers[i]);
  }

  lemma EnqueueKeeps(s: State, n: NodeId, strict: bool := false)
    requires InvWith(s, Some(n), strict)
    requires n in s.status && s.status[n] in {Queued, OnHold}
    ensures Inv(Enqueue(s, n), strict)
  {
    var t := Enqueue(s, n);
    forall m ensures Places(t, m) == Places(s, m) + One(m == n) {
      CountAppend(s.queue, QueuedTask(n, s.wf.nodes[n].task, s.clock), m);
    }
    forall j | 0 <= j < |t.workers| ensures WorkerOk(t, t.workers[j]) {
      assert WorkerOk(s, s.workers[j]);
    }
  }

  /** A worker whose work has succeeded is freed. */
  lemma ClearKeeps(s: State, i: nat, strict: bool := false)
    requires Inv(s, strict) && i < |s.workers|
    requires s.workers[i].workingOn.Some? ==> s.status[s.workers[i].workingOn.value] == Succeeded
    ensures Inv(ClearWork(s, i), strict)
  {
    var t := ClearWork(s, i);
    forall m { SetWorkerPlaces(s, i, t.workers[i], m); }
    forall j | 0 <= j < |t.workers| ensures WorkerOk(t, t.workers[j]) {
      assert WorkerOk(s, s.workers[j]);
    }
    WorkKept(s, i, t.workers[i]);
  }

  // ---------------------------------------------------------------- scheduling calls

  lemma CallsIrrelevant(s: State, calls: multiset<Call>, strict: bool := false)
    requires Inv(s, strict)
    requires forall n :: AfterNode(n) in calls ==> n in s.status && s.status[n] == Succeeded
    ensures Inv(s.(calls := calls), strict)
  {
    var t := s.(calls := calls);
    forall n ensures Places(t, n) == Places(s, n) {}
    forall j | 0 <= j < |t.workers| ensures WorkerOk(t, t.workers[j]) {
      assert WorkerOk(s, s.workers[j]);
    }
  }

  lemma ForFreeWorkerKeeps(s: State, w: string, strict: bool := false)
    requires Inv(s, strict)
    ensures Inv(RunForFreeWorker(s, w), strict)
  {
    var i := FindWorker(s.workers, w);
    if i < |s.workers| {
      TakeNext(s, i, strict);
      var (t, task) := NextTask(s, i);
      if task.Some? {
        if t.workers[i].workingOn.None? {
          AssignKeeps(t, i, task.value.nodeId, strict);
        } else {
          EnqueueKeeps(t, task.value.nodeId, strict);
        }
      }
    }
  }

  lemma AfterNodeKeeps(s: State, n: NodeId, strict: bool := false)
    requires Inv(s, strict) && n in s.status && s.status[n] == Succeeded
    ensures Inv(RunAfterNode(s, n), strict)
  {
    var i := FindWorkingOn(s.workers, n);
    if i < |s.workers| && s.workers[i].status == Online {
      TakeNext(s, i, strict);
      var (t, task) := NextTask(s, i);
      if task.Some? { AssignKeeps(t, i, task.value.nodeId, strict); } else { ClearKeeps(t, i, strict); }
    }
  }

  /** Nodes on hold are never Queued again from a stale worker: the status table lets a
      node become Queued only from Pending or Failed, so the handler does nothing. */
  lemma {:induction false} StaleRequeueDoesNothing(s: State, i: nat, held: seq<QueuedTask>)
    requires WF(s) && i < |s.workers|
    requires forall t :: t in held ==> t.nodeId in s.status && s.status[t.nodeId] == OnHold
    ensures RequeueAllHeld(s, i, held) == s
    decreases held
  {
    if held != [] {
      assert held[0] in held;
      StaleRequeueDoesNothing(s, i, held[1..]);
    }
  }

  lemma RequeueHeldKeeps(s: State, w: string, strict: bool := false)
    requires Inv(s, strict)
    ensures RunRequeueHeld(s, w) == s
  {
    var i := FindWorker(s.workers, w);
    if i < |s.workers| {
      assert WorkerOk(s, s.workers[i]);
      StaleRequeueDoesNothing(s, i, s.workers[i].nodesOnHold);
    }
  }

  /** The state in which a call is taken up. */
  function TakeCall(s: State, c: Call): (r: State)
    requires WF(s)
    ensures WF(r) && r == s.(calls := r.calls)
  {
    s.(calls := s.calls - multiset{c})
  }

  lemma PerformRuns(s: State, c: Call)
    requires WF(s) && c in s.calls
    ensures Step(s, Perform(c)) == RunCall(TakeCall(s, c), c)
  {}

  lemma TakeCallKeeps(s: State, c: Call, strict: bool := false)
    requires Inv(s, strict)
    ensures Inv(TakeCall(s, c), strict)
    ensures c.AfterNode? && c in s.calls ==> c.nodeId in s.status && s.status[c.nodeId] == Succeeded
  {
    CallsIrrelevant(s, s.calls - multiset{c}, strict);
  }

  lemma CallKeeps(s: State, c: Call, strict: bool := false)
    requires Inv(s, strict) && (c.AfterNode? ==> c.nodeId in s.status && s.status[c.nodeId] == Succeeded)
    ensures Inv(RunCall(s, c), strict)
  {
    match c
    case AfterNode(n) => AfterNodeKeeps(s, n, strict);
    case ForFreeWorker(w) => ForFreeWorkerKeeps(s, w, strict);
    case RequeueHeld(w) => RequeueHeldKeeps(s, w, strict);
  }

  lemma PerformKeeps(s: State, c: Call, strict: bool := false)
    requires Inv(s, strict)
    ensures Inv(Step(s, Perform(c)), strict)
  {
    if c in s.calls {
      PerformRuns(s, c);
      TakeCallKeeps(s, c, strict);
      CallKeeps(TakeCall(s, c), c, strict);
    }
  }

  // ---------------------------------------------------------------- places and statuses

  lemma {:induction false} CountTwo(ws: seq<Worker>, i: nat, j: nat, n: NodeId)
    requires i < j < |ws|
    ensures CountAt(ws[i], n) + CountAt(ws[j], n) <= CountWorkers(ws, n)
  {
    if i == 0 { CountAtMost(ws[1..], j - 1, n); } else { CountTwo(ws[1..], i - 1, j - 1, n); }
  }

  /** A node that a worker works on is nowhere else. */
  lemma OnlyThere(s: State, i: nat, n: NodeId)
    requires WF(s) && Unique(s, None) && i < |s.workers| && s.workers[i].workingOn == Some(n)
    ensures Places(s, n) == 1
    ensures forall t :: t in s.queue ==> t.nodeId != n
    ensures forall j, t :: 0 <= j < |s.workers| && t in s.workers[j].nodesOnHold ==> t.nodeId != n
    ensures forall j :: 0 <= j < |s.workers| && s.workers[j].workingOn == Some(n) ==> j == i
  {
    assert Places(s, n) + InHand(None, n) <= 1;
    CountAtMost(s.workers, i, n);
    CountMember(s.queue, n);
    forall j, t | 0 <= j < |s.workers| && t in s.workers[j].nodesOnHold ensures t.nodeId != n {
      CountMember(s.workers[j].nodesOnHold, n);
      if j < i { CountTwo(s.workers, j, i, n); } else if i < j { CountTwo(s.workers, i, j, n); }
    }
    forall j | 0 <= j < |s.workers| && s.workers[j].workingOn == Some(n) ensures j == i {
      if j < i { CountTwo(s.workers, j, i, n); } else if i < j { CountTwo(s.workers, i, j, n); }
    }
  }

  lemma {:induction false} NotAtWorkers(s: State, ws: seq<Worker>, n: NodeId)
    requires n in s.status && s.status[n] in {Pending, Failed, Canceled}
    requires forall i :: 0 <= i < |ws| ==> WorkerOk(s, ws[i])
    ensures CountWorkers(ws, n) == 0
  {
    if ws != [] {
      assert WorkerOk(s, ws[0]);
      CountMember(ws[0].nodesOnHold, n);
      NotAtWorkers(s, ws[1..], n);
    }
  }

  /** Pending, Failed and Canceled nodes are nowhere. */
  lemma Nowhere(s: State, n: NodeId)
    requires Located(s) && n in s.status && s.status[n] in {Pending, Failed, Canceled}
    ensures Places(s, n) == 0
  {
    CountMember(s.queue, n);
    NotAtWorkers(s, s.workers, n);
  }

  // ---------------------------------------------------------------- queueing

  lemma QueueNodeKeeps(s: State, n: NodeId, strict: bool := false)
    requires Inv(s, strict) && n in s.status && s.status[n] == Pending
    ensures Inv(QueueNode(s, n), strict)
  {
    var t := QueueNode(s, n);
    Nowhere(s, n);
    forall m ensures Places(t, m) == Places(s, m) + One(m == n) {
      CountAppend(s.queue, QueuedTask(n, s.wf.nodes[n].task, s.clock), m);
    }
    forall j | 0 <= j < |t.workers| ensures WorkerOk(t, t.workers[j]) {
      assert WorkerOk(s, s.workers[j]);
    }
  }

  /** Queueing distinct Pending nodes queues exactly these, in this order. */
  lemma {:induction false} QueueAllStatus(s: State, ns: seq<NodeId>)
    requires WF(s) && Distinct(ns)
    requires forall n :: n in ns ==> n in s.status && s.status[n] == Pending
    ensures QueueAll(s, ns).status == MarkAll(s.status, ns, Queued)
    decreases ns
  {
    if ns == [] {
      assert MarkAll(s.status, ns, Queued) == s.status;
    } else {
      var next := QueueNode(s, ns[0]);
      assert ns[0] in ns;
      RestPending(s, ns);
      QueueAllStatus(next, ns[1..]);
      MarkFirst(s.status, ns, Queued);
    }
  }

  lemma IdsAppend(q: seq<QueuedTask>, t: QueuedTask)
    ensures Ids(q + [t]) == Ids(q) + [t.nodeId]
  {}

  lemma Regroup(ids: seq<NodeId>, ns: seq<NodeId>)
    requires ns != []
    ensures ids + [ns[0]] + ns[1..] == ids + ns
  {}

  lemma {:induction false} QueueAllQueue(s: State, ns: seq<NodeId>)
    requires WF(s) && Distinct(ns)
    requires forall n :: n in ns ==> n in s.status && s.status[n] == Pending
    ensures Ids(QueueAll(s, ns).queue) == Ids(s.queue) + ns
    decreases ns
  {
    if ns == [] {
      assert Ids(s.queue) + ns == Ids(s.queue);
    } else {
      assert ns[0] in ns;
      RestPending(s, ns);
      QueueAllQueue(QueueNode(s, ns[0]), ns[1..]);
      IdsAppend(s.queue, QueuedTask(ns[0], s.wf.nodes[ns[0]].task, s.clock));
      Regroup(Ids(s.queue), ns);
    }
  }

  lemma RestPending(s: State, ns: seq<NodeId>)
    requires WF(s) && Distinct(ns) && ns != []
    requires forall n :: n in ns ==> n in s.status && s.status[n] == Pending
    ensures var next := QueueNode(s, ns[0]);
            Distinct(ns[1..]) && forall n :: n in ns[1..] ==> n in next.status && next.status[n] == Pending
  {
    forall n | n in ns[1..] ensures n in s.status && s.status[n] == Pending && n != ns[0] {
      var k :| 0 <= k < |ns[1..]| && ns[1..][k] == n;
      assert ns[k + 1] == n && ns[0] != ns[k + 1];
    }
  }

  lemma {:induction false} QueueAllKeeps(s: State, ns: seq<NodeId>, strict: bool := false)
    requires Inv(s, strict) && Distinct(ns)
    requires forall n :: n in ns ==> n in s.status && s.status[n] == Pending
    ensures Inv(QueueAll(s, ns), strict)
    decreases ns
  {
    if ns != [] {
      assert ns[0] in ns;
      QueueNodeKeeps(s, ns[0], strict);
      RestPending(s, ns);
      QueueAllKeeps(QueueNode(s, ns[0]), ns[1..], strict);
    }
  }

  lemma QueueOutstandingEffect(s: State, strict: bool := false)
    requires WF(s)
    ensures var t := QueueOutstanding(s); var ready := Outstanding(s.wf, s.status, s.published);
            && t.status == MarkAll(s.status, ready, Queued)
            && Ids(t.queue) == Ids(s.queue) + ready
            && (Inv(s, strict) ==> Inv(t, strict))
  {
    QueueAllStatus(s, Outstanding(s.wf, s.status, s.published));
    QueueAllQueue(s, Outstanding(s.wf, s.status, s.published));
    if Inv(s, strict) { QueueAllKeeps(s, Outstanding(s.wf, s.status, s.published), strict); }
  }

  // ---------------------------------------------------------------- handlers

  lemma StartedKeeps(s: State, w: string, n: NodeId, strict: bool := false)
    requires Inv(s, strict) && WorksOn(s, w, n)
    ensures Inv(TaskStarted(s, n), strict)
  {
    if CanMove(s, n, Running) {
      var t := TaskStarted(s, n);
      OnlyThere(s, FindWorker(s.workers, w), n);
      forall m ensures Places(t, m) == Places(s, m) {}
      forall j | 0 <= j < |t.workers| ensures WorkerOk(t, t.workers[j]) {
        assert WorkerOk(s, s.workers[j]);
      }
    }
  }

  /** Marking Running nodes as Succeeded leaves every token where it is. */
  lemma SucceedKeeps(s: State, ns: seq<NodeId>, published: set<ArtifactId>, strict: bool := false)
    requires Inv(s, strict)
    requires forall n :: n in ns ==> n in s.status && s.status[n] == Running
    ensures Inv(s.(status := MarkAll(s.status, ns, Succeeded), published := published), strict)
  {
    var t := s.(status := MarkAll(s.status, ns, Succeeded), published := published);
    forall m ensures Places(t, m) == Places(s, m) {}
    forall j | 0 <= j < |t.workers| ensures WorkerOk(t, t.workers[j]) {
      assert WorkerOk(s, s.workers[j]);
    }
  }

  lemma CompletedKeeps(s: State, n: NodeId, strict: bool := false)
    requires Inv(s, strict)
    ensures Inv(TaskCompleted(s, n), strict)
  {
    if CanMove(s, n, Succeeded) {
      var done := Mark(s, n, Succeeded);
      SucceedKeeps(s, [n], s.published, strict);
      assert MarkAll(s.status, [n], Succeeded) == done.status;
      QueueOutstandingEffect(done, strict);
      var queued := QueueOutstanding(done);
      CallsIrrelevant(queued, queued.calls + multiset{AfterNode(n)}, strict);
    }
  }

  lemma {:induction false} AfterNodeCallsOf(ns: seq<NodeId>, n: NodeId)
    requires AfterNode(n) in AfterNodeCalls(ns)
    ensures n in ns
  {
    if ns[0] != n { AfterNodeCallsOf(ns[1..], n); }
  }

  lemma {:induction false} FreeCallsOnly(ws: seq<Worker>, n: NodeId)
    ensures AfterNode(n) !in FreeWorkerCalls(ws)
  {
    if ws != [] { FreeCallsOnly(ws[1..], n); }
  }

  lemma UploadedKeeps(s: State, n: NodeId, a: ArtifactId, strict: bool := false)
    requires Inv(s, strict)
    ensures Inv(ArtifactUploaded(s, n, a), strict)
  {
    if n in s.wf.nodes && a !in s.published {
      var published := s.published + {a};
      var done := Select(s.wf.order, CompleteSet(s.wf, s.status, published));
      var marked := s.(status := MarkAll(s.status, done, Succeeded), published := published);
      SucceedKeeps(s, done, published, strict);
      QueueOutstandingEffect(marked, strict);
      var queued := QueueOutstanding(marked);
      forall m | AfterNode(m) in queued.calls + AfterNodeCalls(done)
        ensures m in queued.status && queued.status[m] == Succeeded {
        if AfterNode(m) in AfterNodeCalls(done) { AfterNodeCallsOf(done, m); }
      }
      CallsIrrelevant(queued, queued.calls + AfterNodeCalls(done), strict);
    }
  }

  lemma ClearWorkOnPlaces(s: State, i: nat, n: NodeId, m: NodeId)
    requires WF(s) && Unique(s, None) && i < |s.workers| && s.workers[i].workingOn == Some(n)
    ensures FindWorkingOn(s.workers, n) == i
    ensures CountWorkers(ClearWork(s, i).workers, m) + One(m == n) == CountWorkers(s.workers, m)
  {
    OnlyThere(s, i, n);
    CountUpdate(s.workers, i, ClearWork(s, i).workers[i], m);
  }

  lemma Loose(s: State, strict: bool)
    requires Inv(s, strict)
    ensures Inv(s)
  {}

  lemma ReleaseLocated(s: State, i: nat, n: NodeId, moved: State)
    requires Inv(s) && i < |s.workers| && s.workers[i].workingOn == Some(n) && s.status[n] == Running
    requires WF(moved) && n in moved.status
             && moved == s.(status := s.status[n := moved.status[n]], retries := moved.retries)
    ensures Located(ClearWork(moved, i))
  {
    var t := ClearWork(moved, i);
    OnlyThere(s, i, n);
    forall j | 0 <= j < |t.workers| ensures WorkerOk(t, t.workers[j]) {
      assert WorkerOk(s, s.workers[j]);
    }
  }

  lemma ReleaseWorked(s: State, i: nat, n: NodeId, m: NodeId)
    requires WF(s) && i < |s.workers| && s.workers[i].workingOn == Some(n) && m != n && IsWorkedOn(s.workers, m)
    ensures IsWorkedOn(ClearWork(s, i).workers, m)
  {
    var j :| 0 <= j < |s.workers| && s.workers[j].workingOn == Some(m);
    assert ClearWork(s, i).workers[j].workingOn == Some(m);
  }

  lemma ReleaseKept(s: State, i: nat, n: NodeId, moved: State, hand: Option<NodeId>, strict: bool)
    requires WF(s) && Unique(s, None) && Kept(s, None, strict)
    requires i < |s.workers| && s.workers[i].workingOn == Some(n)
    requires WF(moved) && n in moved.status
             && moved == s.(status := s.status[n := moved.status[n]], retries := moved.retries)
    requires moved.status[n] in {Queued, Failed} && hand == if moved.status[n] == Queued then Some(n) else None
    ensures Kept(ClearWork(moved, i), hand, strict)
  {
    var t := ClearWork(moved, i);
    OnlyThere(s, i, n);
    forall m { ClearWorkOnPlaces(s, i, n, m); }
    forall m | m in t.status && t.status[m] == Running ensures IsWorkedOn(t.workers, m) {
      ReleaseWorked(s, i, n, m);
    }
  }

  /** Taking a Running node from its worker. */
  lemma ReleaseKeeps(s: State, i: nat, n: NodeId, moved: State, hand: Option<NodeId>, strict: bool := false)
    requires Inv(s, strict) && i < |s.workers| && s.workers[i].workingOn == Some(n) && s.status[n] == Running
    requires WF(moved) && n in moved.status
             && moved == s.(status := s.status[n := moved.status[n]], retries := moved.retries)
    requires moved.status[n] in {Queued, Failed} && hand == if moved.status[n] == Queued then Some(n) else None
    ensures InvWith(ClearWork(moved, i), hand, strict)
    ensures FindWorkingOn(s.workers, n) == i
  {
    var t := ClearWork(moved, i);
    Loose(s, strict);
    OnlyThere(s, i, n);
    ReleaseLocated(s, i, n, moved);
    ReleaseKept(s, i, n, moved, hand, strict);
    forall m ensures Places(t, m) + One(m == n) == Places(s, m) { ClearWorkOnPlaces(s, i, n, m); }
  }

  lemma CancelKeeps(s: State, strict: bool := false)
    requires Inv(s, strict)
    ensures Inv(CancelFirst(s), strict)
  {
    var pending := Select(s.wf.order, PendingSet(s.status));
    if pending != [] {
      assert pending[0] in pending;
      var t := CancelFirst(s);
      Nowhere(s, pending[0]);
      forall m ensures Places(t, m) == Places(s, m) {}
      forall j | 0 <= j < |t.workers| ensures WorkerOk(t, t.workers[j]) {
        assert WorkerOk(s, s.workers[j]);
      }
    }
  }

  /** An honest failure report concerns a Running node, which goes back to the queue or is
      given up. */
  lemma FailedSplit(s: State, w: string, n: NodeId, strict: bool := false)
    requires Inv(s, strict) && WorksOn(s, w, n) && CanMove(s, n, Failed)
    ensures s.status[n] == Running && FindWorkingOn(s.workers, n) == FindWorker(s.workers, w)
  {
    var i := FindWorker(s.workers, w);
    assert WorkerOk(s, s.workers[i]);
    ClearWorkOnPlaces(s, i, n, n);
  }

  lemma RetrySteps(s: State, i: nat, n: NodeId)
    requires WF(s) && CanMove(s, n, Failed) && !Exhausted(MarkFailed(s, n), n)
    requires i == FindWorkingOn(s.workers, n) < |s.workers|
    ensures var t := Enqueue(ClearWork(Mark(MarkFailed(s, n), n, Queued), i), n);
            TaskFailed(s, n) == t.(calls := t.calls + FreeWorkerCalls(t.workers))
  {
    var queued := QueueNode(MarkFailed(s, n), n);
    assert queued.workers == s.workers;
    assert ClearWorkOn(queued, n) == Enqueue(ClearWork(Mark(MarkFailed(s, n), n, Queued), i), n);
  }

  lemma ReleaseQueuedKeeps(s: State, i: nat, n: NodeId, strict: bool := false)
    requires Inv(s, strict) && i < |s.workers| && s.workers[i].workingOn == Some(n) && s.status[n] == Running
    ensures InvWith(ClearWork(Mark(MarkFailed(s, n), n, Queued), i), Some(n), strict)
    ensures FindWorkingOn(s.workers, n) == i
  {
    var moved := Mark(MarkFailed(s, n), n, Queued);
    assert moved.status == s.status[n := Queued];
    ReleaseKeeps(s, i, n, moved, Some(n), strict);
  }

  lemma RetryKeeps(s: State, w: string, n: NodeId, strict: bool := false)
    requires Inv(s, strict) && WorksOn(s, w, n) && CanMove(s, n, Failed) && !Exhausted(MarkFailed(s, n), n)
    ensures Inv(TaskFailed(s, n), strict)
  {
    var i := FindWorker(s.workers, w);
    FailedSplit(s, w, n, strict);
    ReleaseQueuedKeeps(s, i, n, strict);
    RetrySteps(s, i, n);
    EnqueueFreeKeeps(ClearWork(Mark(MarkFailed(s, n), n, Queued), i), n, strict);
  }

  lemma EnqueueFreeKeeps(s: State, n: NodeId, strict: bool := false)
    requires InvWith(s, Some(n), strict)
    requires n in s.status && s.status[n] == Queued
    ensures var t := Enqueue(s, n); Inv(t.(calls := t.calls + FreeWorkerCalls(t.workers)), strict)
  {
    EnqueueKeeps(s, n, strict);
    var t := Enqueue(s, n);
    forall m { FreeCallsOnly(t.workers, m); }
    CallsIrrelevant(t, t.calls + FreeWorkerCalls(t.workers), strict);
  }

  lemma GiveUpSteps(s: State, i: nat, n: NodeId)
    requires WF(s) && CanMove(s, n, Failed) && Exhausted(MarkFailed(s, n), n)
    requires i == FindWorkingOn(s.workers, n) < |s.workers|
    ensures TaskFailed(s, n) == CancelFirst(ClearWork(MarkFailed(s, n), i))
  {
    var canceled := CancelFirst(MarkFailed(s, n));
    assert canceled.workers == s.workers;
    assert ClearWorkOn(canceled, n) == CancelFirst(ClearWork(MarkFailed(s, n), i));
  }

  lemma ReleaseFailedKeeps(s: State, i: nat, n: NodeId, strict: bool := false)
    requires Inv(s, strict) && i < |s.workers| && s.workers[i].workingOn == Some(n) && s.status[n] == Running
    ensures Inv(ClearWork(MarkFailed(s, n), i), strict)
  {
    ReleaseKeeps(s, i, n, MarkFailed(s, n), None, strict);
  }

  lemma GiveUpKeeps(s: State, w: string, n: NodeId, strict: bool := false)
    requires Inv(s, strict) && WorksOn(s, w, n) && CanMove(s, n, Failed) && Exhausted(MarkFailed(s, n), n)
    ensures Inv(TaskFailed(s, n), strict)
  {
    var i := FindWorker(s.workers, w);
    FailedSplit(s, w, n, strict);
    GiveUpSteps(s, i, n);
    ReleaseFailedKeeps(s, i, n, strict);
    CancelKeeps(ClearWork(MarkFailed(s, n), i), strict);
  }

  lemma FailedKeeps(s: State, w: string, n: NodeId, strict: bool := false)
    requires Inv(s, strict) && WorksOn(s, w, n)
    ensures Inv(TaskFailed(s, n), strict)
  {
    if CanMove(s, n, Failed) {
      if Exhausted(MarkFailed(s, n), n) { GiveUpKeeps(s, w, n, strict); } else { RetryKeeps(s, w, n, strict); }
    }
  }

  lemma NoPlace(s: State, n: NodeId)
    requires Places(s, n) == 0
    ensures forall u :: u in s.queue ==> u.nodeId != n
    ensures forall j :: 0 <= j < |s.workers| ==> s.workers[j].workingOn != Some(n)
  {
    CountMember(s.queue, n);
    forall j | 0 <= j < |s.workers| ensures s.workers[j].workingOn != Some(n) { CountAtMost(s.workers, j, n); }
  }

  lemma PushHoldPlaces(s: State, i: nat, t: QueuedTask, m: NodeId)
    requires WF(s) && i < |s.workers|
    ensures Places(PushHold(s, i, t), m) == Places(s, m) + One(m == t.nodeId)
  {
    SetWorkerPlaces(s, i, PushHold(s, i, t).workers[i], m);
    CountAppend(s.workers[i].nodesOnHold, t, m);
  }

  lemma PushHoldLocated(s: State, i: nat, t: QueuedTask)
    requires WF(s) && Located(s) && i < |s.workers| && t.nodeId in s.status
    requires s.status[t.nodeId] in {Pending, Queued} && Places(s, t.nodeId) == 0
    ensures Located(PushHold(Mark(s, t.nodeId, OnHold), i, t))
  {
    var r := PushHold(Mark(s, t.nodeId, OnHold), i, t);
    NoPlace(s, t.nodeId);
    forall j | 0 <= j < |r.workers| ensures WorkerOk(r, r.workers[j]) {
      assert WorkerOk(s, s.workers[j]);
    }
  }

  lemma PushHoldKept(s: State, i: nat, t: QueuedTask, hand: Option<NodeId>, strict: bool)
    requires WF(s) && Kept(s, hand, strict) && i < |s.workers| && t.nodeId in s.status
    requires hand.Some? ==> hand == Some(t.nodeId)
    requires s.status[t.nodeId] in {Pending, Queued} && Places(s, t.nodeId) == 0
    ensures Kept(PushHold(Mark(s, t.nodeId, OnHold), i, t), None, strict)
  {
    var r := PushHold(Mark(s, t.nodeId, OnHold), i, t);
    forall m { PushHoldPlaces(Mark(s, t.nodeId, OnHold), i, t, m); }
    forall m | m in r.status && r.status[m] == Running ensures IsWorkedOn(r.workers, m) {
      var j :| 0 <= j < |s.workers| && s.workers[j].workingOn == Some(m);
      assert r.workers[j].workingOn == Some(m);
    }
  }

  /** Putting the node in hand, or a node that is nowhere, on hold. */
  lemma PushHoldKeeps(s: State, i: nat, t: QueuedTask, hand: Option<NodeId>, strict: bool := false)
    requires InvWith(s, hand, strict) && i < |s.workers| && t.nodeId in s.status
    requires hand.Some? ==> hand == Some(t.nodeId)
    requires s.status[t.nodeId] in {Pending, Queued}
    requires hand.None? ==> s.status[t.nodeId] == Pending
    ensures Inv(PushHold(Mark(s, t.nodeId, OnHold), i, t), strict)
  {
    var n := t.nodeId;
    var r := PushHold(Mark(s, n, OnHold), i, t);
    if hand.None? { Nowhere(s, n); }
    assert Places(s, n) + InHand(hand, n) <= 1;
    NoPlace(s, n);
    forall m ensures Places(r, m) == Places(s, m) + One(m == n) { PushHoldPlaces(Mark(s, n, OnHold), i, t, m); }
    PushHoldLocated(s, i, t);
    PushHoldKept(s, i, t, hand, strict);
  }

  /** A task on hold in hand may be lost; nothing else is. */
  lemma DropKeeps(s: State, n: NodeId)
    requires InvWith(s, Some(n), false) && n in s.status && s.status[n] == OnHold
    ensures Inv(s)
  {
    assert forall m :: Places(s, m) + InHand(Some(n), m) <= 1;
    forall m | m in s.status && s.status[m] == Queued ensures Places(s, m) + InHand(None, m) == 1 {
      assert Places(s, m) + InHand(Some(n), m) == 1;
    }
  }

  /** The head of the queue is on hold. */
  ghost predicate HeadOnHold(s: State) {
    s.queue != [] && var n := s.queue[MinIndex(s.queue)].nodeId; n in s.status && s.status[n] == OnHold
  }

  /** The head of the queue is put on hold. */
  lemma HoldHeadHolds(s: State, i: nat, n: NodeId, strict: bool := false)
    requires Inv(s, strict) && i < |s.workers| && s.queue != [] && n == s.queue[MinIndex(s.queue)].nodeId
    requires CanMove(s, n, OnHold)
    ensures Inv(PushHold(Mark(TakeFromQueue(s), n, OnHold), i, s.queue[MinIndex(s.queue)]), strict)
  {
    TakeHead(s, strict);
    PushHoldKeeps(TakeFromQueue(s), i, s.queue[MinIndex(s.queue)], Some(n), strict);
  }

  lemma HeadIsHeld(s: State, n: NodeId)
    requires InQueueOk(s) && s.queue != [] && n == s.queue[MinIndex(s.queue)].nodeId && !CanMove(s, n, OnHold)
    ensures HeadOnHold(s)
  {
    assert s.queue[MinIndex(s.queue)] in s.queue;
  }

  /** The head of the queue is dropped if it is on hold already. */
  lemma HoldHeadDrops(s: State, n: NodeId, strict: bool := false)
    requires Inv(s, strict) && s.queue != [] && n == s.queue[MinIndex(s.queue)].nodeId && !CanMove(s, n, OnHold)
    ensures Inv(TakeFromQueue(s)) && HeadOnHold(s)
  {
    Loose(s, strict);
    HeadIsHeld(s, n);
    TakeHead(s);
    DropKeeps(TakeFromQueue(s), n);
  }

  /** The head of the queue is put on hold, or dropped. */
  lemma HoldHeadKeeps(s: State, i: nat, strict: bool := false)
    requires Inv(s, strict) && i < |s.workers| && s.queue != []
    requires strict ==> !HeadOnHold(s)
    ensures var rest, task := TakeFromQueue(s), s.queue[MinIndex(s.queue)];
            if CanMove(rest, task.nodeId, OnHold) then Inv(PushHold(Mark(rest, task.nodeId, OnHold), i, task), strict)
            else Inv(rest) && !strict
  {
    var n := s.queue[MinIndex(s.queue)].nodeId;
    if CanMove(s, n, OnHold) { HoldHeadHolds(s, i, n, strict); } else { HoldHeadDrops(s, n, strict); }
  }

  /** One attempt: the candidate is put on hold, or dropped. */
  lemma HoldAttemptKeeps(s: State, i: nat, preferred: seq<NodeId>, strict: bool := false)
    requires Inv(s, strict) && i < |s.workers|
    requires forall n :: n in preferred ==> n in s.status && s.status[n] == Pending
    requires strict && preferred == [] ==> !HeadOnHold(s)
    ensures Inv(AfterAttempt(s, i, preferred), strict)
    ensures !AttemptHolds(s, preferred) ==> preferred == [] && (strict ==> AfterAttempt(s, i, preferred) == s)
  {
    if preferred != [] {
      assert preferred[0] in preferred;
      PushHoldKeeps(s, i, QueuedTask(preferred[0], s.wf.nodes[preferred[0]].task, s.clock), None, strict);
    } else if s.queue != [] {
      HoldHeadKeeps(s, i, strict);
    }
  }

  lemma {:induction false} PutOnHoldKeeps(s: State, i: nat, preferred: seq<NodeId>, attempts: nat,
                                          strict: bool := false)
    requires Inv(s, strict) && i < |s.workers|
    requires forall n :: n in preferred ==> n in s.status && s.status[n] == Pending
    requires strict && preferred == [] ==> !HeadOnHold(s)
    ensures Inv(PutOnHold(s, i, preferred, attempts), strict)
    decreases attempts
  {
    if attempts != 0 {
      var left := attempts - 1;
      HoldStep(s, i, preferred, attempts, left);
      HoldAttemptKeeps(s, i, preferred, strict);
      if !AttemptHolds(s, preferred) { PutOnHoldKeeps(AfterAttempt(s, i, preferred), i, preferred, left, strict); }
    }
  }

  /** A hold request that finds nothing by look-ahead, and a task on hold at the head of the
      queue, drops that task. */
  ghost predicate DropsHead(s: State, e: Event) {
    e.HoldRequest? && HoldAccepted(s, e.worker) && Preferred(s, e.worker) == [] && HeadOnHold(s)
  }

  lemma PreferredPending(s: State, w: string)
    requires WF(s) && HoldAccepted(s, w)
    ensures forall n :: n in Preferred(s, w) ==> n in s.status && s.status[n] == Pending
  {}

  lemma HoldRequestKeeps(s: State, w: string, strict: bool := false)
    requires Inv(s, strict) && (strict ==> !DropsHead(s, HoldRequest(w)))
    ensures Inv(HoldRequested(s, w), strict)
  {
    if HoldAccepted(s, w) {
      PreferredPending(s, w);
      PutOnHoldKeeps(s, FindWorker(s.workers, w), Preferred(s, w), HOLD_ATTEMPTS, strict);
    }
  }

  /** A node on hold without a place. */
  ghost predicate Lost(s: State, n: NodeId) {
    n in s.status && s.status[n] == OnHold && Places(s, n) == 0
  }

  lemma TakenStaysLost(s: State, n: NodeId)
    requires WF(s) && s.queue != [] && Lost(s, n)
    ensures Lost(TakeFromQueue(s), n)
  {
    CountRemove(s.queue, MinIndex(s.queue), n);
  }

  lemma PushStaysLost(s: State, i: nat, t: QueuedTask, n: NodeId)
    requires WF(s) && i < |s.workers| && Lost(s, n) && CanMove(s, t.nodeId, OnHold)
    ensures Lost(PushHold(Mark(s, t.nodeId, OnHold), i, t), n)
  {
    PushHoldPlaces(Mark(s, t.nodeId, OnHold), i, t, n);
  }

  lemma AttemptStaysLost(s: State, i: nat, n: NodeId)
    requires WF(s) && i < |s.workers| && Lost(s, n)
    ensures Lost(AfterAttempt(s, i, []), n)
  {
    if s.queue != [] {
      var (rest, task) := (TakeFromQueue(s), s.queue[MinIndex(s.queue)]);
      TakenStaysLost(s, n);
      if CanMove(s, task.nodeId, OnHold) { PushStaysLost(rest, i, task, n); }
    }
  }

  /** Once dropped, a task stays without a place through further attempts. */
  lemma {:induction false} DroppedStays(s: State, i: nat, attempts: nat, n: NodeId)
    requires WF(s) && i < |s.workers| && Lost(s, n)
    ensures Lost(PutOnHold(s, i, [], attempts), n)
    decreases attempts
  {
    if attempts != 0 {
      var left := attempts - 1;
      HoldStep(s, i, [], attempts, left);
      AttemptStaysLost(s, i, n);
      if !AttemptHolds(s, []) { DroppedStays(AfterAttempt(s, i, []), i, left, n); }
    }
  }

  lemma HeadIsLost(s: State, i: nat)
    requires WF(s) && i < |s.workers| && HeadOnHold(s) && Unique(s, None)
    ensures !AttemptHolds(s, []) && Lost(AfterAttempt(s, i, []), s.queue[MinIndex(s.queue)].nodeId)
  {
    var n := s.queue[MinIndex(s.queue)].nodeId;
    assert Places(s, n) + InHand(None, n) <= 1;
    CountRemove(s.queue, MinIndex(s.queue), n);
  }

  lemma HeadDropped(s: State, i: nat, attempts: nat)
    requires WF(s) && i < |s.workers| && attempts > 0 && HeadOnHold(s) && Unique(s, None)
    ensures Lost(PutOnHold(s, i, [], attempts), s.queue[MinIndex(s.queue)].nodeId)
  {
    var left := attempts - 1;
    HoldStep(s, i, [], attempts, left);
    HeadIsLost(s, i);
    DroppedStays(AfterAttempt(s, i, []), i, left, s.queue[MinIndex(s.queue)].nodeId);
  }

  lemma DropLoses(s: State, e: Event)
    requires Inv(s, true) && DropsHead(s, e)
    ensures !Inv(Step(s, e), true)
  {
    var n, t := s.queue[MinIndex(s.queue)].nodeId, HoldRequested(s, e.worker);
    HeadDropped(s, FindWorker(s.workers, e.worker), HOLD_ATTEMPTS);
    assert Places(t, n) + InHand(None, n) == 0;
  }

  lemma SetStatusKeeps(s: State, i: nat, status: WorkerStatus, strict: bool := false)
    requires Inv(s, strict) && i < |s.workers|
    ensures Inv(SetWorker(s, i, s.workers[i].(status := status)), strict)
  {
    var t := SetWorker(s, i, s.workers[i].(status := status));
    forall m ensures Places(t, m) == Places(s, m) { SetWorkerPlaces(s, i, t.workers[i], m); }
    forall j | 0 <= j < |t.workers| ensures WorkerOk(t, t.workers[j]) {
      assert WorkerOk(s, s.workers[j]);
    }
    forall m | m in t.status && t.status[m] == Running ensures IsWorkedOn(t.workers, m) {
      var j :| 0 <= j < |s.workers| && s.workers[j].workingOn == Some(m);
      assert t.workers[j].workingOn == Some(m);
    }
  }

  lemma RegisterKeeps(s: State, w: string, strict: bool := false)
    requires Inv(s, strict)
    ensures Inv(s.(workers := s.workers + [Worker(w, Online, None, [])]), strict)
  {
    var t := s.(workers := s.workers + [Worker(w, Online, None, [])]);
    forall m ensures Places(t, m) == Places(s, m) { CountNewWorker(s.workers, Worker(w, Online, None, []), m); }
    forall j | 0 <= j < |t.workers| ensures WorkerOk(t, t.workers[j]) {
      assert j < |s.workers| ==> WorkerOk(s, s.workers[j]);
    }
    forall m | m in t.status && t.status[m] == Running ensures IsWorkedOn(t.workers, m) {
      var j :| 0 <= j < |s.workers| && s.workers[j].workingOn == Some(m);
      assert t.workers[j].workingOn == Some(m);
    }
  }

  lemma HeartbeatKeeps(s: State, w: string, strict: bool := false)
    requires Inv(s, strict)
    ensures Inv(Heartbeat(s, w), strict)
  {
    var i := FindWorker(s.workers, w);
    if i == |s.workers| {
      RegisterKeeps(s, w, strict);
      var t := s.(workers := s.workers + [Worker(w, Online, None, [])]);
      CallsIrrelevant(t, t.calls + multiset{ForFreeWorker(w)}, strict);
    } else {
      SetStatusKeeps(s, i, Online, strict);
      var t := SetWorker(s, i, s.workers[i].(status := Online));
      CallsIrrelevant(t, t.calls + multiset{ForFreeWorker(w)}, strict);
    }
  }

  lemma StaleKeeps(s: State, w: string, strict: bool := false)
    requires Inv(s, strict)
    ensures Inv(BecomesStale(s, w), strict)
  {
    var i := FindWorker(s.workers, w);
    if i < |s.workers| {
      SetStatusKeeps(s, i, Stale, strict);
      var t := SetWorker(s, i, s.workers[i].(status := Stale));
      CallsIrrelevant(t, t.calls + multiset{RequeueHeld(w)}, strict);
    }
  }

  /** Every honest step keeps the invariant. */
  lemma StepKeeps(s: State, e: Event, strict: bool := false)
    requires Inv(s, strict) && Honest(s, e) && (strict ==> !DropsHead(s, e))
    ensures Inv(Step(s, e), strict)
  {
    match e
    case Started(w, n) => StartedKeeps(s, w, n, strict);
    case Completed(w, n) => CompletedKeeps(s, n, strict);
    case FailedEvent(w, n) => FailedKeeps(s, w, n, strict);
    case Uploaded(n, a) => UploadedKeeps(s, n, a, strict);
    case HoldRequest(w) => HoldRequestKeeps(s, w, strict);
    case Beat(w) => HeartbeatKeeps(s, w, strict);
    case GoesStale(w) => StaleKeeps(s, w, strict);
    case Perform(c) => PerformKeeps(s, c, strict);
  }

  /** An honest step loses a task on hold exactly when it is a hold request without a
      look-ahead and the head of the queue is on hold. */
  lemma ExactLoss(s: State, e: Event)
    requires Inv(s, true) && Honest(s, e)
    ensures Inv(Step(s, e), true) <==> !DropsHead(s, e)
  {
    if DropsHead(s, e) { DropLoses(s, e); } else { StepKeeps(s, e, true); }
  }

  /** No step of the run drops a task. */
  ghost predicate NothingDropped(s: State, es: seq<Event>)
    requires WF(s)
    decreases es
  {
    es == [] || (!DropsHead(s, es[0]) && NothingDropped(Step(s, es[0]), es[1..]))
  }

  lemma {:induction false} RunKeeps(s: State, es: seq<Event>, strict: bool := false)
    requires Inv(s, strict) && HonestRun(s, es) && (strict ==> NothingDropped(s, es))
    ensures Inv(Exec(s, es), strict)
    decreases es
  {
    if es != [] {
      StepKeeps(s, es[0], strict);
      RunKeeps(Step(s, es[0]), es[1..], strict);
    }
  }

  lemma {:induction false} IdleCount(ws: seq<Worker>, n: NodeId)
    requires Idle(ws)
    ensures CountWorkers(ws, n) == 0
  {
    if ws != [] { IdleCount(ws[1..], n); }
  }

  lemma FreshInv(wf: Workflow, workers: seq<Worker>, clock: nat, strict: bool := false)
    requires Distinct(wf.order) && ToSet(wf.order) == wf.nodes.Keys && Idle(workers)
    ensures Inv(Fresh(wf, workers, clock), strict)
  {
    var s := Fresh(wf, workers, clock);
    forall n ensures Places(s, n) == 0 { IdleCount(workers, n); }
    forall j | 0 <= j < |s.workers| ensures WorkerOk(s, s.workers[j]) {}
  }

  lemma CreatedInv(wf: Workflow, workers: seq<Worker>, clock: nat, strict: bool := false)
    requires Distinct(wf.order) && ToSet(wf.order) == wf.nodes.Keys && Idle(workers)
    ensures Inv(Created(wf, workers, clock), strict)
  {
    FreshInv(wf, workers, clock, strict);
    QueueOutstandingEffect(Fresh(wf, workers, clock), strict);
    var queued := QueueOutstanding(Fresh(wf, workers, clock));
    forall n { FreeCallsOnly(workers, n); }
    CallsIrrelevant(queued, queued.calls + FreeWorkerCalls(workers), strict);
  }
}
