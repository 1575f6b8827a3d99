/** The state that the task manager keeps about one workflow, its queue and its workers,
    and what each handler of the scheduler does to it.  Every handler, and every
    scheduling call that a handler starts without awaiting it, is one atomic step. */
module SchedulerModel {
  import opened WorkflowTypes

  // The part of a stored node that never changes.
  datatype Node = Node(task: Task, edges: seq<EdgeDto>)
  datatype Workflow = Workflow(order: seq<NodeId>, nodes: map<NodeId, Node>)

  datatype QueuedTask = QueuedTask(nodeId: NodeId, task: Task, addedAt: nat)

  datatype WorkerStatus = Stale | Online
  datatype Worker = Worker(name: string, status: WorkerStatus, workingOn: Option<NodeId>, nodesOnHold: seq<QueuedTask>)

  // Scheduling calls that were started and not awaited.
  datatype Call =
    | AfterNode(nodeId: NodeId)      // hand the worker of a finished node its next task
    | ForFreeWorker(worker: string)  // give a worker without work a task
    | RequeueHeld(worker: string)    // requeue the tasks on hold of a stale worker

  datatype State = State(
    wf: Workflow,
    status: map<NodeId, DagNodeStatus>,
    retries: map<NodeId, nat>,
    published: set<ArtifactId>,
    queue: seq<QueuedTask>,
    clock: nat,
    workers: seq<Worker>,
    calls: multiset<Call>)

  ghost predicate WF(s: State) {
    && Distinct(s.wf.order)
    && ToSet(s.wf.order) == s.wf.nodes.Keys
    && s.status.Keys == s.retries.Keys == s.wf.nodes.Keys
  }

  // ---------------------------------------------------------------- dependencies

  /** An edge's requirement: its source succeeded, or its artifact is published. */
  predicate Satisfied(e: EdgeDto, status: map<NodeId, DagNodeStatus>, published: set<ArtifactId>) {
    match e.conditionType
    case TaskType => e.fromId in status && status[e.fromId] == Succeeded
    case ArtifactType => e.artifactId.Some? && e.artifactId.value in published
    case OtherType => false
  }

  predicate AllMet(n: NodeId, edges: seq<EdgeDto>, status: map<NodeId, DagNodeStatus>, published: set<ArtifactId>) {
    forall e :: e in edges && e.toId == n ==> Satisfied(e, status, published)
  }

  predicate IsReady(n: NodeId, wf: Workflow, status: map<NodeId, DagNodeStatus>, published: set<ArtifactId>) {
    && n in wf.nodes && n in status && status[n] == Pending
    && AllMet(n, wf.nodes[n].edges, status, published)
  }

  function ReadySet(wf: Workflow, status: map<NodeId, DagNodeStatus>, published: set<ArtifactId>): set<NodeId> {
    set n | n in wf.nodes && IsReady(n, wf, status, published)
  }

  /** The Pending nodes without an open dependency, in document order. */
  function Outstanding(wf: Workflow, status: map<NodeId, DagNodeStatus>, published: set<ArtifactId>): seq<NodeId> {
    Select(wf.order, ReadySet(wf, status, published))
  }

  /** A task has completion criteria and all of them count as met; a criterion on a
      task is not supported by the scheduler and counts as met. */
  predicate CriteriaMet(task: Task, published: set<ArtifactId>) {
    && task.completionCriteria != []
    && forall c :: c in task.completionCriteria ==> c.kind == TaskType || (c.kind == ArtifactType && c.id in published)
  }

  function CompleteSet(wf: Workflow, status: map<NodeId, DagNodeStatus>, published: set<ArtifactId>): set<NodeId> {
    set n | n in wf.nodes && n in status && status[n] == Running && CriteriaMet(wf.nodes[n].task, published)
  }

  // ---------------------------------------------------------------- queue and workers

  function Ids(q: seq<QueuedTask>): (r: seq<NodeId>)
    ensures |r| == |q| && forall i :: 0 <= i < |q| ==> r[i] == q[i].nodeId
  {
    seq(|q|, i requires 0 <= i < |q| => q[i].nodeId)
  }

  /** Whether `a` leaves the queue strictly before `b`. */
  predicate Before(a: QueuedTask, b: QueuedTask) {
    a.task.priority < b.task.priority || (a.task.priority == b.task.priority && a.addedAt < b.addedAt)
  }

  /** The first of the entries that no other entry must precede. */
  function MinIndex(q: seq<QueuedTask>): (k: nat)
    requires q != []
    ensures k < |q|
    ensures forall j :: 0 <= j < |q| ==> !Before(q[j], q[k])
    ensures forall j :: 0 <= j < k ==> Before(q[k], q[j])
  {
    var last := |q| - 1;
    if last == 0 then 0
    else
      var k := MinIndex(q[..last]);
      assert forall j :: 0 <= j < last ==> q[..last][j] == q[j];
      if Before(q[last], q[k]) then last else k
  }

  function RemoveAt<T>(q: seq<T>, k: nat): seq<T>
    requires k < |q|
  {
    q[..k] + q[k + 1..]
  }

  function FindWorker(ws: seq<Worker>, name: string): (i: nat)
    ensures i <= |ws|
    ensures i < |ws| ==> ws[i].name == name
    ensures forall j :: 0 <= j < i ==> ws[j].name != name
  {
    if ws == [] || ws[0].name == name then 0 else 1 + FindWorker(ws[1..], name)
  }

  lemma {:induction false} SameNames(ws: seq<Worker>, vs: seq<Worker>, name: string)
    requires |ws| == |vs| && forall i :: 0 <= i < |ws| ==> ws[i].name == vs[i].name
    ensures FindWorker(ws, name) == FindWorker(vs, name)
  {
    if ws != [] { SameNames(ws[1..], vs[1..], name); }
  }

  ghost predicate UniqueNames(ws: seq<Worker>) {
    forall i, j :: 0 <= i < j < |ws| ==> ws[i].name != ws[j].name
  }

  lemma {:induction false} FindsByName(ws: seq<Worker>, i: nat)
    requires UniqueNames(ws) && i < |ws|
    ensures FindWorker(ws, ws[i].name) == i
  {
    if i > 0 { FindsByName(ws[1..], i - 1); }
  }

  function FindWorkingOn(ws: seq<Worker>, n: NodeId): (i: nat)
    ensures i <= |ws|
    ensures i < |ws| ==> ws[i].workingOn == Some(n)
    ensures forall j :: 0 <= j < i ==> ws[j].workingOn != Some(n)
  {
    if ws == [] || ws[0].workingOn == Some(n) then 0 else 1 + FindWorkingOn(ws[1..], n)
  }

  /** The names of the online workers without work, as calls to give them some. */
  function FreeWorkerCalls(ws: seq<Worker>): multiset<Call> {
    if ws == [] then multiset{}
    else (if ws[0].status == Online && ws[0].workingOn.None? then multiset{ForFreeWorker(ws[0].name)} else multiset{})
         + FreeWorkerCalls(ws[1..])
  }

  function AfterNodeCalls(ns: seq<NodeId>): multiset<Call> {
    if ns == [] then multiset{} else multiset{AfterNode(ns[0])} + AfterNodeCalls(ns[1..])
  }

  // ---------------------------------------------------------------- updates

  predicate CanMove(s: State, n: NodeId, to: DagNodeStatus) {
    n in s.status && s.status[n] in Proceeding(to)
  }

  function Mark(s: State, n: NodeId, to: DagNodeStatus): (r: State)
    requires WF(s) && n in s.status
    ensures WF(r) && r == s.(status := r.status)
  {
    s.(status := s.status[n := to])
  }

  function MarkAll(status: map<NodeId, DagNodeStatus>, ns: seq<NodeId>, to: DagNodeStatus): map<NodeId, DagNodeStatus> {
    map m | m in status :: if m in ns then to else status[m]
  }

  function Enqueue(s: State, n: NodeId): (r: State)
    requires WF(s)
    ensures WF(r) && r == s.(queue := r.queue, clock := r.clock)
  {
    if n in s.wf.nodes then
      s.(queue := s.queue + [QueuedTask(n, s.wf.nodes[n].task, s.clock)], clock := s.clock + 1)
    else s
  }

  /** Mark a node as Queued and put it in the queue. */
  function QueueNode(s: State, n: NodeId): (r: State)
    requires WF(s) && n in s.status
    ensures WF(r) && r == s.(status := r.status, queue := r.queue, clock := r.clock)
  {
    Enqueue(Mark(s, n, Queued), n)
  }

  /** Queue the nodes one after the other, stopping at the first that cannot be queued. */
  function QueueAll(s: State, ns: seq<NodeId>): (r: State)
    requires WF(s)
    ensures WF(r)
    ensures r.wf == s.wf && r.retries == s.retries && r.published == s.published
    ensures r.workers == s.workers && r.calls == s.calls
    decreases ns
  {
    if ns == [] || !CanMove(s, ns[0], Queued) then s
    else QueueAll(QueueNode(s, ns[0]), ns[1..])
  }

  function QueueOutstanding(s: State): (r: State)
    requires WF(s)
    ensures WF(r)
    ensures r.wf == s.wf && r.retries == s.retries && r.published == s.published
    ensures r.workers == s.workers && r.calls == s.calls
  {
    QueueAll(s, Outstanding(s.wf, s.status, s.published))
  }

  function SetWorker(s: State, i: nat, w: Worker): (r: State)
    requires WF(s) && i < |s.workers|
    ensures WF(r) && r == s.(workers := r.workers) && |r.workers| == |s.workers|
  {
    s.(workers := s.workers[i := w])
  }

  function Assign(s: State, i: nat, n: NodeId): (r: State)
    requires WF(s) && i < |s.workers|
    ensures WF(r) && r == s.(workers := r.workers) && |r.workers| == |s.workers|
  {
    SetWorker(s, i, s.workers[i].(workingOn := Some(n)))
  }

  function ClearWork(s: State, i: nat): (r: State)
    requires WF(s) && i < |s.workers|
    ensures WF(r) && r == s.(workers := r.workers) && |r.workers| == |s.workers|
  {
    SetWorker(s, i, s.workers[i].(workingOn := None))
  }

  function ClearWorkOn(s: State, n: NodeId): (r: State)
    requires WF(s)
    ensures WF(r) && r == s.(workers := r.workers) && |r.workers| == |s.workers|
  {
    var i := FindWorkingOn(s.workers, n);
    if i < |s.workers| then ClearWork(s, i) else s
  }

  function PopHold(s: State, i: nat): (r: State)
    requires WF(s) && i < |s.workers|
    ensures WF(r) && r == s.(workers := r.workers) && |r.workers| == |s.workers|
  {
    var w := s.workers[i];
    if w.nodesOnHold == [] then s else SetWorker(s, i, w.(nodesOnHold := w.nodesOnHold[1..]))
  }

  function PushHold(s: State, i: nat, t: QueuedTask): (r: State)
    requires WF(s) && i < |s.workers|
    ensures WF(r) && r == s.(workers := r.workers) && |r.workers| == |s.workers|
  {
    SetWorker(s, i, s.workers[i].(nodesOnHold := s.workers[i].nodesOnHold + [t]))
  }

  function TakeFromQueue(s: State): (r: State)
    requires WF(s) && s.queue != []
    ensures WF(r) && r == s.(queue := r.queue)
  {
    s.(queue := RemoveAt(s.queue, MinIndex(s.queue)))
  }

  /** The next task for worker `i`: its first task on hold, else the head of the queue. */
  function NextTask(s: State, i: nat): (r: (State, Option<QueuedTask>))
    requires WF(s) && i < |s.workers|
    ensures WF(r.0) && r.0 == s.(workers := r.0.workers, queue := r.0.queue) && |r.0.workers| == |s.workers|
  {
    if s.workers[i].nodesOnHold != [] then (PopHold(s, i), Some(s.workers[i].nodesOnHold[0]))
    else if s.queue != [] then (TakeFromQueue(s), Some(s.queue[MinIndex(s.queue)]))
    else (s, None)
  }

  // ---------------------------------------------------------------- handlers

  function TaskStarted(s: State, n: NodeId): (r: State)
    requires WF(s)
    ensures WF(r) && r.wf == s.wf && r.published == s.published
  {
    if CanMove(s, n, Running) then Mark(s, n, Running) else s
  }

  function TaskCompleted(s: State, n: NodeId): (r: State)
    requires WF(s)
    ensures WF(r) && r.wf == s.wf && r.published == s.published
  {
    if CanMove(s, n, Succeeded) then
      var queued := QueueOutstanding(Mark(s, n, Succeeded));
      queued.(calls := queued.calls + multiset{AfterNode(n)})
    else s
  }

  function PendingSet(status: map<NodeId, DagNodeStatus>): set<NodeId> {
    set n | n in status && status[n] == Pending
  }

  /** The cancel operation of a failed workflow reaches only the first Pending node. */
  function CancelFirst(s: State): (r: State)
    requires WF(s)
    ensures WF(r) && r == s.(status := r.status)
  {
    var pending := Select(s.wf.order, PendingSet(s.status));
    if pending == [] then s else Mark(s, pending[0], Canceled)
  }

  function MarkFailed(s: State, n: NodeId): (r: State)
    requires WF(s) && n in s.status
    ensures WF(r) && r.wf == s.wf && r.published == s.published
  {
    s.(status := s.status[n := Failed], retries := s.retries[n := s.retries[n] + 1])
  }

  predicate Exhausted(s: State, n: NodeId)
    requires n in s.retries && n in s.wf.nodes
  {
    s.retries[n] > s.wf.nodes[n].task.retryPolicy.maxRetryCount
  }

  function TaskFailed(s: State, n: NodeId): (r: State)
    requires WF(s)
    ensures WF(r) && r.wf == s.wf && r.published == s.published
  {
    if !CanMove(s, n, Failed) then s
    else
      var failed := MarkFailed(s, n);
      if Exhausted(failed, n) then ClearWorkOn(CancelFirst(failed), n)
      else
        var cleared := ClearWorkOn(QueueNode(failed, n), n);
        cleared.(calls := cleared.calls + FreeWorkerCalls(cleared.workers))
  }

  lemma RetriesWhenFailed(s: State, n: NodeId)
    requires WF(s) && CanMove(s, n, Failed) && !Exhausted(MarkFailed(s, n), n)
    ensures var cleared := ClearWorkOn(QueueNode(MarkFailed(s, n), n), n);
            TaskFailed(s, n) == cleared.(calls := cleared.calls + FreeWorkerCalls(cleared.workers))
  {}

  lemma GivesUpWhenExhausted(s: State, n: NodeId)
    requires WF(s) && CanMove(s, n, Failed) && Exhausted(MarkFailed(s, n), n)
    ensures TaskFailed(s, n) == ClearWorkOn(CancelFirst(MarkFailed(s, n)), n)
  {}

  /** Publishing an artifact completes every Running node whose criteria are met, and
      queues what became outstanding. */
  function ArtifactUploaded(s: State, n: NodeId, a: ArtifactId): (r: State)
    requires WF(s)
    ensures WF(r) && r.wf == s.wf && s.published <= r.published
  {
    if n !in s.wf.nodes || a in s.published then s
    else
      var published := s.(published := s.published + {a});
      var done := Select(s.wf.order, CompleteSet(s.wf, s.status, published.published));
      var queued := QueueOutstanding(published.(status := MarkAll(s.status, done, Succeeded)));
      queued.(calls := queued.calls + AfterNodeCalls(done))
  }

  function LookAhead(s: State, n: NodeId): seq<NodeId>
    requires n in s.wf.nodes
  {
    Outstanding(s.wf, s.status[n := Succeeded], s.published + ToSet(s.wf.nodes[n].task.results))
  }

  /** The task to put on hold: the first preferred node if there is one, else the head of
      the queue, which is taken out. */
  function HoldCandidate(s: State, preferred: seq<NodeId>): (r: (State, Option<QueuedTask>))
    requires WF(s)
    ensures WF(r.0) && r.0 == s.(queue := r.0.queue)
  {
    if preferred != [] then
      (s, if preferred[0] in s.wf.nodes then Some(QueuedTask(preferred[0], s.wf.nodes[preferred[0]].task, s.clock))
       else None)
    else if s.queue == [] then (s, None)
    else (TakeFromQueue(s), Some(s.queue[MinIndex(s.queue)]))
  }

  /** A number of attempts to move a task to the hold list of worker `i`.  A dequeued task
      whose node cannot be put on hold is dropped. */
  function PutOnHold(s: State, i: nat, preferred: seq<NodeId>, attempts: nat): (r: State)
    requires WF(s) && i < |s.workers|
    ensures WF(r) && r.wf == s.wf && r.published == s.published && r.calls == s.calls && r.retries == s.retries
    ensures forall n :: n in s.status ==> r.status[n] == s.status[n] || (r.status[n] == OnHold && CanMove(s, n, OnHold))
    decreases attempts
  {
    if attempts == 0 then s
    else
      var (rest, task) := HoldCandidate(s, preferred);
      if task.Some? && CanMove(rest, task.value.nodeId, OnHold) then
        PushHold(Mark(rest, task.value.nodeId, OnHold), i, task.value)
      else PutOnHold(rest, i, preferred, attempts - 1)
  }

  /** An attempt finds a task whose node may be put on hold. */
  predicate AttemptHolds(s: State, preferred: seq<NodeId>)
    requires WF(s)
  {
    var task := HoldCandidate(s, preferred).1;
    task.Some? && CanMove(s, task.value.nodeId, OnHold)
  }

  /** The state after one attempt to hold a task for worker `i`. */
  function AfterAttempt(s: State, i: nat, preferred: seq<NodeId>): (r: State)
    requires WF(s) && i < |s.workers|
    ensures WF(r) && r.wf == s.wf && r.published == s.published && |r.workers| == |s.workers|
  {
    var (rest, task) := HoldCandidate(s, preferred);
    if AttemptHolds(s, preferred) then PushHold(Mark(rest, task.value.nodeId, OnHold), i, task.value) else rest
  }

  lemma HoldStep(s: State, i: nat, preferred: seq<NodeId>, attempts: nat, left: nat)
    requires WF(s) && i < |s.workers| && attempts == left + 1
    ensures PutOnHold(s, i, preferred, attempts) ==
            if AttemptHolds(s, preferred) then AfterAttempt(s, i, preferred)
            else PutOnHold(AfterAttempt(s, i, preferred), i, preferred, left)
  {}

  const HOLD_ATTEMPTS := 4

  /** The request comes from an online worker that works on a known node and has nothing
      on hold. */
  predicate HoldAccepted(s: State, worker: string) {
    var i := FindWorker(s.workers, worker);
    && i < |s.workers| && s.workers[i].status == Online && s.workers[i].nodesOnHold == []
    && s.workers[i].workingOn.Some? && s.workers[i].workingOn.value in s.wf.nodes
  }

  /** What the look-ahead of an accepted request offers. */
  function Preferred(s: State, worker: string): seq<NodeId>
    requires HoldAccepted(s, worker)
  {
    LookAhead(s, s.workers[FindWorker(s.workers, worker)].workingOn.value)
  }

  function HoldRequested(s: State, worker: string): (r: State)
    requires WF(s)
    ensures WF(r) && r.wf == s.wf && r.published == s.published
  {
    if HoldAccepted(s, worker) then
      PutOnHold(s, FindWorker(s.workers, worker), Preferred(s, worker), HOLD_ATTEMPTS)
    else s
  }

  function Heartbeat(s: State, worker: string): (r: State)
    requires WF(s)
    ensures WF(r) && r.wf == s.wf && r.published == s.published
  {
    var i := FindWorker(s.workers, worker);
    var call := multiset{ForFreeWorker(worker)};
    if i == |s.workers| then
      s.(workers := s.workers + [Worker(worker, Online, None, [])], calls := s.calls + call)
    else
      var w := s.workers[i];
      var online := SetWorker(s, i, w.(status := Online));
      if w.status == Stale || w.workingOn.None? then online.(calls := online.calls + call) else online
  }

  function BecomesStale(s: State, worker: string): (r: State)
    requires WF(s)
    ensures WF(r) && r.wf == s.wf && r.published == s.published
  {
    var i := FindWorker(s.workers, worker);
    if i == |s.workers| then s
    else
      var stale := SetWorker(s, i, s.workers[i].(status := Stale));
      stale.(calls := stale.calls + multiset{RequeueHeld(worker)})
  }

  /** The handler of a stale worker: queue each node on hold and drop the first entry of
      the hold list for each node that could be queued. */
  function RequeueAllHeld(s: State, i: nat, held: seq<QueuedTask>): (r: State)
    requires WF(s) && i < |s.workers|
    ensures WF(r) && r.wf == s.wf && r.published == s.published
    ensures forall n :: n in s.status ==> r.status[n] == s.status[n] || (r.status[n] == Queued && CanMove(s, n, Queued))
    decreases held
  {
    if held == [] then s
    else if CanMove(s, held[0].nodeId, Queued) then
      RequeueAllHeld(PopHold(QueueNode(s, held[0].nodeId), i), i, held[1..])
    else RequeueAllHeld(s, i, held[1..])
  }

  function RunRequeueHeld(s: State, worker: string): (r: State)
    requires WF(s)
    ensures WF(r) && r.wf == s.wf && r.published == s.published
  {
    var i := FindWorker(s.workers, worker);
    if i == |s.workers| then s else RequeueAllHeld(s, i, s.workers[i].nodesOnHold)
  }

  function RunForFreeWorker(s: State, worker: string): (r: State)
    requires WF(s)
    ensures WF(r) && r.wf == s.wf && r.published == s.published
  {
    var i := FindWorker(s.workers, worker);
    if i == |s.workers| then s
    else
      var (taken, task) := NextTask(s, i);
      if task.None? then taken
      else if taken.workers[i].workingOn.None? then Assign(taken, i, task.value.nodeId)
      else Enqueue(taken, task.value.nodeId)
  }

  function RunAfterNode(s: State, n: NodeId): (r: State)
    requires WF(s)
    ensures WF(r) && r.wf == s.wf && r.published == s.published
  {
    var i := FindWorkingOn(s.workers, n);
    if i == |s.workers| || s.workers[i].status != Online then s
    else
      var (taken, task) := NextTask(s, i);
      if task.None? then ClearWork(taken, i) else Assign(taken, i, task.value.nodeId)
  }

  function RunCall(s: State, c: Call): (r: State)
    requires WF(s)
    ensures WF(r) && r.wf == s.wf && r.published == s.published
  {
    match c
    case AfterNode(n) => RunAfterNode(s, n)
    case ForFreeWorker(w) => RunForFreeWorker(s, w)
    case RequeueHeld(w) => RunRequeueHeld(s, w)
  }

  // ---------------------------------------------------------------- steps and runs

  datatype Event =
    | Started(worker: string, nodeId: NodeId)
    | Completed(worker: string, nodeId: NodeId)
    | FailedEvent(worker: string, nodeId: NodeId)
    | Uploaded(nodeId: NodeId, artifact: ArtifactId)
    | HoldRequest(worker: string)
    | Beat(worker: string)
    | GoesStale(worker: string)
    | Perform(call: Call)

  function Step(s: State, e: Event): (r: State)
    requires WF(s)
    ensures WF(r) && r.wf == s.wf && s.published <= r.published
  {
    match e
    case Started(_, n) => TaskStarted(s, n)
    case Completed(_, n) => TaskCompleted(s, n)
    case FailedEvent(_, n) => TaskFailed(s, n)
    case Uploaded(n, a) => ArtifactUploaded(s, n, a)
    case HoldRequest(w) => HoldRequested(s, w)
    case Beat(w) => Heartbeat(s, w)
    case GoesStale(w) => BecomesStale(s, w)
    case Perform(c) => if c in s.calls then RunCall(s.(calls := s.calls - multiset{c}), c) else s
  }

  /** A worker is honest when it reports only on the node it was given; a call runs only
      if some handler started it.  Artifacts may be reported by anyone at any time. */
  predicate Honest(s: State, e: Event) {
    match e
    case Started(w, n) => WorksOn(s, w, n)
    case Completed(w, n) => WorksOn(s, w, n)
    case FailedEvent(w, n) => WorksOn(s, w, n)
    case _ => true
  }

  predicate WorksOn(s: State, w: string, n: NodeId) {
    var i := FindWorker(s.workers, w);
    i < |s.workers| && s.workers[i].workingOn == Some(n)
  }

  function Exec(s: State, es: seq<Event>): (r: State)
    requires WF(s)
    ensures WF(r) && r.wf == s.wf && s.published <= r.published
    decreases es
  {
    if es == [] then s else Exec(Step(s, es[0]), es[1..])
  }

  predicate HonestRun(s: State, es: seq<Event>)
    requires WF(s)
    decreases es
  {
    es == [] || (Honest(s, es[0]) && HonestRun(Step(s, es[0]), es[1..]))
  }

  lemma OneEvent(s: State, e: Event)
    requires WF(s)
    ensures Exec(s, [e]) == Step(s, e) && (HonestRun(s, [e]) <==> Honest(s, e))
  {
    assert [e][1..] == [];
  }

  lemma TwoEvents(s: State, a: Event, b: Event)
    requires WF(s)
    ensures Exec(s, [a, b]) == Step(Step(s, a), b)
    ensures HonestRun(s, [a, b]) <==> Honest(s, a) && Honest(Step(s, a), b)
  {
    assert [a, b][1..] == [b];
    OneEvent(Step(s, a), b);
  }

  lemma {:induction false} ExecConcat(s: State, a: seq<Event>, b: seq<Event>)
    requires WF(s)
    ensures Exec(s, a + b) == Exec(Exec(s, a), b)
    ensures HonestRun(s, a + b) <==> HonestRun(s, a) && HonestRun(Exec(s, a), b)
    decreases a
  {
    if a == [] {
      assert a + b == b;
    } else {
      assert (a + b)[0] == a[0] && (a + b)[1..] == a[1..] + b;
      ExecConcat(Step(s, a[0]), a[1..], b);
    }
  }

  // ---------------------------------------------------------------- creation

  predicate Idle(ws: seq<Worker>) {
    forall i :: 0 <= i < |ws| ==> ws[i].workingOn.None? && ws[i].nodesOnHold == []
  }

  /** A workflow has just been stored: every node is Pending, nothing is published. */
  function Fresh(wf: Workflow, workers: seq<Worker>, clock: nat): State {
    State(wf, map n | n in wf.nodes :: Pending, map n | n in wf.nodes :: 0, {}, [], clock, workers, multiset{})
  }

  /** Creating a workflow queues its outstanding nodes and then looks for free workers. */
  function Created(wf: Workflow, workers: seq<Worker>, clock: nat): (r: State)
    requires Distinct(wf.order) && ToSet(wf.order) == wf.nodes.Keys
    ensures WF(r)
  {
    var queued := QueueOutstanding(Fresh(wf, workers, clock));
    queued.(calls := queued.calls + FreeWorkerCalls(workers))
  }
}
