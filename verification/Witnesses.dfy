/** Runs from the creation of a workflow that reach the states in which the scheduler falls
    short: of two tasks, with one worker that reports honestly. */
module Witnesses {
  import opened WorkflowTypes
  import opened SchedulerModel
  import opened Placement
  import opened Frontier
  import opened Limits
  import opened Dropped
  import opened WorkflowGraph

  // ---------------------------------------------------------------- two tasks and a worker

  /** Two different tasks that may be retried, and the edges between them. */
  datatype Case = Case(a: NodeId, b: NodeId, task: Task, edges: seq<EdgeDto>, name: string)

  ghost predicate ValidCase(c: Case) {
    c.a != c.b && c.task.retryPolicy.maxRetryCount > 0 && c.task.results == []
  }

  ghost predicate Independent(c: Case) {
    ValidCase(c) && c.edges == []
  }

  /** The second task depends on the first. */
  ghost predicate InOrder(c: Case) {
    ValidCase(c) && c.edges == [EdgeDto(c.a, c.b, TaskType, None)]
  }

  function Both<V>(c: Case, x: V, y: V): map<NodeId, V> {
    map[c.a := x, c.b := y]
  }

  function CaseWorkflow(c: Case): Workflow {
    Workflow([c.a, c.b], Both(c, Node(c.task, c.edges), Node(c.task, c.edges)))
  }

  /** A state: the statuses, the failures of the first task, the queue and the clock, the
      worker and the open calls. */
  function At(c: Case, x: DagNodeStatus, y: DagNodeStatus, failures: nat, queue: seq<QueuedTask>, clock: nat,
              worker: Worker, calls: multiset<Call>): (s: State)
  {
    State(CaseWorkflow(c), Both(c, x, y), Both(c, failures, 0), {}, queue, clock, [worker], calls)
  }

  function Entry(c: Case, n: NodeId, time: nat): QueuedTask {
    QueuedTask(n, c.task, time)
  }

  function Idling(c: Case): Worker {
    Worker(c.name, Online, None, [])
  }

  function WorkingOn(c: Case, n: NodeId): Worker {
    Worker(c.name, Online, Some(n), [])
  }

  lemma BothUpdate<V>(c: Case, x: V, y: V, z: V)
    requires c.a != c.b
    ensures Both(c, x, y)[c.a := z] == Both(c, z, y) && Both(c, x, y)[c.b := z] == Both(c, x, z)
  {}

  lemma AtWF(c: Case, x: DagNodeStatus, y: DagNodeStatus, failures: nat, queue: seq<QueuedTask>, clock: nat,
             worker: Worker, calls: multiset<Call>)
    requires c.a != c.b
    ensures WF(At(c, x, y, failures, queue, clock, worker, calls))
  {
    var s := At(c, x, y, failures, queue, clock, worker, calls);
    assert s.wf.order[0] == c.a && s.wf.order[1] == c.b;
    assert ToSet(s.wf.order) == {c.a, c.b} == s.wf.nodes.Keys;
  }

  lemma SelectPair(a: NodeId, b: NodeId, keep: set<NodeId>)
    ensures Select([a, b], keep) == (if a in keep then [a] else []) + (if b in keep then [b] else [])
  {
    assert [a, b][1..] == [b] && [b][1..] == [];
    assert Select([b], keep) == if b in keep then [b] else [];
  }

  // ---------------------------------------------------------------- creation

  /** The workflow may be stored, and its worker has no work. */
  ghost predicate CreatedProperly(c: Case) {
    var wf := CaseWorkflow(c);
    Distinct(wf.order) && ToSet(wf.order) == wf.nodes.Keys && Idle([Idling(c)])
  }

  lemma CaseIsProper(c: Case)
    requires c.a != c.b
    ensures CreatedProperly(c)
  {
    AtWF(c, Pending, Pending, 0, [], 0, Idling(c), multiset{});
  }

  lemma FreshCase(c: Case, clock: nat)
    requires c.a != c.b
    ensures Fresh(CaseWorkflow(c), [Idling(c)], clock) == At(c, Pending, Pending, 0, [], clock, Idling(c), multiset{})
  {
    var (s, t) := (Fresh(CaseWorkflow(c), [Idling(c)], clock),
                   At(c, Pending, Pending, 0, [], clock, Idling(c), multiset{}));
    assert s.status == t.status && s.retries == t.retries;
  }

  lemma OneFreeCall(c: Case)
    ensures FreeWorkerCalls([Idling(c)]) == multiset{ForFreeWorker(c.name)}
  {
    assert [Idling(c)][1..] == [];
  }

  /** The state after the creation of two independent tasks. */
  function CreatedBoth(c: Case, clock: nat): State {
    At(c, Queued, Queued, 0, [Entry(c, c.a, clock), Entry(c, c.b, clock + 1)], clock + 2, Idling(c),
       multiset{ForFreeWorker(c.name)})
  }

  lemma BothOutstanding(c: Case)
    requires Independent(c)
    ensures Outstanding(CaseWorkflow(c), Both(c, Pending, Pending), {}) == [c.a, c.b]
  {
    var (wf, status) := (CaseWorkflow(c), Both(c, Pending, Pending));
    assert IsReady(c.a, wf, status, {}) && IsReady(c.b, wf, status, {});
    SelectPair(c.a, c.b, ReadySet(wf, status, {}));
  }

  lemma QueuesBoth(c: Case, clock: nat, calls: multiset<Call>)
    requires c.a != c.b
    ensures var s := At(c, Pending, Pending, 0, [], clock, Idling(c), calls);
            && WF(s)
            && QueueAll(s, [c.a, c.b]) ==
               At(c, Queued, Queued, 0, [Entry(c, c.a, clock), Entry(c, c.b, clock + 1)], clock + 2, Idling(c), calls)
  {
    var s := At(c, Pending, Pending, 0, [], clock, Idling(c), calls);
    AtWF(c, Pending, Pending, 0, [], clock, Idling(c), calls);
    BothUpdate(c, Pending, Pending, Queued);
    BothUpdate(c, Queued, Pending, Queued);
    QueueTwo(s, c.a, c.b);
  }

  lemma CreatedIndependent(c: Case, clock: nat)
    requires Independent(c)
    ensures CreatedProperly(c)
    ensures Created(CaseWorkflow(c), [Idling(c)], clock) == CreatedBoth(c, clock)
  {
    CaseIsProper(c);
    FreshCase(c, clock);
    BothOutstanding(c);
    QueuesBoth(c, clock, multiset{});
    OneFreeCall(c);
  }

  lemma QueueTwo(s: State, a: NodeId, b: NodeId)
    requires WF(s) && a != b && CanMove(s, a, Queued) && CanMove(s, b, Queued)
    ensures QueueAll(s, [a, b]) == QueueNode(QueueNode(s, a), b)
  {
    var t := QueueNode(s, a);
    assert [a, b][1..] == [b] && [b][1..] == [];
    assert QueueAll(t, [b]) == QueueAll(QueueNode(t, b), []);
  }

  lemma QueueOne(s: State, a: NodeId)
    requires WF(s) && CanMove(s, a, Queued)
    ensures QueueAll(s, [a]) == QueueNode(s, a)
  {
    assert [a][1..] == [];
  }

  /** The state after the creation of two tasks of which the second waits for the first. */
  function CreatedFirst(c: Case, clock: nat): State {
    At(c, Queued, Pending, 0, [Entry(c, c.a, clock)], clock + 1, Idling(c), multiset{ForFreeWorker(c.name)})
  }

  lemma CreatedInOrder(c: Case, clock: nat)
    requires InOrder(c)
    ensures CreatedProperly(c)
    ensures Created(CaseWorkflow(c), [Idling(c)], clock) == CreatedFirst(c, clock)
  {
    var s := At(c, Pending, Pending, 0, [], clock, Idling(c), multiset{});
    AtWF(c, Pending, Pending, 0, [], clock, Idling(c), multiset{});
    CaseIsProper(c);
    FreshCase(c, clock);
    SelectPair(c.a, c.b, ReadySet(s.wf, s.status, {}));
    var e := c.edges[0];
    assert e in c.edges && !Satisfied(e, s.status, {});
    assert Outstanding(s.wf, s.status, {}) == [c.a];
    BothUpdate(c, Pending, Pending, Queued);
    QueueOne(s, c.a);
    OneFreeCall(c);
  }

  // ---------------------------------------------------------------- single steps

  /** The worker is handed the head of the queue. */
  lemma HandOut(c: Case, x: DagNodeStatus, y: DagNodeStatus, failures: nat, queue: seq<QueuedTask>, clock: nat,
                n: NodeId)
    requires c.a != c.b && queue != [] && queue[MinIndex(queue)].nodeId == n
    ensures var s := At(c, x, y, failures, queue, clock, Idling(c), multiset{ForFreeWorker(c.name)});
            && WF(s)
            && Step(s, Perform(ForFreeWorker(c.name))) ==
               At(c, x, y, failures, RemoveAt(queue, MinIndex(queue)), clock, WorkingOn(c, n), multiset{})
  {
    var call := ForFreeWorker(c.name);
    var s := At(c, x, y, failures, queue, clock, Idling(c), multiset{call});
    AtWF(c, x, y, failures, queue, clock, Idling(c), multiset{call});
    PerformRuns(s, call);
    assert multiset{call} - multiset{call} == multiset{};
    assert FindWorker(s.workers, c.name) == 0;
  }

  function Holding(c: Case, n: NodeId, held: seq<QueuedTask>): Worker {
    Worker(c.name, Online, Some(n), held)
  }

  /** Nothing is offered while both tasks have left Pending. */
  lemma NothingOffered(c: Case, x: DagNodeStatus, y: DagNodeStatus, queue: seq<QueuedTask>, clock: nat, worker: Worker,
                       calls: multiset<Call>)
    requires c.a != c.b && y != Pending
    ensures LookAhead(At(c, x, y, 0, queue, clock, worker, calls), c.a) == []
  {
    var s := At(c, x, y, 0, queue, clock, worker, calls);
    var ready := ReadySet(s.wf, s.status[c.a := Succeeded], s.published + ToSet(c.task.results));
    assert c.a !in ready && c.b !in ready;
    SelectPair(c.a, c.b, ready);
  }

  lemma OnlyEntry(entry: QueuedTask)
    ensures MinIndex([entry]) == 0 && RemoveAt([entry], 0) == []
  {
    assert RemoveAt([entry], 0) == [entry][..0] + [entry][1..];
    assert [entry][..0] == [] && [entry][1..] == [];
  }

  lemma RequestRuns(s: State, w: string, i: nat, preferred: seq<NodeId>)
    requires WF(s) && HoldAccepted(s, w) && i == FindWorker(s.workers, w) && preferred == Preferred(s, w)
    ensures Step(s, HoldRequest(w)) == PutOnHold(s, i, preferred, HOLD_ATTEMPTS)
  {
    assert Step(s, HoldRequest(w)) == HoldRequested(s, w);
  }

  lemma PushesOnly(c: Case, entry: QueuedTask, x: DagNodeStatus, y: DagNodeStatus, failures: nat,
                   queue: seq<QueuedTask>, clock: nat, calls: multiset<Call>)
    requires c.a != c.b
    ensures var s := At(c, x, y, failures, queue, clock, WorkingOn(c, c.a), calls);
            WF(s) && PushHold(s, 0, entry) == At(c, x, y, failures, queue, clock, Holding(c, c.a, [entry]), calls)
  {
    AtWF(c, x, y, failures, queue, clock, WorkingOn(c, c.a), calls);
    assert [WorkingOn(c, c.a)][0 := Holding(c, c.a, [entry])] == [Holding(c, c.a, [entry])];
    assert WorkingOn(c, c.a).nodesOnHold + [entry] == [entry];
  }

  /** The only entry of the queue is put on hold. */
  lemma HoldOnly(c: Case, time: nat, clock: nat, calls: multiset<Call>)
    requires c.a != c.b
    ensures var s := At(c, Queued, Queued, 0, [Entry(c, c.b, time)], clock, WorkingOn(c, c.a), calls);
            && WF(s)
            && Step(s, HoldRequest(c.name)) ==
               At(c, Queued, OnHold, 0, [], clock, Holding(c, c.a, [Entry(c, c.b, time)]), calls)
  {
    var entry := Entry(c, c.b, time);
    var s := At(c, Queued, Queued, 0, [entry], clock, WorkingOn(c, c.a), calls);
    AtWF(c, Queued, Queued, 0, [entry], clock, WorkingOn(c, c.a), calls);
    NothingOffered(c, Queued, Queued, [entry], clock, WorkingOn(c, c.a), calls);
    assert FindWorker(s.workers, c.name) == 0;
    RequestRuns(s, c.name, 0, []);
    OnlyEntry(entry);
    var rest := s.(queue := []);
    assert HoldCandidate(s, []) == (rest, Some(entry));
    HeldAtOnce(s, 0, [], HOLD_ATTEMPTS);
    BothUpdate(c, Queued, Queued, OnHold);
    PushesOnly(c, entry, Queued, OnHold, 0, [], clock, calls);
  }

  /** The first attempt puts the candidate on hold. */
  lemma HeldAtOnce(s: State, i: nat, preferred: seq<NodeId>, attempts: nat)
    requires WF(s) && i < |s.workers| && attempts > 0
    requires var (rest, task) := HoldCandidate(s, preferred); task.Some? && CanMove(rest, task.value.nodeId, OnHold)
    ensures var (rest, task) := HoldCandidate(s, preferred);
            PutOnHold(s, i, preferred, attempts) == PushHold(Mark(rest, task.value.nodeId, OnHold), i, task.value)
  {}

  /** The worker goes stale and comes back. */
  lemma GoesAndReturns(c: Case, x: DagNodeStatus, y: DagNodeStatus, queue: seq<QueuedTask>, clock: nat,
                       held: seq<QueuedTask>)
    requires c.a != c.b
    ensures var s := At(c, x, y, 0, queue, clock, Holding(c, c.a, held), multiset{});
            && WF(s)
            && Step(Step(s, GoesStale(c.name)), Beat(c.name)) ==
               At(c, x, y, 0, queue, clock, Holding(c, c.a, held), multiset{RequeueHeld(c.name), ForFreeWorker(c.name)})
  {
    var s := At(c, x, y, 0, queue, clock, Holding(c, c.a, held), multiset{});
    AtWF(c, x, y, 0, queue, clock, Holding(c, c.a, held), multiset{});
    assert FindWorker(s.workers, c.name) == 0;
    var stale := Step(s, GoesStale(c.name));
    assert stale == s.(workers := [Worker(c.name, Stale, Some(c.a), held)], calls := multiset{RequeueHeld(c.name)});
    assert FindWorker(stale.workers, c.name) == 0;
  }

  /** A worker with work cannot take its task on hold, which goes back to the queue as it is. */
  lemma HeldToQueue(c: Case, x: DagNodeStatus, y: DagNodeStatus, clock: nat, time: nat)
    requires c.a != c.b
    ensures var s := At(c, x, y, 0, [], clock, Holding(c, c.a, [Entry(c, c.b, time)]),
                        multiset{RequeueHeld(c.name), ForFreeWorker(c.name)});
            && WF(s)
            && Step(s, Perform(ForFreeWorker(c.name))) ==
               At(c, x, y, 0, [Entry(c, c.b, clock)], clock + 1, WorkingOn(c, c.a), multiset{RequeueHeld(c.name)})
  {
    var (call, worker) := (ForFreeWorker(c.name), Holding(c, c.a, [Entry(c, c.b, time)]));
    var calls := multiset{RequeueHeld(c.name), call};
    var s := At(c, x, y, 0, [], clock, worker, calls);
    AtWF(c, x, y, 0, [], clock, worker, calls);
    PerformRuns(s, call);
    assert calls - multiset{call} == multiset{RequeueHeld(c.name)};
    assert FindWorker(s.workers, c.name) == 0;
    assert worker.nodesOnHold[1..] == [];
  }

  /** A task on hold at the head of the queue cannot be put on hold again: it is taken out and
      nothing is left to hold. */
  lemma HoldDrops(c: Case, time: nat, clock: nat, calls: multiset<Call>)
    requires c.a != c.b
    ensures var s := At(c, Queued, OnHold, 0, [Entry(c, c.b, time)], clock, WorkingOn(c, c.a), calls);
            && WF(s)
            && Step(s, HoldRequest(c.name)) == At(c, Queued, OnHold, 0, [], clock, WorkingOn(c, c.a), calls)
  {
    var s := At(c, Queued, OnHold, 0, [Entry(c, c.b, time)], clock, WorkingOn(c, c.a), calls);
    AtWF(c, Queued, OnHold, 0, [Entry(c, c.b, time)], clock, WorkingOn(c, c.a), calls);
    NothingOffered(c, Queued, OnHold, [Entry(c, c.b, time)], clock, WorkingOn(c, c.a), calls);
    assert FindWorker(s.workers, c.name) == 0;
    RequestRuns(s, c.name, 0, []);
    OnlyEntry(Entry(c, c.b, time));
    assert HoldCandidate(s, []) == (s.(queue := []), Some(Entry(c, c.b, time)));
    Drops(s, 0, HOLD_ATTEMPTS);
  }

  lemma Drops(s: State, i: nat, attempts: nat)
    requires WF(s) && i < |s.workers| && attempts > 0
    requires var (rest, task) := HoldCandidate(s, []);
             rest == s.(queue := []) && task.Some? && !CanMove(rest, task.value.nodeId, OnHold)
    ensures PutOnHold(s, i, [], attempts) == s.(queue := [])
  {
    NothingToHold(s.(queue := []), i, attempts - 1);
  }

  lemma {:induction false} NothingToHold(s: State, i: nat, attempts: nat)
    requires WF(s) && i < |s.workers| && s.queue == []
    ensures PutOnHold(s, i, [], attempts) == s
  {
    if attempts > 0 { NothingToHold(s, i, attempts - 1); }
  }

  // ---------------------------------------------------------------- runs

  /** The events are an honest run from one state to the other. */
  ghost predicate Reaches(s: State, es: seq<Event>, t: State) {
    WF(s) && HonestRun(s, es) && Exec(s, es) == t
  }

  lemma Extend(s: State, es: seq<Event>, t: State, e: Event, u: State) returns (next: seq<Event>)
    requires Reaches(s, es, t) && Honest(t, e) && Step(t, e) == u
    ensures Reaches(s, next, u)
  {
    next := es + [e];
    ExecConcat(s, es, [e]);
    OneEvent(t, e);
  }

  lemma ReportsHonestly(c: Case, x: DagNodeStatus, y: DagNodeStatus, failures: nat, queue: seq<QueuedTask>, clock: nat,
                        worker: Worker, calls: multiset<Call>, n: NodeId)
    requires worker.name == c.name && worker.workingOn == Some(n)
    ensures WorksOn(At(c, x, y, failures, queue, clock, worker, calls), c.name, n)
  {
    assert FindWorker([worker], c.name) == 0;
  }

  // ---------------------------------------------------------------- a lost task

  lemma FirstOfBoth(c: Case, time: nat)
    ensures var queue := [Entry(c, c.a, time), Entry(c, c.b, time + 1)];
            MinIndex(queue) == 0 && RemoveAt(queue, 0) == [Entry(c, c.b, time + 1)]
  {
    var queue := [Entry(c, c.a, time), Entry(c, c.b, time + 1)];
    assert Before(queue[0], queue[1]);
    assert RemoveAt(queue, 0) == queue[..0] + queue[1..];
  }

  function FirstAtWork(c: Case, clock: nat): State {
    At(c, Queued, Queued, 0, [Entry(c, c.b, clock + 1)], clock + 2, WorkingOn(c, c.a), multiset{})
  }

  /** The first of two independent tasks is handed out. */
  lemma FirstHandedOut(c: Case, clock: nat) returns (es: seq<Event>)
    requires Independent(c)
    ensures Reaches(CreatedBoth(c, clock), es, FirstAtWork(c, clock))
  {
    FirstOfBoth(c, clock);
    HandOut(c, Queued, Queued, 0, [Entry(c, c.a, clock), Entry(c, c.b, clock + 1)], clock + 2, c.a);
    es := [Perform(ForFreeWorker(c.name))];
    OneEvent(CreatedBoth(c, clock), es[0]);
  }

  function SecondHeld(c: Case, clock: nat): State {
    At(c, Queued, OnHold, 0, [], clock + 2, Holding(c, c.a, [Entry(c, c.b, clock + 1)]), multiset{})
  }

  /** A hold request puts the second on hold. */
  lemma HoldsSecond(s: State, es: seq<Event>, c: Case, clock: nat) returns (next: seq<Event>)
    requires Independent(c) && Reaches(s, es, FirstAtWork(c, clock))
    ensures Reaches(s, next, SecondHeld(c, clock))
  {
    HoldOnly(c, clock + 1, clock + 2, multiset{});
    next := Extend(s, es, FirstAtWork(c, clock), HoldRequest(c.name), SecondHeld(c, clock));
  }

  function Back(c: Case, clock: nat): State {
    At(c, Queued, OnHold, 0, [], clock + 2, Holding(c, c.a, [Entry(c, c.b, clock + 1)]),
       multiset{RequeueHeld(c.name), ForFreeWorker(c.name)})
  }

  /** The worker goes stale and sends a heartbeat again. */
  lemma ComesBack(s: State, es: seq<Event>, c: Case, clock: nat) returns (next: seq<Event>)
    requires Independent(c) && Reaches(s, es, SecondHeld(c, clock))
    ensures Reaches(s, next, Back(c, clock))
  {
    var held := SecondHeld(c, clock);
    GoesAndReturns(c, Queued, OnHold, [], clock + 2, [Entry(c, c.b, clock + 1)]);
    var gone := Step(held, GoesStale(c.name));
    next := Extend(s, es, held, GoesStale(c.name), gone);
    next := Extend(s, next, gone, Beat(c.name), Back(c, clock));
  }

  function Returned(c: Case, clock: nat): State {
    At(c, Queued, OnHold, 0, [Entry(c, c.b, clock + 2)], clock + 3, WorkingOn(c, c.a), multiset{RequeueHeld(c.name)})
  }

  /** The second task comes back to the queue, since the worker is busy. */
  lemma ComesToQueue(s: State, es: seq<Event>, c: Case, clock: nat) returns (next: seq<Event>)
    requires Independent(c) && Reaches(s, es, Back(c, clock))
    ensures Reaches(s, next, Returned(c, clock))
  {
    HeldToQueue(c, Queued, OnHold, clock + 2, clock + 1);
    next := Extend(s, es, Back(c, clock), Perform(ForFreeWorker(c.name)), Returned(c, clock));
  }

  lemma HeadDrops(c: Case, clock: nat)
    requires Independent(c)
    ensures DropsHead(Returned(c, clock), HoldRequest(c.name))
  {
    var t := Returned(c, clock);
    NothingOffered(c, Queued, OnHold, t.queue, clock + 3, WorkingOn(c, c.a), t.calls);
    assert FindWorker(t.workers, c.name) == 0;
  }

  lemma SecondIsDropped(c: Case, clock: nat)
    requires Independent(c)
    ensures WF(Returned(c, clock)) && IsDropped(Step(Returned(c, clock), HoldRequest(c.name)), c.b)
  {
    HoldDrops(c, clock + 2, clock + 3, multiset{RequeueHeld(c.name)});
  }

  /** A lost task: the second of two independent tasks is put on hold, its worker goes stale and
      comes back, the task is queued again, and the next hold request drops it. */
  lemma TaskIsLost(c: Case, clock: nat) returns (es: seq<Event>, e: Event)
    requires Independent(c)
    ensures CreatedProperly(c)
    ensures var s := Created(CaseWorkflow(c), [Idling(c)], clock);
            && HonestRun(s, es) && Honest(Exec(s, es), e) && DropsHead(Exec(s, es), e)
            && IsDropped(Step(Exec(s, es), e), c.b)
  {
    CreatedIndependent(c, clock);
    var s := CreatedBoth(c, clock);
    es := FirstHandedOut(c, clock);
    es := HoldsSecond(s, es, c, clock);
    es := ComesBack(s, es, c, clock);
    es := ComesToQueue(s, es, c, clock);
    e := HoldRequest(c.name);
    HeadDrops(c, clock);
    SecondIsDropped(c, clock);
  }

  // ---------------------------------------------------------------- a stranded worker

  lemma StartsFirst(c: Case, y: DagNodeStatus, queue: seq<QueuedTask>, clock: nat, worker: Worker)
    requires c.a != c.b && worker.name == c.name && worker.workingOn == Some(c.a)
    ensures var (s, e) := (At(c, Queued, y, 0, queue, clock, worker, multiset{}), Started(c.name, c.a));
            WF(s) && Honest(s, e) && Step(s, e) == At(c, Running, y, 0, queue, clock, worker, multiset{})
  {
    AtWF(c, Queued, y, 0, queue, clock, worker, multiset{});
    ReportsHonestly(c, Queued, y, 0, queue, clock, worker, multiset{}, c.a);
    BothUpdate(c, Queued, y, Running);
    StartRuns(At(c, Queued, y, 0, queue, clock, worker, multiset{}), c.name, c.a);
  }

  lemma StartRuns(s: State, w: string, n: NodeId)
    requires WF(s) && CanMove(s, n, Running)
    ensures Step(s, Started(w, n)) == Mark(s, n, Running)
  {}

  lemma NothingOutstanding(c: Case, x: DagNodeStatus, y: DagNodeStatus, published: set<ArtifactId>)
    requires c.a != c.b && x != Pending && y != Pending
    ensures Outstanding(CaseWorkflow(c), Both(c, x, y), published) == []
  {
    SelectPair(c.a, c.b, ReadySet(CaseWorkflow(c), Both(c, x, y), published));
  }

  lemma CompletesAlone(s: State, n: NodeId)
    requires WF(s) && CanMove(s, n, Succeeded) && Outstanding(s.wf, s.status[n := Succeeded], s.published) == []
    ensures TaskCompleted(s, n) == s.(status := s.status[n := Succeeded], calls := s.calls + multiset{AfterNode(n)})
  {}

  lemma CompletesFirst(c: Case, queue: seq<QueuedTask>, clock: nat)
    requires c.a != c.b
    ensures var (s, e) :=
              (At(c, Running, Queued, 0, queue, clock, WorkingOn(c, c.a), multiset{}), Completed(c.name, c.a));
            && WF(s) && Honest(s, e)
            && Step(s, e) == At(c, Succeeded, Queued, 0, queue, clock, WorkingOn(c, c.a), multiset{AfterNode(c.a)})
  {
    AtWF(c, Running, Queued, 0, queue, clock, WorkingOn(c, c.a), multiset{});
    ReportsHonestly(c, Running, Queued, 0, queue, clock, WorkingOn(c, c.a), multiset{}, c.a);
    BothUpdate(c, Running, Queued, Succeeded);
    NothingOutstanding(c, Succeeded, Queued, {});
    CompletesAlone(At(c, Running, Queued, 0, queue, clock, WorkingOn(c, c.a), multiset{}), c.a);
  }

  function FirstDone(c: Case, clock: nat, status: WorkerStatus, calls: multiset<Call>): State {
    At(c, Succeeded, Queued, 0, [Entry(c, c.b, clock + 1)], clock + 2, Worker(c.name, status, Some(c.a), []), calls)
  }

  /** The first task is started and completed. */
  lemma FinishesFirst(s: State, es: seq<Event>, c: Case, clock: nat) returns (next: seq<Event>)
    requires Independent(c) && Reaches(s, es, FirstAtWork(c, clock))
    ensures Reaches(s, next, FirstDone(c, clock, Online, multiset{AfterNode(c.a)}))
  {
    var queue := [Entry(c, c.b, clock + 1)];
    var running := At(c, Running, Queued, 0, queue, clock + 2, WorkingOn(c, c.a), multiset{});
    StartsFirst(c, Queued, queue, clock + 2, WorkingOn(c, c.a));
    next := Extend(s, es, FirstAtWork(c, clock), Started(c.name, c.a), running);
    CompletesFirst(c, queue, clock + 2);
    next := Extend(s, next, running, Completed(c.name, c.a), FirstDone(c, clock, Online, multiset{AfterNode(c.a)}));
  }

  lemma GoesAfterDone(c: Case, clock: nat)
    requires c.a != c.b
    ensures var s := FirstDone(c, clock, Online, multiset{AfterNode(c.a)});
            && WF(s)
            && Step(s, GoesStale(c.name)) == FirstDone(c, clock, Stale, multiset{AfterNode(c.a), RequeueHeld(c.name)})
  {
    var s := FirstDone(c, clock, Online, multiset{AfterNode(c.a)});
    AtWF(c, Succeeded, Queued, 0, s.queue, s.clock, s.workers[0], s.calls);
    assert FindWorker(s.workers, c.name) == 0;
    assert s.workers[0 := Worker(c.name, Stale, Some(c.a), [])] == [Worker(c.name, Stale, Some(c.a), [])];
  }

  lemma Strands(c: Case, clock: nat)
    requires c.a != c.b
    ensures var s := FirstDone(c, clock, Stale, multiset{AfterNode(c.a), RequeueHeld(c.name)});
            WF(s) && Stranded(Step(s, Perform(AfterNode(c.a))), 0, c.a)
  {
    var call := AfterNode(c.a);
    var s := FirstDone(c, clock, Stale, multiset{call, RequeueHeld(c.name)});
    AtWF(c, Succeeded, Queued, 0, s.queue, s.clock, s.workers[0], s.calls);
    PerformRuns(s, call);
    assert FindWorkingOn(s.workers, c.a) == 0;
  }

  /** A worker is stranded that goes stale when its task is done and comes back too late. */
  lemma WorkerIsStranded(c: Case, clock: nat) returns (es: seq<Event>)
    requires Independent(c)
    ensures CreatedProperly(c)
    ensures var s := Created(CaseWorkflow(c), [Idling(c)], clock); HonestRun(s, es) && Stranded(Exec(s, es), 0, c.a)
  {
    CreatedIndependent(c, clock);
    var s := CreatedBoth(c, clock);
    es := FirstHandedOut(c, clock);
    es := FinishesFirst(s, es, c, clock);
    var done := FirstDone(c, clock, Online, multiset{AfterNode(c.a)});
    var gone := FirstDone(c, clock, Stale, multiset{AfterNode(c.a), RequeueHeld(c.name)});
    GoesAfterDone(c, clock);
    es := Extend(s, es, done, GoesStale(c.name), gone);
    Strands(c, clock);
    es := Extend(s, es, gone, Perform(AfterNode(c.a)), Step(gone, Perform(AfterNode(c.a))));
  }

  // ---------------------------------------------------------------- a task that is never started

  lemma FirstIsUnstarted(c: Case, clock: nat)
    requires Independent(c)
    ensures Unstarted(FirstAtWork(c, clock), 0, c.a, Queued)
  {}

  /** A task that was handed out and not reported as started. */
  lemma TaskIsUnstarted(c: Case, clock: nat) returns (es: seq<Event>)
    requires Independent(c)
    ensures CreatedProperly(c)
    ensures var s := Created(CaseWorkflow(c), [Idling(c)], clock);
            HonestRun(s, es) && Inv(Exec(s, es)) && Unstarted(Exec(s, es), 0, c.a, Queued)
  {
    CreatedIndependent(c, clock);
    CreatedInv(CaseWorkflow(c), [Idling(c)], clock);
    es := FirstHandedOut(c, clock);
    RunKeeps(CreatedBoth(c, clock), es);
    FirstIsUnstarted(c, clock);
  }

  // ---------------------------------------------------------------- an early start

  function FirstGiven(c: Case, clock: nat): State {
    At(c, Queued, Pending, 0, [], clock + 1, WorkingOn(c, c.a), multiset{})
  }

  lemma FirstGivenOut(c: Case, clock: nat) returns (es: seq<Event>)
    requires InOrder(c)
    ensures Reaches(CreatedFirst(c, clock), es, FirstGiven(c, clock))
  {
    OnlyEntry(Entry(c, c.a, clock));
    HandOut(c, Queued, Pending, 0, [Entry(c, c.a, clock)], clock + 1, c.a);
    es := [Perform(ForFreeWorker(c.name))];
    OneEvent(CreatedFirst(c, clock), es[0]);
  }

  /** While the first task is at work the look-ahead offers the second. */
  lemma SecondOffered(c: Case, clock: nat)
    requires InOrder(c)
    ensures LookAhead(FirstGiven(c, clock), c.a) == [c.b]
  {
    var (wf, status) := (CaseWorkflow(c), Both(c, Succeeded, Pending));
    BothUpdate(c, Queued, Pending, Succeeded);
    var published := {} + ToSet(c.task.results);
    assert IsReady(c.b, wf, status, published) && !IsReady(c.a, wf, status, published);
    SelectPair(c.a, c.b, ReadySet(wf, status, published));
  }

  function HeldEarly(c: Case, clock: nat, x: DagNodeStatus): State {
    At(c, x, OnHold, 0, [], clock + 1, Holding(c, c.a, [Entry(c, c.b, clock + 1)]), multiset{})
  }

  lemma HoldSecond(c: Case, clock: nat)
    requires InOrder(c)
    ensures var (s, e) := (FirstGiven(c, clock), HoldRequest(c.name));
            WF(s) && HoldsEarly(s, e) && Step(s, e) == HeldEarly(c, clock, Queued)
  {
    var s := FirstGiven(c, clock);
    AtWF(c, Queued, Pending, 0, [], clock + 1, WorkingOn(c, c.a), multiset{});
    SecondOffered(c, clock);
    assert FindWorker(s.workers, c.name) == 0;
    RequestRuns(s, c.name, 0, [c.b]);
    EarlyHoldResult(s, 0, [c.b]);
    BothUpdate(c, Queued, Pending, OnHold);
    PushesOnly(c, Entry(c, c.b, clock + 1), Queued, OnHold, 0, [], clock + 1, multiset{});
  }

  function Waiting(c: Case, held: seq<QueuedTask>): Worker {
    Worker(c.name, Online, None, held)
  }

  function FailedOnce(c: Case, clock: nat): State {
    At(c, Queued, OnHold, 1, [Entry(c, c.a, clock + 1)], clock + 2, Waiting(c, [Entry(c, c.b, clock + 1)]),
       multiset{ForFreeWorker(c.name)})
  }

  lemma Frees(c: Case, x: DagNodeStatus, y: DagNodeStatus, failures: nat, queue: seq<QueuedTask>, clock: nat,
              held: seq<QueuedTask>)
    requires c.a != c.b
    ensures var s := At(c, x, y, failures, queue, clock, Holding(c, c.a, held), multiset{});
            && WF(s)
            && ClearWorkOn(s, c.a) == At(c, x, y, failures, queue, clock, Waiting(c, held), multiset{})
            && FreeWorkerCalls([Waiting(c, held)]) == multiset{ForFreeWorker(c.name)}
  {
    AtWF(c, x, y, failures, queue, clock, Holding(c, c.a, held), multiset{});
    assert FindWorkingOn([Holding(c, c.a, held)], c.a) == 0;
    assert [Holding(c, c.a, held)][0 := Waiting(c, held)] == [Waiting(c, held)];
    assert [Waiting(c, held)][1..] == [];
  }

  lemma CountsFailure(c: Case, clock: nat)
    requires InOrder(c)
    ensures var (s, held) := (HeldEarly(c, clock, Running), [Entry(c, c.b, clock + 1)]);
            && WF(s) && CanMove(s, c.a, Failed) && !Exhausted(MarkFailed(s, c.a), c.a)
            && QueueNode(MarkFailed(s, c.a), c.a) ==
               At(c, Queued, OnHold, 1, [Entry(c, c.a, clock + 1)], clock + 2, Holding(c, c.a, held), multiset{})
  {
    var s := HeldEarly(c, clock, Running);
    AtWF(c, Running, OnHold, 0, [], clock + 1, s.workers[0], multiset{});
    BothUpdate(c, Running, OnHold, Failed);
    BothUpdate(c, Failed, OnHold, Queued);
    BothUpdate(c, 0, 0, 1);
  }

  /** The first task fails and waits in the queue for its second attempt. */
  lemma FailsOnce(c: Case, clock: nat)
    requires InOrder(c)
    ensures var (s, e) := (HeldEarly(c, clock, Running), FailedEvent(c.name, c.a));
            WF(s) && Honest(s, e) && Step(s, e) == FailedOnce(c, clock)
  {
    var s := HeldEarly(c, clock, Running);
    CountsFailure(c, clock);
    ReportsHonestly(c, Running, OnHold, 0, [], clock + 1, s.workers[0], multiset{}, c.a);
    RetriesWhenFailed(s, c.a);
    Frees(c, Queued, OnHold, 1, [Entry(c, c.a, clock + 1)], clock + 2, [Entry(c, c.b, clock + 1)]);
  }

  /** The state in which the second task, on hold and with an open dependency, is at the worker. */
  function HandedEarly(c: Case, clock: nat): State {
    At(c, Queued, OnHold, 1, [Entry(c, c.a, clock + 1)], clock + 2, WorkingOn(c, c.b), multiset{})
  }

  /** The worker's task on hold comes before the queue. */
  lemma HandsHeldOut(c: Case, clock: nat)
    requires c.a != c.b
    ensures WF(FailedOnce(c, clock))
            && Step(FailedOnce(c, clock), Perform(ForFreeWorker(c.name))) == HandedEarly(c, clock)
  {
    var call := ForFreeWorker(c.name);
    var s := FailedOnce(c, clock);
    AtWF(c, Queued, OnHold, 1, s.queue, s.clock, s.workers[0], multiset{call});
    PerformRuns(s, call);
    assert multiset{call} - multiset{call} == multiset{};
    assert FindWorker(s.workers, c.name) == 0;
    assert s.workers[0].nodesOnHold[1..] == [];
  }

  /** The first task is started, fails, and the worker gets the second. */
  lemma ReachesHandedEarly(s: State, es: seq<Event>, c: Case, clock: nat) returns (next: seq<Event>)
    requires InOrder(c) && Reaches(s, es, HeldEarly(c, clock, Queued))
    ensures Reaches(s, next, HandedEarly(c, clock))
  {
    StartsFirst(c, OnHold, [], clock + 1, Holding(c, c.a, [Entry(c, c.b, clock + 1)]));
    next := Extend(s, es, HeldEarly(c, clock, Queued), Started(c.name, c.a), HeldEarly(c, clock, Running));
    FailsOnce(c, clock);
    next := Extend(s, next, HeldEarly(c, clock, Running), FailedEvent(c.name, c.a), FailedOnce(c, clock));
    HandsHeldOut(c, clock);
    next := Extend(s, next, FailedOnce(c, clock), Perform(ForFreeWorker(c.name)), HandedEarly(c, clock));
  }

  lemma StartsUnmet(c: Case, clock: nat)
    requires InOrder(c)
    ensures var (t, e) := (HandedEarly(c, clock), Started(c.name, c.b));
            && WF(t) && Honest(t, e) && StartsEarly(t, e)
            && Step(t, e).status[c.b] == Running && Step(t, e).status[c.a] != Succeeded
  {
    var t := HandedEarly(c, clock);
    AtWF(c, Queued, OnHold, 1, t.queue, t.clock, WorkingOn(c, c.b), multiset{});
    ReportsHonestly(c, Queued, OnHold, 1, t.queue, t.clock, WorkingOn(c, c.b), multiset{}, c.b);
    var e := c.edges[0];
    assert e in c.edges && !Satisfied(e, t.status, {});
  }

  /** An early start: of two tasks in order the second is put on hold by look-ahead, the first
      fails, and the second is handed to the worker and started. */
  lemma TaskStartsEarly(c: Case, clock: nat) returns (es: seq<Event>, e: Event)
    requires InOrder(c)
    ensures CreatedProperly(c)
    ensures var s := Created(CaseWorkflow(c), [Idling(c)], clock);
            && HonestRun(s, es) && StartsEarly(Exec(s, es), e) && Honest(Exec(s, es), e)
            && var t := Step(Exec(s, es), e);
            t.status[c.b] == Running && t.status[c.a] != Succeeded && !DependenciesMet(t, {})
  {
    CreatedInOrder(c, clock);
    CreatedInv(CaseWorkflow(c), [Idling(c)], clock);
    var s := CreatedFirst(c, clock);
    es := FirstGivenOut(c, clock);
    HoldSecond(c, clock);
    es := Extend(s, es, FirstGiven(c, clock), HoldRequest(c.name), HeldEarly(c, clock, Queued));
    es := ReachesHandedEarly(s, es, c, clock);
    e := Started(c.name, c.b);
    RunKeeps(s, es);
    StartsUnmet(c, clock);
    EarlyStartBreaks(HandedEarly(c, clock), e);
  }

  /** Before that the hold request lets the second task through while its dependency is open. */
  lemma TaskIsHeldEarly(c: Case, clock: nat) returns (es: seq<Event>, e: Event)
    requires InOrder(c)
    ensures CreatedProperly(c)
    ensures var s := Created(CaseWorkflow(c), [Idling(c)], clock); HonestRun(s, es) && HoldsEarly(Exec(s, es), e)
  {
    CreatedInOrder(c, clock);
    es := FirstGivenOut(c, clock);
    HoldSecond(c, clock);
    e := HoldRequest(c.name);
  }
}
