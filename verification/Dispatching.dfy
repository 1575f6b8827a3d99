/** Which task a worker gets, when it is offered one, and which task is put on hold: told from
    the workers, the queue and the clock alone. */
module Dispatching {
  import opened WorkflowTypes
  import opened SchedulerModel
  import opened NodeMachine
  import opened Placement
  import opened TaskQueueOrder

  // ---------------------------------------------------------------- handing out

  /** Nothing in the queue has a smaller priority, or the same and an earlier time; among equals
      the entry is the first. */
  ghost predicate IsHead(q: seq<QueuedTask>, k: nat) {
    && k < |q|
    && (forall j :: 0 <= j < |q| ==>
          || q[k].task.priority < q[j].task.priority
          || (q[k].task.priority == q[j].task.priority && q[k].addedAt <= q[j].addedAt))
    && (forall j :: 0 <= j < k ==>
          q[k].task.priority < q[j].task.priority || q[k].addedAt < q[j].addedAt)
  }

  lemma MinIsHead(q: seq<QueuedTask>)
    requires q != []
    ensures IsHead(q, MinIndex(q))
  {
    var k := MinIndex(q);
    forall j | 0 <= j < |q|
      ensures q[k].task.priority < q[j].task.priority ||
              (q[k].task.priority == q[j].task.priority && q[k].addedAt <= q[j].addedAt)
    {
      assert !Before(q[j], q[k]);
    }
  }

  /** The queue without its head, which is an entry of the node. */
  ghost predicate HeadTaken(q: seq<QueuedTask>, rest: seq<QueuedTask>, n: NodeId) {
    exists k: nat :: IsHead(q, k) && q[k].nodeId == n && rest == q[..k] + q[k + 1..]
  }

  /** Only worker `i`, the queue, the clock and the taken call differ. */
  ghost predicate OnlyWorker(s: State, t: State, i: nat, call: Call) {
    && i < |s.workers| == |t.workers|
    && (forall j :: 0 <= j < |s.workers| && j != i ==> t.workers[j] == s.workers[j])
    && t == s.(workers := t.workers, queue := t.queue, clock := t.clock, calls := s.calls - multiset{call})
  }

  /** Worker `i` works on its first task on hold, else on the head of the queue; what it works on
      is taken from where it was.  If there is neither, it has no work. */
  ghost predicate WorksOnNext(s: State, t: State, i: nat)
    requires i < |s.workers| == |t.workers|
  {
    var (before, after) := (s.workers[i], t.workers[i]);
    && after.name == before.name && after.status == before.status
    && if before.nodesOnHold != [] then
         && after.workingOn == Some(before.nodesOnHold[0].nodeId)
         && after.nodesOnHold == before.nodesOnHold[1..] && t.queue == s.queue
       else if s.queue != [] then
         && after.workingOn.Some? && after.nodesOnHold == []
         && HeadTaken(s.queue, t.queue, after.workingOn.value)
       else
         after.workingOn.None? && after.nodesOnHold == [] && t.queue == s.queue
  }

  lemma NextTaken(s: State, i: nat)
    requires WF(s) && i < |s.workers|
    ensures var (taken, task) := NextTask(s, i);
            && (forall j :: 0 <= j < |s.workers| && j != i ==> taken.workers[j] == s.workers[j])
            && (task.None? <==> s.workers[i].nodesOnHold == [] && s.queue == [])
            && (s.workers[i].nodesOnHold != [] ==> task == Some(s.workers[i].nodesOnHold[0]) && taken.queue == s.queue)
            && (s.workers[i].nodesOnHold == [] && s.queue != [] ==> HeadTaken(s.queue, taken.queue, task.value.nodeId))
  {
    if s.queue != [] { MinIsHead(s.queue); }
  }

  /** The online worker of a node that is followed up gets the next task at once, or is free. */
  lemma FollowUpHandsOut(s: State, i: nat, n: NodeId)
    requires Inv(s) && AfterNode(n) in s.calls
    requires i < |s.workers| && s.workers[i].workingOn == Some(n) && s.workers[i].status == Online
    ensures var t := Step(s, Perform(AfterNode(n)));
            OnlyWorker(s, t, i, AfterNode(n)) && t.clock == s.clock && WorksOnNext(s, t, i)
  {
    var call := AfterNode(n);
    PerformRuns(s, call);
    OnlyThere(s, i, n);
    NextTaken(TakeCall(s, call), i);
  }

  /** The follow-up of a node whose worker is not online, or that no worker has, does nothing. */
  lemma FollowUpIgnored(s: State, n: NodeId)
    requires Inv(s) && AfterNode(n) in s.calls
    requires forall i :: 0 <= i < |s.workers| && s.workers[i].workingOn == Some(n) ==> s.workers[i].status != Online
    ensures Step(s, Perform(AfterNode(n))) == s.(calls := s.calls - multiset{AfterNode(n)})
  {
    PerformRuns(s, AfterNode(n));
  }

  /** Number `i` is the first worker of its name. */
  ghost predicate IsNamed(ws: seq<Worker>, i: nat, w: string) {
    i < |ws| && ws[i].name == w && forall j :: 0 <= j < i ==> ws[j].name != w
  }

  lemma NamedFound(ws: seq<Worker>, i: nat, w: string)
    requires IsNamed(ws, i, w)
    ensures FindWorker(ws, w) == i
  {}

  /** A worker without work that is offered some gets the next task, or stays free. */
  lemma FreeWorkerGetsNext(s: State, i: nat, w: string)
    requires WF(s) && ForFreeWorker(w) in s.calls
    requires IsNamed(s.workers, i, w) && s.workers[i].workingOn.None?
    ensures var t := Step(s, Perform(ForFreeWorker(w)));
            OnlyWorker(s, t, i, ForFreeWorker(w)) && t.clock == s.clock && WorksOnNext(s, t, i)
  {
    var call := ForFreeWorker(w);
    PerformRuns(s, call);
    NamedFound(s.workers, i, w);
    NextTaken(TakeCall(s, call), i);
  }

  /** A worker that has work keeps it, and the task that was taken for it comes to the end of the
      queue with a new time. */
  ghost predicate NextRequeued(s: State, t: State, i: nat)
    requires i < |s.workers| == |t.workers|
  {
    var (before, after) := (s.workers[i], t.workers[i]);
    if before.nodesOnHold != [] then
      && after == before.(nodesOnHold := before.nodesOnHold[1..])
      && Requeued(s, t, s.queue, before.nodesOnHold[0].nodeId)
    else
      && after == before
      && if s.queue == [] then t.queue == [] && t.clock == s.clock
         else exists k: nat :: IsHead(s.queue, k) && Requeued(s, t, s.queue[..k] + s.queue[k + 1..], s.queue[k].nodeId)
  }

  ghost predicate Requeued(s: State, t: State, rest: seq<QueuedTask>, n: NodeId) {
    if n in s.wf.nodes
    then t.queue == rest + [QueuedTask(n, s.wf.nodes[n].task, s.clock)] && t.clock == s.clock + 1
    else t.queue == rest && t.clock == s.clock
  }

  lemma BusyWorkerRequeues(s: State, i: nat, w: string)
    requires WF(s) && ForFreeWorker(w) in s.calls
    requires IsNamed(s.workers, i, w) && s.workers[i].workingOn.Some?
    ensures var t := Step(s, Perform(ForFreeWorker(w))); OnlyWorker(s, t, i, ForFreeWorker(w)) && NextRequeued(s, t, i)
  {
    var call := ForFreeWorker(w);
    PerformRuns(s, call);
    NamedFound(s.workers, i, w);
    NextTaken(TakeCall(s, call), i);
  }

  // ---------------------------------------------------------------- heartbeats

  /** A heartbeat brings the worker online, or registers it without work. */
  lemma BeatBringsOnline(s: State, w: string)
    requires WF(s)
    ensures var t := Step(s, Beat(w));
            && t == s.(workers := t.workers, calls := t.calls)
            && ((forall i :: 0 <= i < |s.workers| ==> s.workers[i].name != w) ==>
                  t.workers == s.workers + [Worker(w, Online, None, [])])
            && (forall i: nat :: IsNamed(s.workers, i, w) ==>
                  t.workers == s.workers[i := Worker(w, Online, s.workers[i].workingOn, s.workers[i].nodesOnHold)])
  {
    forall i: nat | IsNamed(s.workers, i, w) { NamedFound(s.workers, i, w); }
  }

  /** A heartbeat offers the worker work exactly if it is new, was stale or has no work. */
  lemma BeatOffersWork(s: State, w: string)
    requires WF(s)
    ensures var offered := forall i: nat :: IsNamed(s.workers, i, w) ==>
                             s.workers[i].status == Stale || s.workers[i].workingOn.None?;
            Step(s, Beat(w)).calls == if offered then s.calls + multiset{ForFreeWorker(w)} else s.calls
  {
    var k := FindWorker(s.workers, w);
    if k < |s.workers| { assert IsNamed(s.workers, k, w); }
    forall i: nat | IsNamed(s.workers, i, w) ensures i == k { NamedFound(s.workers, i, w); }
  }

  /** The heartbeat of an idle online worker, and the call that it starts, give the worker the next
      task, if there is any. */
  lemma IdleBeatBringsWork(s: State, i: nat, w: string)
    requires WF(s) && IsNamed(s.workers, i, w)
    requires s.workers[i].status == Online && s.workers[i].workingOn.None?
    ensures var t := Step(Step(s, Beat(w)), Perform(ForFreeWorker(w)));
            && |t.workers| == |s.workers| && WorksOnNext(s, t, i)
            && (s.queue != [] || s.workers[i].nodesOnHold != [] ==> t.workers[i].workingOn.Some?)
  {
    var beaten := Step(s, Beat(w));
    BeatBringsOnline(s, w);
    BeatOffersWork(s, w);
    assert beaten.workers == s.workers;
    FreeWorkerGetsNext(beaten, i, w);
  }

  /** A worker that becomes stale keeps its work and its tasks on hold, and a requeue is started. */
  lemma GoesStaleOnly(s: State, i: nat, w: string)
    requires WF(s) && IsNamed(s.workers, i, w)
    ensures var before := s.workers[i];
            Step(s, GoesStale(w)) ==
            s.(workers := s.workers[i := Worker(w, Stale, before.workingOn, before.nodesOnHold)],
               calls := s.calls + multiset{RequeueHeld(w)})
  {
    NamedFound(s.workers, i, w);
  }
}
