/** What each report does to the statuses of all nodes, to the queue, to the workers and to the
    open calls: told from the stored tasks and edges. */
module Reporting {
  import opened WorkflowTypes
  import opened SchedulerModel
  import opened NodeMachine
  import opened Placement
  import opened Frontier

  // ---------------------------------------------------------------- requirements

  /** The sources of the node's task edges have succeeded and its artifacts are published. */
  ghost predicate Met(wf: Workflow, n: NodeId, status: map<NodeId, DagNodeStatus>, published: set<ArtifactId>)
    requires n in wf.nodes
  {
    forall e :: e in wf.nodes[n].edges && e.toId == n ==>
      || (e.conditionType == TaskType && e.fromId in status && status[e.fromId] == Succeeded)
      || (e.conditionType == ArtifactType && e.artifactId.Some? && e.artifactId.value in published)
  }

  lemma MetIsAllMet(wf: Workflow, n: NodeId, status: map<NodeId, DagNodeStatus>, published: set<ArtifactId>)
    requires n in wf.nodes
    ensures Met(wf, n, status, published) <==> AllMet(n, wf.nodes[n].edges, status, published)
  {}

  lemma SameMet(wf: Workflow, n: NodeId, before: map<NodeId, DagNodeStatus>, after: map<NodeId, DagNodeStatus>,
                published: set<ArtifactId>)
    requires n in wf.nodes && before.Keys == after.Keys
    requires forall m :: m in before ==> (before[m] == Succeeded <==> after[m] == Succeeded)
    ensures Met(wf, n, before, published) <==> Met(wf, n, after, published)
  {}

  // ---------------------------------------------------------------- the queue

  ghost predicate BecameQueued(s: State, t: State, n: NodeId) {
    n in s.status && n in t.status && s.status[n] == Pending && t.status[n] == Queued
  }

  /** One node comes before the other in the document. */
  ghost predicate Earlier(order: seq<NodeId>, a: NodeId, b: NodeId) {
    exists p, q :: 0 <= p < q < |order| && order[p] == a && order[q] == b
  }

  /** The entries of the nodes, stamped one after the other. */
  function Stamped(wf: Workflow, ns: seq<NodeId>, clock: nat): (r: seq<QueuedTask>)
    requires forall n :: n in ns ==> n in wf.nodes
    ensures |r| == |ns|
    ensures forall j :: 0 <= j < |ns| ==> r[j] == QueuedTask(ns[j], wf.nodes[ns[j]].task, clock + j)
  {
    seq(|ns|, j requires 0 <= j < |ns| => assert ns[j] in ns; QueuedTask(ns[j], wf.nodes[ns[j]].task, clock + j))
  }

  ghost predicate InOrder(ns: seq<NodeId>, order: seq<NodeId>) {
    forall i, j :: 0 <= i < j < |ns| ==> Earlier(order, ns[i], ns[j])
  }

  /** The nodes are those that became Queued, in document order, and the queue grows by their
      entries. */
  ghost predicate Adds(s: State, t: State, ns: seq<NodeId>) {
    && (forall n :: n in ns ==> n in s.wf.nodes) && InOrder(ns, s.wf.order)
    && (forall n :: n in ns <==> BecameQueued(s, t, n))
    && t.queue == s.queue + Stamped(s.wf, ns, s.clock) && t.clock == s.clock + |ns|
  }

  ghost predicate QueuesNew(s: State, t: State) {
    exists ns :: Adds(s, t, ns)
  }

  lemma FirstStamped(wf: Workflow, ns: seq<NodeId>, clock: nat, next: nat)
    requires ns != [] && next == clock + 1 && forall n :: n in ns ==> n in wf.nodes
    ensures ns[0] in wf.nodes && forall n :: n in ns[1..] ==> n in wf.nodes
    ensures Stamped(wf, ns, clock) == [QueuedTask(ns[0], wf.nodes[ns[0]].task, clock)] + Stamped(wf, ns[1..], next)
  {
    assert ns[0] in ns;
  }

  lemma Joined(q: seq<QueuedTask>, entry: QueuedTask, rest: seq<QueuedTask>)
    ensures q + [entry] + rest == q + ([entry] + rest)
  {}

  lemma QueueFirst(s: State, ns: seq<NodeId>)
    requires WF(s) && ns != [] && ns[0] in s.status && s.status[ns[0]] == Pending
    ensures QueueAll(s, ns) == QueueAll(QueueNode(s, ns[0]), ns[1..])
    ensures var next := QueueNode(s, ns[0]);
            && ns[0] in s.wf.nodes && next.wf == s.wf && next.clock == s.clock + 1
            && next.queue == s.queue + [QueuedTask(ns[0], s.wf.nodes[ns[0]].task, s.clock)]
  {}

  lemma {:induction false} QueueAllEntries(s: State, ns: seq<NodeId>)
    requires WF(s) && Distinct(ns)
    requires forall n :: n in ns ==> n in s.status && s.status[n] == Pending
    ensures QueueAll(s, ns).queue == s.queue + Stamped(s.wf, ns, s.clock)
    ensures QueueAll(s, ns).clock == s.clock + |ns|
    decreases ns
  {
    if ns == [] {
      assert s.queue + Stamped(s.wf, [], s.clock) == s.queue;
    } else {
      var next := QueueNode(s, ns[0]);
      assert ns[0] in ns;
      RestPending(s, ns);
      QueueFirst(s, ns);
      FirstStamped(s.wf, ns, s.clock, next.clock);
      QueueAllEntries(next, ns[1..]);
      Joined(s.queue, QueuedTask(ns[0], s.wf.nodes[ns[0]].task, s.clock), Stamped(s.wf, ns[1..], next.clock));
    }
  }

  lemma EarlierBehind(order: seq<NodeId>, a: NodeId, b: NodeId)
    requires order != [] && Earlier(order[1..], a, b)
    ensures Earlier(order, a, b)
  {
    var p, q :| 0 <= p < q < |order[1..]| && order[1..][p] == a && order[1..][q] == b;
    assert order[p + 1] == a && order[q + 1] == b;
  }

  lemma HeadEarlier(order: seq<NodeId>, b: NodeId)
    requires order != [] && b in order[1..]
    ensures Earlier(order, order[0], b)
  {
    var q :| 0 <= q < |order[1..]| && order[1..][q] == b;
    assert order[q + 1] == b;
  }

  lemma {:induction false} SelectInOrder(order: seq<NodeId>, keep: set<NodeId>)
    ensures InOrder(Select(order, keep), order)
  {
    if order != [] {
      var rest := Select(order[1..], keep);
      SelectInOrder(order[1..], keep);
      forall i, j | 0 <= i < j < |rest| ensures Earlier(order, rest[i], rest[j]) {
        EarlierBehind(order, rest[i], rest[j]);
      }
      forall j | 0 <= j < |rest| ensures Earlier(order, order[0], rest[j]) {
        assert rest[j] in rest;
        HeadEarlier(order, rest[j]);
      }
    }
  }

  /** Queueing the outstanding nodes: exactly the Pending nodes whose requirements are met. */
  lemma OutstandingStatuses(s: State, n: NodeId)
    requires WF(s) && n in s.status
    ensures QueueOutstanding(s).status[n] ==
            if s.status[n] == Pending && Met(s.wf, n, s.status, s.published) then Queued else s.status[n]
  {
    QueueOutstandingEffect(s);
    MetIsAllMet(s.wf, n, s.status, s.published);
    assert n in ToSet(s.wf.order);
  }

  lemma OutstandingNodes(s: State)
    requires WF(s)
    ensures var ready := Outstanding(s.wf, s.status, s.published);
            && Distinct(ready) && (forall n :: n in ready ==> n in s.status && s.status[n] == Pending)
            && InOrder(ready, s.wf.order)
            && forall n :: n in ready <==> BecameQueued(s, QueueOutstanding(s), n)
  {
    QueueOutstandingEffect(s);
    SelectInOrder(s.wf.order, ReadySet(s.wf, s.status, s.published));
  }

  lemma OutstandingQueued(s: State)
    requires WF(s)
    ensures QueuesNew(s, QueueOutstanding(s))
  {
    var ready := Outstanding(s.wf, s.status, s.published);
    OutstandingNodes(s);
    QueueAllEntries(s, ready);
    assert Adds(s, QueueOutstanding(s), ready);
  }

  /** Changes to nodes that are not Pending before the queueing do not matter to it. */
  lemma QueuesNewFrom(s: State, mid: State, t: State)
    requires QueuesNew(mid, t) && mid.wf == s.wf && mid.queue == s.queue && mid.clock == s.clock
    requires mid.status.Keys == s.status.Keys
    requires forall n :: n in s.status ==> (s.status[n] == Pending <==> mid.status[n] == Pending)
    ensures QueuesNew(s, t)
  {
    assert forall n :: BecameQueued(s, t, n) <==> BecameQueued(mid, t, n);
    var ns :| Adds(mid, t, ns);
    assert Adds(s, t, ns);
  }

  lemma OtherCalls(s: State, t: State, u: State)
    requires QueuesNew(s, t) && u == t.(calls := u.calls)
    ensures QueuesNew(s, u)
  {
    var ns :| Adds(s, t, ns);
    assert forall n :: BecameQueued(s, t, n) <==> BecameQueued(s, u, n);
    assert Adds(s, u, ns);
  }

  // ---------------------------------------------------------------- started and completed

  lemma StartedOutcome(s: State, w: string, n: NodeId)
    requires WF(s)
    ensures Step(s, Started(w, n)) ==
            if n in s.status && (s.status[n] == Queued || s.status[n] == OnHold)
            then s.(status := s.status[n := Running]) else s
  {}

  /** The status of a node after a completion report. */
  lemma CompletedStatuses(s: State, w: string, n: NodeId, m: NodeId)
    requires WF(s) && n in s.status && s.status[n] == Running && m in s.status
    ensures var t := Step(s, Completed(w, n));
            && m in t.status
            && t.status[m] == if m == n then Succeeded
                              else if s.status[m] == Pending && Met(s.wf, m, t.status, s.published) then Queued
                              else s.status[m]
  {
    var marked := Mark(s, n, Succeeded);
    var t := Step(s, Completed(w, n));
    forall k | k in s.status { OutstandingStatuses(marked, k); }
    SameMet(s.wf, m, marked.status, t.status, s.published);
  }

  lemma CompletedSteps(s: State, w: string, n: NodeId)
    requires WF(s) && n in s.status && s.status[n] == Running
    ensures var queued := QueueOutstanding(Mark(s, n, Succeeded));
            Step(s, Completed(w, n)) == queued.(calls := s.calls + multiset{AfterNode(n)})
  {}

  lemma CompletionQueues(s: State, n: NodeId)
    requires WF(s) && n in s.status && s.status[n] == Running
    ensures QueuesNew(s, QueueOutstanding(Mark(s, n, Succeeded)))
  {
    var marked := Mark(s, n, Succeeded);
    OutstandingQueued(marked);
    QueuesNewFrom(s, marked, QueueOutstanding(marked));
  }

  /** A completion report of a Running node makes it succeed, queues what that enables, and starts
      the follow-up; of any other node it is ignored. */
  lemma CompletedOutcome(s: State, w: string, n: NodeId)
    requires WF(s)
    ensures var t := Step(s, Completed(w, n));
            if n in s.status && s.status[n] == Running then
              && QueuesNew(s, t)
              && t == s.(status := t.status, queue := t.queue, clock := t.clock,
                         calls := s.calls + multiset{AfterNode(n)})
            else t == s
  {
    if n in s.status && s.status[n] == Running {
      CompletedSteps(s, w, n);
      CompletionQueues(s, n);
      OtherCalls(s, QueueOutstanding(Mark(s, n, Succeeded)), Step(s, Completed(w, n)));
    }
  }

  // ---------------------------------------------------------------- uploaded

  lemma CriteriaSpelledOut(task: Task, published: set<ArtifactId>)
    ensures CriteriaMet(task, published) <==>
            && task.completionCriteria != []
            && (forall c :: c in task.completionCriteria && c.kind == ArtifactType ==> c.id in published)
            && (forall c :: c in task.completionCriteria ==> c.kind != OtherType)
  {}

  /** The state in which the criteria have been looked at. */
  function Looked(s: State, a: ArtifactId): (r: State)
    requires WF(s)
    ensures WF(r)
  {
    var published := s.published + {a};
    s.(published := published,
       status := MarkAll(s.status, Select(s.wf.order, CompleteSet(s.wf, s.status, published)), Succeeded))
  }

  lemma LookedStatus(s: State, a: ArtifactId, m: NodeId)
    requires WF(s) && m in s.status
    ensures Looked(s, a).status[m] ==
            if s.status[m] == Running && CriteriaMet(s.wf.nodes[m].task, s.published + {a}) then Succeeded
            else s.status[m]
  {
    assert m in ToSet(s.wf.order);
  }

  lemma UploadSteps(s: State, k: NodeId, a: ArtifactId)
    requires WF(s) && k in s.wf.nodes && a !in s.published
    ensures var queued := QueueOutstanding(Looked(s, a));
            var done := Select(s.wf.order, CompleteSet(s.wf, s.status, s.published + {a}));
            ArtifactUploaded(s, k, a) == queued.(calls := queued.calls + AfterNodeCalls(done))
  {}

  lemma UploadedSteps(s: State, k: NodeId, a: ArtifactId)
    requires WF(s) && k in s.wf.nodes && a !in s.published
    ensures var queued := QueueOutstanding(Looked(s, a));
            var done := Select(s.wf.order, CompleteSet(s.wf, s.status, s.published + {a}));
            Step(s, Uploaded(k, a)) == queued.(calls := s.calls + AfterNodeCalls(done))
  {
    UploadSteps(s, k, a);
  }

  lemma UploadedStatus(s: State, k: NodeId, a: ArtifactId, m: NodeId)
    requires WF(s) && k in s.wf.nodes && a !in s.published && m in s.status
    ensures var (t, mid) := (Step(s, Uploaded(k, a)), Looked(s, a));
            && m in t.status && t.status.Keys == s.status.Keys
            && t.status[m] == if mid.status[m] == Pending && Met(s.wf, m, mid.status, mid.published) then Queued
                              else mid.status[m]
  {
    UploadedSteps(s, k, a);
    OutstandingStatuses(Looked(s, a), m);
  }

  /** A new artifact completes a Running node exactly if the node has completion criteria, all its
      artifact criteria are published by then, and none is of unknown kind. */
  lemma UploadCompletes(s: State, k: NodeId, a: ArtifactId, m: NodeId)
    requires WF(s) && k in s.wf.nodes && a !in s.published && m in s.wf.nodes && s.status[m] == Running
    ensures var criteria := s.wf.nodes[m].task.completionCriteria;
            var met := && criteria != []
                       && (forall c :: c in criteria && c.kind == ArtifactType ==> c.id in s.published + {a})
                       && (forall c :: c in criteria ==> c.kind != OtherType);
            Step(s, Uploaded(k, a)).status[m] == if met then Succeeded else Running
  {
    UploadedStatus(s, k, a, m);
    LookedStatus(s, a, m);
    CriteriaSpelledOut(s.wf.nodes[m].task, s.published + {a});
  }

  lemma SameSuccess(s: State, k: NodeId, a: ArtifactId, m: NodeId)
    requires WF(s) && k in s.wf.nodes && a !in s.published && m in s.wf.nodes
    ensures var (t, mid) := (Step(s, Uploaded(k, a)), Looked(s, a));
            Met(s.wf, m, mid.status, mid.published) <==> Met(s.wf, m, t.status, mid.published)
  {
    var (t, mid) := (Step(s, Uploaded(k, a)), Looked(s, a));
    UploadedStatus(s, k, a, m);
    forall n | n in s.status ensures mid.status[n] == Succeeded <==> t.status[n] == Succeeded {
      UploadedStatus(s, k, a, n);
    }
    SameMet(s.wf, m, mid.status, t.status, mid.published);
  }

  /** It queues exactly the Pending nodes whose requirements are met by then, and leaves all other
      nodes as they are. */
  lemma UploadQueues(s: State, k: NodeId, a: ArtifactId, m: NodeId)
    requires WF(s) && k in s.wf.nodes && a !in s.published && m in s.wf.nodes && s.status[m] != Running
    ensures var t := Step(s, Uploaded(k, a));
            t.status[m] ==
            if s.status[m] == Pending && Met(s.wf, m, t.status, s.published + {a}) then Queued else s.status[m]
  {
    UploadedStatus(s, k, a, m);
    LookedStatus(s, a, m);
    SameSuccess(s, k, a, m);
  }

  lemma {:induction false} FollowUpCount(ns: seq<NodeId>, c: Call)
    requires Distinct(ns)
    ensures AfterNodeCalls(ns)[c] == if c.AfterNode? && c.nodeId in ns then 1 else 0
  {
    if ns != [] {
      assert forall n :: n in ns <==> n == ns[0] || n in ns[1..];
      assert ns[0] !in ns[1..];
      FollowUpCount(ns[1..], c);
    }
  }

  /** One follow-up starts for each node that was completed, and no other call. */
  lemma UploadFollowsUp(s: State, k: NodeId, a: ArtifactId, c: Call)
    requires WF(s) && k in s.wf.nodes && a !in s.published
    ensures var t := Step(s, Uploaded(k, a));
            t.calls[c] == s.calls[c] +
                          if && c.AfterNode? && c.nodeId in s.status && c.nodeId in t.status
                             && s.status[c.nodeId] == Running && t.status[c.nodeId] == Succeeded then 1 else 0
  {
    var done := Select(s.wf.order, CompleteSet(s.wf, s.status, s.published + {a}));
    UploadedSteps(s, k, a);
    FollowUpCount(done, c);
    if c.AfterNode? && c.nodeId in s.status {
      UploadedStatus(s, k, a, c.nodeId);
      LookedStatus(s, a, c.nodeId);
      assert c.nodeId in ToSet(s.wf.order);
    }
  }

  /** A known artifact, or one of an unknown node, is ignored; a new one is published. */
  lemma UploadedOutcome(s: State, k: NodeId, a: ArtifactId)
    requires WF(s)
    ensures var t := Step(s, Uploaded(k, a));
            if k in s.wf.nodes && a !in s.published then
              && QueuesNew(s, t)
              && t == s.(status := t.status, queue := t.queue, clock := t.clock, calls := t.calls,
                         published := s.published + {a})
            else t == s
  {
    if k in s.wf.nodes && a !in s.published {
      var mid := Looked(s, a);
      UploadedSteps(s, k, a);
      OutstandingQueued(mid);
      forall m | m in s.status { LookedStatus(s, a, m); }
      QueuesNewFrom(s, mid, QueueOutstanding(mid));
      OtherCalls(s, QueueOutstanding(mid), Step(s, Uploaded(k, a)));
    }
  }

  // ---------------------------------------------------------------- failed

  ghost predicate IsIdle(ws: seq<Worker>, i: int, w: string) {
    0 <= i < |ws| && ws[i].name == w && ws[i].status == Online && ws[i].workingOn.None?
  }

  /** How many online workers of that name have no work. */
  ghost function IdleNamed(ws: seq<Worker>, w: string): nat {
    |set i | 0 <= i < |ws| && IsIdle(ws, i, w)|
  }

  lemma {:induction false} FreeCallsAppend(ws: seq<Worker>, w: Worker)
    ensures FreeWorkerCalls(ws + [w]) ==
            FreeWorkerCalls(ws) +
            if w.status == Online && w.workingOn.None? then multiset{ForFreeWorker(w.name)} else multiset{}
  {
    if ws == [] {
      assert [w][1..] == [] && ws + [w] == [w];
    } else {
      assert (ws + [w])[1..] == ws[1..] + [w];
      FreeCallsAppend(ws[1..], w);
    }
  }

  /** A call for each online worker without work. */
  lemma {:induction false} FreeCallsCount(ws: seq<Worker>, c: Call)
    ensures FreeWorkerCalls(ws)[c] == if c.ForFreeWorker? then IdleNamed(ws, c.worker) else 0
  {
    if ws != [] {
      var last := |ws| - 1;
      FreeCallsCount(ws[..last], c);
      FreeCallsAppend(ws[..last], ws[last]);
      assert ws == ws[..last] + [ws[last]];
      if c.ForFreeWorker? { OneMoreIdle(ws, last, c.worker); }
    }
  }

  lemma SameIdle(ws: seq<Worker>, last: nat, i: int, w: string)
    requires last + 1 == |ws| && 0 <= i < last
    ensures IsIdle(ws, i, w) <==> IsIdle(ws[..last], i, w)
  {
    assert ws[..last][i] == ws[i];
  }

  lemma OneMoreIdle(ws: seq<Worker>, last: nat, w: string)
    requires last + 1 == |ws|
    ensures IdleNamed(ws, w) == IdleNamed(ws[..last], w) + if IsIdle(ws, last, w) then 1 else 0
  {
    var before := set i | 0 <= i < |ws[..last]| && IsIdle(ws[..last], i, w);
    var after := set i | 0 <= i < |ws| && IsIdle(ws, i, w);
    forall i | 0 <= i < last ensures i in after <==> i in before { SameIdle(ws, last, i, w); }
    if IsIdle(ws, last, w) {
      assert after == before + {last};
    } else {
      assert after == before;
    }
  }

  /** The first worker on the node has no work; nothing else differs. */
  ghost predicate Freed(ws: seq<Worker>, vs: seq<Worker>, n: NodeId) {
    || ((forall i :: 0 <= i < |ws| ==> ws[i].workingOn != Some(n)) && vs == ws)
    || (exists i :: 0 <= i < |ws| && ws[i].workingOn == Some(n)
                    && (forall j :: 0 <= j < i ==> ws[j].workingOn != Some(n))
                    && vs == ws[i := Worker(ws[i].name, ws[i].status, None, ws[i].nodesOnHold)])
  }

  lemma ClearFrees(s: State, n: NodeId)
    requires WF(s)
    ensures Freed(s.workers, ClearWorkOn(s, n).workers, n)
    ensures ClearWorkOn(s, n) == s.(workers := ClearWorkOn(s, n).workers)
  {}

  ghost predicate MayFail(s: State, n: NodeId) {
    n in s.status && (s.status[n] == Running || s.status[n] == Canceled)
  }

  ghost predicate MayRetry(s: State, n: NodeId)
    requires n in s.retries && n in s.wf.nodes
  {
    s.retries[n] < s.wf.nodes[n].task.retryPolicy.maxRetryCount
  }

  lemma CountedAndQueued(s: State, n: NodeId)
    requires WF(s) && MayFail(s, n) && MayRetry(s, n)
    ensures CanMove(s, n, Failed) && !Exhausted(MarkFailed(s, n), n)
    ensures QueueNode(MarkFailed(s, n), n) ==
            s.(status := s.status[n := Queued], retries := s.retries[n := s.retries[n] + 1],
               queue := s.queue + [QueuedTask(n, s.wf.nodes[n].task, s.clock)], clock := s.clock + 1)
  {
    assert s.status[n := Failed][n := Queued] == s.status[n := Queued];
  }

  /** A failure with retries left: the node is counted, queued again, taken from its worker, and
      every online worker without work is offered some. */
  lemma FailedRetries(s: State, w: string, n: NodeId)
    requires WF(s) && MayFail(s, n) && MayRetry(s, n)
    ensures var t := Step(s, FailedEvent(w, n));
            && Freed(s.workers, t.workers, n)
            && t == s.(status := s.status[n := Queued], retries := s.retries[n := s.retries[n] + 1],
                       queue := s.queue + [QueuedTask(n, s.wf.nodes[n].task, s.clock)], clock := s.clock + 1,
                       workers := t.workers, calls := t.calls)
            && forall c :: t.calls[c] == s.calls[c] + if c.ForFreeWorker? then IdleNamed(t.workers, c.worker) else 0
  {
    var queued := QueueNode(MarkFailed(s, n), n);
    var cleared := ClearWorkOn(queued, n);
    CountedAndQueued(s, n);
    RetriesWhenFailed(s, n);
    ClearFrees(queued, n);
    forall c
      ensures FreeWorkerCalls(cleared.workers)[c] ==
              if c.ForFreeWorker? then IdleNamed(cleared.workers, c.worker) else 0
    {
      FreeCallsCount(cleared.workers, c);
    }
  }

  /** The first Pending node of the document. */
  ghost predicate IsFirstPending(s: State, m: NodeId) {
    exists p :: 0 <= p < |s.wf.order| && s.wf.order[p] == m && PendingAt(s, p)
                && forall j :: 0 <= j < p ==> !PendingAt(s, j)
  }

  ghost predicate PendingAt(s: State, p: int) {
    0 <= p < |s.wf.order| && s.wf.order[p] in s.status && s.status[s.wf.order[p]] == Pending
  }

  lemma {:induction false} SelectHead(order: seq<NodeId>, keep: set<NodeId>, p: nat)
    requires p < |order| && order[p] in keep && forall j :: 0 <= j < p ==> order[j] !in keep
    ensures Select(order, keep) != [] && Select(order, keep)[0] == order[p]
  {
    if p > 0 { SelectHead(order[1..], keep, p - 1); }
  }

  lemma {:induction false} FirstKept(order: seq<NodeId>, keep: set<NodeId>) returns (p: nat)
    requires Select(order, keep) != []
    ensures p < |order| && order[p] in keep && Select(order, keep)[0] == order[p]
    ensures forall j :: 0 <= j < p ==> order[j] !in keep
  {
    if order[0] in keep {
      p := 0;
    } else {
      var q := FirstKept(order[1..], keep);
      p := q + 1;
      assert forall j :: 1 <= j < p ==> order[j] == order[1..][j - 1];
    }
  }

  lemma CancelReaches(s: State, m: NodeId)
    requires WF(s) && m in s.status
    ensures CancelFirst(s).status[m] == if IsFirstPending(s, m) then Canceled else s.status[m]
  {
    var keep := PendingSet(s.status);
    if Select(s.wf.order, keep) != [] {
      var p := FirstKept(s.wf.order, keep);
      if s.wf.order[p] == m { assert PendingAt(s, p); }
    }
    if IsFirstPending(s, m) {
      var p :| 0 <= p < |s.wf.order| && s.wf.order[p] == m && PendingAt(s, p)
               && forall j :: 0 <= j < p ==> !PendingAt(s, j);
      forall j | 0 <= j < p ensures s.wf.order[j] !in keep { assert !PendingAt(s, j); }
      SelectHead(s.wf.order, keep, p);
    }
  }

  lemma Counted(s: State, n: NodeId)
    requires WF(s) && MayFail(s, n) && !MayRetry(s, n)
    ensures CanMove(s, n, Failed) && Exhausted(MarkFailed(s, n), n)
    ensures var canceled := CancelFirst(MarkFailed(s, n));
            canceled == s.(status := canceled.status, retries := s.retries[n := s.retries[n] + 1])
  {}

  lemma CountedAndCanceled(s: State, n: NodeId, m: NodeId)
    requires WF(s) && MayFail(s, n) && m in s.status
    ensures var canceled := CancelFirst(MarkFailed(s, n));
            && m in canceled.status
            && canceled.status[m] == if m == n then Failed else if IsFirstPending(s, m) then Canceled else s.status[m]
  {
    var failed := MarkFailed(s, n);
    CancelReaches(failed, m);
    SameFirstPending(s, failed, m);
  }

  lemma SameFirstPending(s: State, t: State, m: NodeId)
    requires t.wf == s.wf && t.status.Keys == s.status.Keys
    requires forall n :: n in s.status ==> (s.status[n] == Pending <==> t.status[n] == Pending)
    ensures IsFirstPending(t, m) <==> IsFirstPending(s, m)
  {
    assert forall p :: PendingAt(t, p) <==> PendingAt(s, p);
  }

  /** A failure without retries left: the node has failed for good, the first Pending node of the
      document is canceled, and the worker is free. */
  lemma FailedGivesUp(s: State, w: string, n: NodeId, m: NodeId)
    requires WF(s) && MayFail(s, n) && !MayRetry(s, n) && m in s.status
    ensures var t := Step(s, FailedEvent(w, n));
            && m in t.status
            && t.status[m] == (if m == n then Failed else if IsFirstPending(s, m) then Canceled else s.status[m])
            && Freed(s.workers, t.workers, n)
            && t == s.(status := t.status, retries := s.retries[n := s.retries[n] + 1], workers := t.workers)
  {
    Counted(s, n);
    CountedAndCanceled(s, n, m);
    GivesUpWhenExhausted(s, n);
    ClearFrees(CancelFirst(MarkFailed(s, n)), n);
  }

  lemma FailureRefused(s: State, n: NodeId)
    requires WF(s) && !CanMove(s, n, Failed)
    ensures TaskFailed(s, n) == s
  {}

  lemma FailedIgnored(s: State, w: string, n: NodeId)
    requires WF(s) && !MayFail(s, n)
    ensures Step(s, FailedEvent(w, n)) == s
  {
    FailureRefused(s, n);
  }

  // ---------------------------------------------------------------- creation

  /** No edge leads to the node. */
  ghost predicate NoIncoming(wf: Workflow, n: NodeId)
    requires n in wf.nodes
  {
    forall e :: e in wf.nodes[n].edges ==> e.toId != n
  }

  lemma NothingMet(wf: Workflow, n: NodeId)
    requires n in wf.nodes
    ensures Met(wf, n, map k | k in wf.nodes :: Pending, {}) <==> NoIncoming(wf, n)
  {}

  lemma CreatedStatuses(wf: Workflow, workers: seq<Worker>, clock: nat)
    requires Distinct(wf.order) && ToSet(wf.order) == wf.nodes.Keys
    ensures QueueOutstanding(Fresh(wf, workers, clock)).status ==
            map n | n in wf.nodes :: if NoIncoming(wf, n) then Queued else Pending
  {
    var empty := Fresh(wf, workers, clock);
    forall n | n in wf.nodes
      ensures QueueOutstanding(empty).status[n] == if NoIncoming(wf, n) then Queued else Pending
    {
      OutstandingStatuses(empty, n);
      NothingMet(wf, n);
    }
  }

  lemma CreatedQueues(wf: Workflow, workers: seq<Worker>, clock: nat) returns (ns: seq<NodeId>)
    requires Distinct(wf.order) && ToSet(wf.order) == wf.nodes.Keys
    ensures InOrder(ns, wf.order) && forall n :: n in ns <==> n in wf.nodes && NoIncoming(wf, n)
    ensures var queued := QueueOutstanding(Fresh(wf, workers, clock));
            queued.queue == Stamped(wf, ns, clock) && queued.clock == clock + |ns|
  {
    var empty := Fresh(wf, workers, clock);
    OutstandingQueued(empty);
    ns :| Adds(empty, QueueOutstanding(empty), ns);
    CreatedStatuses(wf, workers, clock);
    assert forall n :: BecameQueued(empty, QueueOutstanding(empty), n) <==> n in wf.nodes && NoIncoming(wf, n);
  }

  /** A new workflow has its nodes without dependencies in the queue, in document order and
      stamped one after the other, and every online worker without work is offered some. */
  lemma CreatedOutcome(wf: Workflow, workers: seq<Worker>, clock: nat) returns (ns: seq<NodeId>)
    requires Distinct(wf.order) && ToSet(wf.order) == wf.nodes.Keys
    ensures InOrder(ns, wf.order) && forall n :: n in ns <==> n in wf.nodes && NoIncoming(wf, n)
    ensures var t := Created(wf, workers, clock);
            && t == State(wf, map n | n in wf.nodes :: if NoIncoming(wf, n) then Queued else Pending,
                          map n | n in wf.nodes :: 0, {}, Stamped(wf, ns, clock), clock + |ns|, workers, t.calls)
            && forall c :: t.calls[c] == if c.ForFreeWorker? then IdleNamed(workers, c.worker) else 0
  {
    ns := CreatedQueues(wf, workers, clock);
    CreatedStatuses(wf, workers, clock);
    forall c ensures FreeWorkerCalls(workers)[c] == if c.ForFreeWorker? then IdleNamed(workers, c.worker) else 0 {
      FreeCallsCount(workers, c);
    }
  }
}
