/** Which task a hold request puts on hold: told from the workers, the edges and the order in
    which the queue empties. */
module HoldRequests {
  import opened WorkflowTypes
  import opened SchedulerModel
  import opened NodeMachine
  import opened Placement
  import opened TaskQueueOrder
  import opened Dispatching
  import opened Reporting

  /** Worker `i` is online, holds nothing and works on the node. */
  ghost predicate Asks(s: State, i: nat, w: string, n: NodeId) {
    && IsNamed(s.workers, i, w) && s.workers[i].status == Online && s.workers[i].nodesOnHold == []
    && s.workers[i].workingOn == Some(n) && n in s.wf.nodes
  }

  lemma AskingIsAccepted(s: State, i: nat, w: string, n: NodeId)
    requires WF(s) && Asks(s, i, w, n)
    ensures HoldAccepted(s, w) && FindWorker(s.workers, w) == i && Preferred(s, w) == LookAhead(s, n)
  {
    NamedFound(s.workers, i, w);
  }

  lemma AskingPutsOnHold(s: State, i: nat, w: string, n: NodeId, attempts: nat)
    requires WF(s) && Asks(s, i, w, n) && attempts == HOLD_ATTEMPTS
    ensures Step(s, HoldRequest(w)) == PutOnHold(s, i, LookAhead(s, n), attempts)
  {
    AskingIsAccepted(s, i, w, n);
  }

  lemma AcceptedAsks(s: State, w: string) returns (i: nat, n: NodeId)
    requires WF(s) && HoldAccepted(s, w)
    ensures Asks(s, i, w, n)
  {
    i := FindWorker(s.workers, w);
    n := s.workers[i].workingOn.value;
  }

  /** The request of any other worker is refused. */
  lemma RequestRefused(s: State, w: string)
    requires WF(s) && forall i: nat, n :: !Asks(s, i, w, n)
    ensures Step(s, HoldRequest(w)) == s
  {
    if HoldAccepted(s, w) {
      var i, n := AcceptedAsks(s, w);
    }
  }

  // ---------------------------------------------------------------- by look-ahead

  /** The Pending node waits for nothing but the success and the results of node `n`. */
  ghost predicate IsOffered(s: State, n: NodeId, m: NodeId)
    requires n in s.wf.nodes
  {
    && m in s.wf.nodes && m != n && m in s.status && s.status[m] == Pending
    && Met(s.wf, m, s.status[n := Succeeded], s.published + ToSet(s.wf.nodes[n].task.results))
  }

  lemma OfferedSet(s: State, n: NodeId, m: NodeId)
    requires WF(s) && n in s.wf.nodes
    ensures IsOffered(s, n, m) <==>
            m in ReadySet(s.wf, s.status[n := Succeeded], s.published + ToSet(s.wf.nodes[n].task.results))
  {
    if m in s.wf.nodes {
      MetIsAllMet(s.wf, m, s.status[n := Succeeded], s.published + ToSet(s.wf.nodes[n].task.results));
    }
  }

  /** Position `p` of the document is the first offered node. */
  ghost predicate FirstOffered(s: State, n: NodeId, p: nat)
    requires n in s.wf.nodes
  {
    p < |s.wf.order| && IsOffered(s, n, s.wf.order[p]) && forall j :: 0 <= j < p ==> !IsOffered(s, n, s.wf.order[j])
  }

  lemma FirstIsPreferred(s: State, n: NodeId, p: nat)
    requires WF(s) && n in s.wf.nodes && FirstOffered(s, n, p)
    ensures LookAhead(s, n) != [] && LookAhead(s, n)[0] == s.wf.order[p]
  {
    var keep := ReadySet(s.wf, s.status[n := Succeeded], s.published + ToSet(s.wf.nodes[n].task.results));
    OfferedSet(s, n, s.wf.order[p]);
    forall j | 0 <= j < p ensures s.wf.order[j] !in keep { OfferedSet(s, n, s.wf.order[j]); }
    SelectHead(s.wf.order, keep, p);
  }

  lemma HoldsPreferred(s: State, i: nat, preferred: seq<NodeId>, m: NodeId, attempts: nat)
    requires WF(s) && i < |s.workers| && preferred != [] && preferred[0] == m && m in s.status && s.status[m] == Pending
    requires attempts > 0
    ensures PutOnHold(s, i, preferred, attempts) ==
            PushHold(Mark(s, m, OnHold), i, QueuedTask(m, s.wf.nodes[m].task, s.clock))
  {}

  lemma Pushed(s: State, i: nat, w: string, n: NodeId, m: NodeId, e: QueuedTask)
    requires WF(s) && Asks(s, i, w, n) && m in s.status
    ensures PushHold(Mark(s, m, OnHold), i, e) ==
            s.(status := s.status[m := OnHold], workers := s.workers[i := Worker(w, Online, Some(n), [e])])
  {
    assert [] + [e] == [e];
  }

  /** If the look-ahead offers nodes, the first of them is put on hold for the worker, with the
      present time; the queue stays as it is. */
  lemma RequestHoldsOffered(s: State, i: nat, w: string, n: NodeId, p: nat)
    requires WF(s) && Asks(s, i, w, n) && FirstOffered(s, n, p)
    ensures var m := s.wf.order[p];
            Step(s, HoldRequest(w)) ==
            s.(status := s.status[m := OnHold],
               workers := s.workers[i := Worker(w, Online, Some(n), [QueuedTask(m, s.wf.nodes[m].task, s.clock)])])
  {
    var m := s.wf.order[p];
    var attempts: nat := HOLD_ATTEMPTS;
    AskingPutsOnHold(s, i, w, n, attempts);
    FirstIsPreferred(s, n, p);
    HoldsPreferred(s, i, LookAhead(s, n), m, attempts);
    Pushed(s, i, w, n, m, QueuedTask(m, s.wf.nodes[m].task, s.clock));
  }

  // ---------------------------------------------------------------- from the queue

  /** The entry's node may be put on hold. */
  ghost predicate Holdable(s: State, e: QueuedTask) {
    e.nodeId in s.status && (s.status[e.nodeId] == Pending || s.status[e.nodeId] == Queued)
  }

  /** Entry `k` in the order of leaving is the first that may be put on hold. */
  ghost predicate FirstHoldable(s: State, k: nat) {
    k < |Drain(s.queue)| && Holdable(s, Drain(s.queue)[k]) && forall j :: 0 <= j < k ==> !Holdable(s, Drain(s.queue)[j])
  }

  lemma HeadAttempt(s: State, i: nat)
    requires WF(s) && i < |s.workers| && s.queue != []
    ensures var (q, t) := (Drain(s.queue), AfterAttempt(s, i, []));
            && q != [] && Drain(t.queue) == q[1..]
            && (AttemptHolds(s, []) <==> Holdable(s, q[0]))
            && t == if Holdable(s, q[0]) then PushHold(Mark(TakeFromQueue(s), q[0].nodeId, OnHold), i, q[0])
                    else s.(queue := t.queue)
  {
    var rest := Drain(RemoveAt(s.queue, MinIndex(s.queue)));
    assert Drain(s.queue) == [s.queue[MinIndex(s.queue)]] + rest;
  }

  ghost predicate HeldFromQueue(s: State, t: State, i: nat, e: QueuedTask, rest: seq<QueuedTask>) {
    && i < |s.workers|
    && t == s.(status := s.status[e.nodeId := OnHold], queue := t.queue,
               workers := s.workers[i := s.workers[i].(nodesOnHold := s.workers[i].nodesOnHold + [e])])
    && Drain(t.queue) == rest
  }

  lemma {:induction false} HoldsFirst(s: State, i: nat, attempts: nat, k: nat)
    requires WF(s) && i < |s.workers| && FirstHoldable(s, k) && k < attempts
    ensures HeldFromQueue(s, PutOnHold(s, i, [], attempts), i, Drain(s.queue)[k], Drain(s.queue)[k + 1..])
    decreases attempts
  {
    var (left, q, t) := (attempts - 1, Drain(s.queue), AfterAttempt(s, i, []));
    HoldStep(s, i, [], attempts, left);
    HeadAttempt(s, i);
    if k > 0 {
      var next := k - 1;
      assert !Holdable(s, q[0]);
      assert q[1..][next] == q[k] && q[1..][next + 1..] == q[k + 1..];
      forall j | 0 <= j < next ensures !Holdable(t, Drain(t.queue)[j]) { assert q[1..][j] == q[j + 1]; }
      HoldsFirst(t, i, left, next);
    }
  }

  lemma {:induction false} HoldsNone(s: State, i: nat, attempts: nat)
    requires WF(s) && i < |s.workers|
    requires forall j :: 0 <= j < |Drain(s.queue)| && j < attempts ==> !Holdable(s, Drain(s.queue)[j])
    ensures var (q, t) := (Drain(s.queue), PutOnHold(s, i, [], attempts));
            t == s.(queue := t.queue) && Drain(t.queue) == if |q| <= attempts then [] else q[attempts..]
    decreases attempts
  {
    if attempts != 0 {
      var (left, q, t) := (attempts - 1, Drain(s.queue), AfterAttempt(s, i, []));
      HoldStep(s, i, [], attempts, left);
      if s.queue == [] {
        HoldsNone(s, i, left);
      } else {
        HeadAttempt(s, i);
        assert !Holdable(s, q[0]);
        forall j | 0 <= j < |q[1..]| && j < left ensures !Holdable(t, q[1..][j]) { assert q[1..][j] == q[j + 1]; }
        HoldsNone(t, i, left);
        if |q| > attempts { assert q[1..][left..] == q[attempts..]; }
      }
    }
  }

  lemma NothingPreferred(s: State, n: NodeId)
    requires WF(s) && n in s.wf.nodes && forall m :: !IsOffered(s, n, m)
    ensures LookAhead(s, n) == []
  {
    var ahead := LookAhead(s, n);
    if ahead != [] {
      assert ahead[0] in ahead;
      OfferedSet(s, n, ahead[0]);
    }
  }

  /** If it offers none, the first of the next four tasks of the queue that may be put on hold is
      held, and those before it are dropped. */
  lemma RequestHoldsQueued(s: State, i: nat, w: string, n: NodeId, k: nat)
    requires WF(s) && Asks(s, i, w, n) && (forall m :: !IsOffered(s, n, m)) && FirstHoldable(s, k) && k < 4
    ensures HeldFromQueue(s, Step(s, HoldRequest(w)), i, Drain(s.queue)[k], Drain(s.queue)[k + 1..])
  {
    var attempts: nat := HOLD_ATTEMPTS;
    AskingPutsOnHold(s, i, w, n, attempts);
    NothingPreferred(s, n);
    HoldsFirst(s, i, attempts, k);
  }

  /** If none of the next four may be put on hold, they are dropped and nothing is held. */
  lemma RequestHoldsNothing(s: State, i: nat, w: string, n: NodeId)
    requires WF(s) && Asks(s, i, w, n) && (forall m :: !IsOffered(s, n, m))
    requires forall k :: 0 <= k < 4 && k < |Drain(s.queue)| ==> !Holdable(s, Drain(s.queue)[k])
    ensures var (q, t) := (Drain(s.queue), Step(s, HoldRequest(w)));
            t == s.(queue := t.queue) && Drain(t.queue) == if |q| <= 4 then [] else q[4..]
  {
    var attempts: nat := HOLD_ATTEMPTS;
    AskingPutsOnHold(s, i, w, n, attempts);
    NothingPreferred(s, n);
    HoldsNone(s, i, attempts);
  }
}
