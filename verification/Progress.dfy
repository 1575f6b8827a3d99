/** Why a workflow that the cycle detector accepts cannot get stuck. */
module Progress {
  import opened WorkflowTypes
  import opened SchedulerModel
  import opened NodeMachine
  import opened Placement
  import opened Frontier
  import opened Graphs
  import opened WorkflowGraph

  ghost predicate ResultsPublished(s: State)
    requires WF(s)
  {
    forall n :: n in s.wf.nodes && s.status[n] == Succeeded ==> ToSet(s.wf.nodes[n].task.results) <= s.published
  }

  // ---------------------------------------------------------------- finite descent

  /** A Pending node of a closed frontier has an arrow whose requirement is not met. */
  lemma Unmet(s: State, n: NodeId) returns (e: EdgeDto)
    requires WF(s) && Closed(s) && EdgesResolved(s.wf) && NoSelfDependency(s.wf)
    requires n in s.status && s.status[n] == Pending
    ensures e in s.wf.nodes[n].edges && e.toId == n && !Satisfied(e, s.status, s.published)
    ensures e.fromId in s.wf.nodes && (e.fromId, n) in Arrows(s.wf)
    ensures e.conditionType == TaskType ==> s.status[e.fromId] != Succeeded
    ensures e.conditionType != TaskType ==> !(ToSet(s.wf.nodes[e.fromId].task.results) <= s.published)
  {
    assert !IsReady(n, s.wf, s.status, s.published);
    e :| e in s.wf.nodes[n].edges && e.toId == n && !Satisfied(e, s.status, s.published);
    if e.conditionType != TaskType { assert e.artifactId.value in ToSet(s.wf.nodes[e.fromId].task.results); }
  }

  /** If the frontier is closed, every node is Pending or Succeeded, and the succeeded nodes
      have published their results, then every node has succeeded. */
  lemma AllSucceed(s: State)
    requires WF(s) && Closed(s) && EdgesResolved(s.wf) && NoSelfDependency(s.wf) && Acyclic(s.wf)
    requires ResultsPublished(s) && forall n :: n in s.status ==> s.status[n] in {Pending, Succeeded}
    ensures forall n :: n in s.status ==> s.status[n] == Succeeded
  {
    var (pending, arrows) := (PendingSet(s.status), Arrows(s.wf));
    forall n | n in pending ensures HasPredecessor(n, pending, arrows) {
      var e := Unmet(s, n);
      assert e.fromId in pending && e.fromId != n && (e.fromId, n) in arrows;
    }
    if pending != {} {
      var c := UngroundedHasCycle(pending, arrows);
    }
    forall n | n in s.status ensures s.status[n] == Succeeded { assert n !in pending; }
  }

  /** A node that some worker or the queue still has to bring further. */
  ghost predicate InProgress(s: State, n: NodeId)
    requires WF(s) && n in s.status
  {
    || (s.status[n] == Running && IsWorkedOn(s.workers, n))
    || (s.status[n] == Queued && ((exists t :: t in s.queue && t.nodeId == n) || IsWorkedOn(s.workers, n)))
  }

  lemma {:induction false} WorkedOnOrHeld(s: State, ws: seq<Worker>, n: NodeId)
    requires n in s.status && s.status[n] == Queued && CountWorkers(ws, n) > 0
    requires forall i :: 0 <= i < |ws| ==> WorkerOk(s, ws[i])
    ensures IsWorkedOn(ws, n)
  {
    assert WorkerOk(s, ws[0]);
    CountMember(ws[0].nodesOnHold, n);
    if ws[0].workingOn != Some(n) {
      WorkedOnOrHeld(s, ws[1..], n);
      var i :| 0 <= i < |ws[1..]| && ws[1..][i].workingOn == Some(n);
      assert ws[i + 1].workingOn == Some(n);
    }
  }

  lemma QueuedInProgress(s: State, n: NodeId)
    requires Inv(s) && n in s.status && s.status[n] in {Queued, Running}
    ensures InProgress(s, n)
  {
    if s.status[n] == Queued {
      assert Places(s, n) + InHand(None, n) == 1;
      CountMember(s.queue, n);
      if CountIn(s.queue, n) == 0 { WorkedOnOrHeld(s, s.workers, n); }
    }
  }

  // ---------------------------------------------------------------- why nodes wait

  /** The node is in progress, on hold, failed or canceled, or has results that are still to
      come. */
  ghost predicate Reason(s: State, n: NodeId)
    requires WF(s)
  {
    && n in s.status
    && (|| InProgress(s, n)
        || s.status[n] in {OnHold, Failed, Canceled}
        || (s.status[n] == Succeeded && !(ToSet(s.wf.nodes[n].task.results) <= s.published)))
  }

  /** A path of arrows to the node from a reason to wait. */
  ghost predicate WaitsOn(s: State, p: seq<NodeId>, n: NodeId)
    requires WF(s)
  {
    p != [] && p[|p| - 1] == n && IsPath(p, Arrows(s.wf)) && Reason(s, p[0])
  }

  ghost predicate Waits(s: State, n: NodeId)
    requires WF(s)
  {
    exists p :: WaitsOn(s, p, n)
  }

  /** The source of an unmet arrow is Pending or a reason to wait. */
  lemma SourceWaits(s: State, n: NodeId) returns (m: NodeId)
    requires Inv(s) && Closed(s) && EdgesResolved(s.wf) && NoSelfDependency(s.wf)
    requires n in s.status && s.status[n] == Pending
    ensures m in s.status && m != n && (m, n) in Arrows(s.wf) && (s.status[m] == Pending || Reason(s, m))
  {
    var e := Unmet(s, n);
    m := e.fromId;
    if s.status[m] in {Queued, Running} { QueuedInProgress(s, m); }
  }

  lemma WaitsThrough(s: State, m: NodeId, n: NodeId)
    requires WF(s) && (m, n) in Arrows(s.wf) && (Reason(s, m) || Waits(s, m))
    ensures Waits(s, n)
  {
    var p := [m];
    if !Reason(s, m) {
      var q :| WaitsOn(s, q, m);
      p := q;
    }
    assert forall i :: 0 <= i < |p| - 1 ==> (p[i], p[i + 1]) in Arrows(s.wf);
    assert WaitsOn(s, p + [n], n);
  }

  /** Every Pending node is reached by arrows from a node that is a reason to wait. */
  lemma PendingWaits(s: State, n: NodeId)
    requires Inv(s) && Closed(s) && EdgesResolved(s.wf) && NoSelfDependency(s.wf) && Acyclic(s.wf)
    requires n in s.status && s.status[n] == Pending
    ensures Waits(s, n)
  {
    var arrows := Arrows(s.wf);
    var idle := set m | m in PendingSet(s.status) && !Waits(s, m);
    forall m | m in idle ensures HasPredecessor(m, idle, arrows) {
      var k := SourceWaits(s, m);
      if Reason(s, k) || Waits(s, k) { WaitsThrough(s, k, m); }
      assert k in idle && k != m && (k, m) in arrows;
    }
    if idle != {} {
      var c := UngroundedHasCycle(idle, arrows);
    }
    assert n !in idle;
  }

  /** Unless the workflow is finished, some node is in the queue or with a worker, or is on
      hold, has failed for good or was canceled, or has results that are still to come. */
  lemma NeverStuck(s: State)
    requires Inv(s) && Closed(s) && EdgesResolved(s.wf) && NoSelfDependency(s.wf) && Acyclic(s.wf)
    ensures || (forall n :: n in s.status ==> s.status[n] == Succeeded)
            || (exists n :: n in s.status && InProgress(s, n))
            || (exists n :: n in s.status && s.status[n] in {OnHold, Failed, Canceled})
            || !ResultsPublished(s)
  {
    if exists n :: n in s.status && s.status[n] in {Queued, Running} {
      var n :| n in s.status && s.status[n] in {Queued, Running};
      QueuedInProgress(s, n);
    } else if ResultsPublished(s) && forall n :: n in s.status ==> s.status[n] in {Pending, Succeeded} {
      AllSucceed(s);
    } else if ResultsPublished(s) {
      var n :| n in s.status && s.status[n] !in {Pending, Succeeded};
      assert s.status[n] in {OnHold, Failed, Canceled};
    }
  }
}
