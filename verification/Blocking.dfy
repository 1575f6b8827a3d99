/** Sets of tasks that wait for each other, so that none of them can ever run. */
module Blocking {
  import opened WorkflowTypes
  import opened SchedulerModel
  import opened NodeMachine
  import opened Placement
  import opened Frontier
  import opened WorkflowGraph
  import opened Graphs
  import opened Limits

  /** Every task that produces the artifact lies in the set. */
  ghost predicate ProducedWithin(wf: Workflow, nodes: set<NodeId>, a: ArtifactId) {
    forall m :: m in wf.nodes && a in wf.nodes[m].task.results ==> m in nodes
  }

  /** The edge waits for a task of the set; if only own results are published, an artifact edge
      may wait as well. */
  ghost predicate WaitsWithin(wf: Workflow, nodes: set<NodeId>, e: EdgeDto, own: bool) {
    match e.conditionType
    case TaskType => e.fromId in nodes
    case ArtifactType => own && e.artifactId.Some? && ProducedWithin(wf, nodes, e.artifactId.value)
    case OtherType => true
  }

  ghost predicate WaitsIn(wf: Workflow, nodes: set<NodeId>, n: NodeId, own: bool) {
    n in wf.nodes && exists e :: e in wf.nodes[n].edges && e.toId == n && WaitsWithin(wf, nodes, e, own)
  }

  /** Each task of the set waits for the set itself. */
  ghost predicate Blocked(wf: Workflow, nodes: set<NodeId>, own: bool) {
    nodes != {} && forall n {:trigger WaitsIn(wf, nodes, n, own)} :: n in nodes ==> WaitsIn(wf, nodes, n, own)
  }

  /** No tasks wait for each other. */
  ghost predicate Feasible(wf: Workflow, own: bool) {
    forall nodes :: !Blocked(wf, nodes, own)
  }

  // ---------------------------------------------------------------- own results

  /** An artifact is reported only as a result of a task that has succeeded. */
  predicate OwnUpload(s: State, e: Event) {
    e.Uploaded? ==>
      && e.nodeId in s.wf.nodes && e.artifact in s.wf.nodes[e.nodeId].task.results
      && e.nodeId in s.status && s.status[e.nodeId] == Succeeded
  }

  /** Workers are honest and, if so demanded, publish only the results of succeeded tasks. */
  predicate GenuineRun(s: State, es: seq<Event>, own: bool)
    requires WF(s)
    decreases es
  {
    es == [] || (Honest(s, es[0]) && (own ==> OwnUpload(s, es[0])) && GenuineRun(Step(s, es[0]), es[1..], own))
  }

  lemma {:induction false} GenuineIsHonest(s: State, es: seq<Event>, own: bool)
    requires WF(s) && GenuineRun(s, es, own)
    ensures HonestRun(s, es)
    decreases es
  {
    if es != [] { GenuineIsHonest(Step(s, es[0]), es[1..], own); }
  }

  lemma {:induction false} GenuineConcat(s: State, a: seq<Event>, b: seq<Event>, own: bool)
    requires WF(s)
    ensures GenuineRun(s, a + b, own) <==> GenuineRun(s, a, own) && GenuineRun(Exec(s, a), b, own)
    decreases a
  {
    if a == [] {
      assert a + b == b;
    } else {
      assert (a + b)[0] == a[0] && (a + b)[1..] == a[1..] + b;
      GenuineConcat(Step(s, a[0]), a[1..], b, own);
    }
  }

  // ---------------------------------------------------------------- blocked tasks never run

  /** The tasks of the set have not been queued, and nothing that only they produce is published. */
  ghost predicate StillBlocked(s: State, nodes: set<NodeId>, own: bool) {
    && Blocked(s.wf, nodes, own)
    && (forall n :: n in nodes ==> n in s.status && s.status[n] in {Pending, Canceled})
    && (own ==> forall a :: a in s.published ==> !ProducedWithin(s.wf, nodes, a))
  }

  /** A task that waits for the set is not ready while no task of the set has succeeded. */
  lemma BlockedNotMet(wf: Workflow, nodes: set<NodeId>, n: NodeId, own: bool,
                      status: map<NodeId, DagNodeStatus>, published: set<ArtifactId>)
    requires WaitsIn(wf, nodes, n, own)
    requires forall m :: m in nodes && m in status ==> status[m] != Succeeded
    requires own ==> forall a :: a in published ==> !ProducedWithin(wf, nodes, a)
    ensures !AllMet(n, wf.nodes[n].edges, status, published)
  {
    var e :| e in wf.nodes[n].edges && e.toId == n && WaitsWithin(wf, nodes, e, own);
    assert !Satisfied(e, status, published);
  }

  /** No look-ahead offers a task of the set. */
  lemma BlockedNotOffered(s: State, nodes: set<NodeId>, own: bool, k: NodeId, n: NodeId)
    requires WF(s) && StillBlocked(s, nodes, own) && k in s.wf.nodes && k !in nodes && n in nodes
    ensures n !in LookAhead(s, k)
  {
    var (status, published) := (s.status[k := Succeeded], s.published + ToSet(s.wf.nodes[k].task.results));
    assert WaitsIn(s.wf, nodes, n, own);
    BlockedNotMet(s.wf, nodes, n, own, status, published);
    assert n !in ReadySet(s.wf, status, published);
  }

  lemma BlockedNotHeld(s: State, nodes: set<NodeId>, own: bool, w: string, n: NodeId)
    requires Inv(s) && StillBlocked(s, nodes, own) && n in nodes
    ensures HoldRequested(s, w).status[n] == s.status[n]
  {
    if HoldAccepted(s, w) {
      var (i, preferred) := (FindWorker(s.workers, w), Preferred(s, w));
      var k := s.workers[i].workingOn.value;
      assert WorkerOk(s, s.workers[i]);
      BlockedNotOffered(s, nodes, own, k, n);
      if preferred != [] { assert preferred[0] in preferred; }
      forall t | t in s.queue ensures t.nodeId != n { assert s.status[t.nodeId] in {Queued, OnHold}; }
      HoldSpares(s, i, preferred, HOLD_ATTEMPTS, n);
    }
  }

  lemma BlockedStatus(s: State, e: Event, nodes: set<NodeId>, own: bool, n: NodeId)
    requires Inv(s) && Honest(s, e) && (own ==> OwnUpload(s, e)) && StillBlocked(s, nodes, own) && n in nodes
    requires own ==> forall a :: a in Step(s, e).published ==> !ProducedWithin(s.wf, nodes, a)
    ensures Step(s, e).status[n] in {Pending, Canceled}
  {
    var t := Step(s, e);
    if s.status[n] == Canceled {
      CanceledStays(s, e, n);
    } else if e.HoldRequest? {
      BlockedNotHeld(s, nodes, own, e.worker, n);
    } else {
      FirstQueued(s, e, n);
      StepMoves(s, e, n);
      if t.status[n] == Queued {
        assert WaitsIn(s.wf, nodes, n, own);
        forall m | m in nodes ensures t.status[m] != Succeeded { StepMoves(s, e, m); }
        BlockedNotMet(s.wf, nodes, n, own, t.status, t.published);
      }
    }
  }

  /** What a step publishes. */
  lemma StepPublishes(s: State, e: Event)
    requires Inv(s)
    ensures e.Uploaded? ==> Step(s, e).published <= s.published + {e.artifact}
    ensures !e.Uploaded? ==> Step(s, e).published == s.published
  {
    if e.Perform? { PerformMovesNothing(s, e.call); }
  }

  lemma BlockedPublished(s: State, e: Event, nodes: set<NodeId>, a: ArtifactId)
    requires Inv(s) && OwnUpload(s, e) && StillBlocked(s, nodes, true) && a in Step(s, e).published
    ensures !ProducedWithin(s.wf, nodes, a)
  {
    StepPublishes(s, e);
    if a !in s.published { assert e.nodeId !in nodes; }
  }

  lemma BlockedStep(s: State, e: Event, nodes: set<NodeId>, own: bool)
    requires Inv(s) && Honest(s, e) && (own ==> OwnUpload(s, e)) && StillBlocked(s, nodes, own)
    ensures StillBlocked(Step(s, e), nodes, own)
  {
    if own {
      forall a | a in Step(s, e).published { BlockedPublished(s, e, nodes, a); }
    }
    forall n | n in nodes { BlockedStatus(s, e, nodes, own, n); }
  }

  /** However its workflow runs, no task of a blocked set is ever queued. */
  lemma {:induction false} BlockedForever(s: State, es: seq<Event>, nodes: set<NodeId>, own: bool)
    requires Inv(s) && GenuineRun(s, es, own) && StillBlocked(s, nodes, own)
    ensures StillBlocked(Exec(s, es), nodes, own)
    decreases es
  {
    if es != [] {
      BlockedStep(s, es[0], nodes, own);
      StepKeeps(s, es[0]);
      BlockedForever(Step(s, es[0]), es[1..], nodes, own);
    }
  }

  /** A new workflow starts with its blocked tasks Pending. */
  lemma CreatedBlocked(wf: Workflow, workers: seq<Worker>, clock: nat, nodes: set<NodeId>, own: bool)
    requires Distinct(wf.order) && ToSet(wf.order) == wf.nodes.Keys && Blocked(wf, nodes, own)
    ensures StillBlocked(Created(wf, workers, clock), nodes, own)
  {
    var (s, t) := (Fresh(wf, workers, clock), Created(wf, workers, clock));
    forall n | n in nodes ensures n in t.status && t.status[n] == Pending {
      assert WaitsIn(wf, nodes, n, own);
      QueueOutstandingMoves(s, n);
      forall m | m in nodes && m in t.status ensures t.status[m] != Succeeded { QueueOutstandingMoves(s, m); }
      BlockedNotMet(wf, nodes, n, own, t.status, t.published);
    }
  }
}
