/** What a workflow owner can rely on: the theorems about every run that starts with the
    creation of a workflow and in which workers report honestly. */
module Guarantees {
  import opened WorkflowTypes
  import opened SchedulerModel
  import opened NodeMachine
  import opened Placement
  import opened Frontier
  import opened Limits
  import opened Termination
  import opened Progress
  import opened WorkflowGraph
  import opened DagParser
  import opened ParserGuarantees

  /** A stored workflow and workers that have nothing to do. */
  ghost predicate Initial(wf: Workflow, workers: seq<Worker>) {
    Distinct(wf.order) && ToSet(wf.order) == wf.nodes.Keys && Idle(workers)
  }

  lemma Reached(wf: Workflow, workers: seq<Worker>, clock: nat, es: seq<Event>)
    requires Initial(wf, workers) && HonestRun(Created(wf, workers, clock), es)
    ensures Inv(Exec(Created(wf, workers, clock), es))
    ensures Closed(Exec(Created(wf, workers, clock), es))
  {
    CreatedInv(wf, workers, clock);
    CreatedCloses(wf, workers, clock);
    RunKeeps(Created(wf, workers, clock), es);
    FrontierAlwaysClosed(Created(wf, workers, clock), es);
  }

  /** No task is ever in two places, so none is on two workers; heartbeats, stale workers,
      holds, failures and requeues included. */
  lemma SinglePlace(wf: Workflow, workers: seq<Worker>, clock: nat, es: seq<Event>, n: NodeId)
    requires Initial(wf, workers) && HonestRun(Created(wf, workers, clock), es)
    ensures var s := Exec(Created(wf, workers, clock), es);
            && Places(s, n) <= 1
            && forall i, j :: 0 <= i < j < |s.workers| && s.workers[i].workingOn == Some(n) ==>
                 s.workers[j].workingOn != Some(n)
  {
    Reached(wf, workers, clock, es);
    OneWorker(Exec(Created(wf, workers, clock), es), n);
  }

  lemma OneWorker(s: State, n: NodeId)
    requires Inv(s)
    ensures Places(s, n) <= 1
    ensures forall i, j :: 0 <= i < j < |s.workers| && s.workers[i].workingOn == Some(n) ==>
              s.workers[j].workingOn != Some(n)
  {
    assert Places(s, n) + InHand(None, n) <= 1;
    forall i, j | 0 <= i < j < |s.workers| && s.workers[i].workingOn == Some(n)
      ensures s.workers[j].workingOn != Some(n) {
      CountTwo(s.workers, i, j, n);
    }
  }

  /** Every Queued node has exactly one place and is in the queue or a worker's work; every
      Running node is at exactly one worker.  If no hold request drops a task on hold, every
      node on hold has exactly one place as well. */
  lemma Conservation(wf: Workflow, workers: seq<Worker>, clock: nat, es: seq<Event>, n: NodeId)
    requires Initial(wf, workers) && HonestRun(Created(wf, workers, clock), es) && n in wf.nodes
    ensures var s := Exec(Created(wf, workers, clock), es);
            && (s.status[n] in {Queued, Running} ==> Places(s, n) == 1 && InProgress(s, n))
            && (s.status[n] == OnHold && NothingDropped(Created(wf, workers, clock), es) ==> Places(s, n) == 1)
  {
    var s := Exec(Created(wf, workers, clock), es);
    Reached(wf, workers, clock, es);
    if s.status[n] in {Queued, Running} { AtItsPlace(s, n); }
    if NothingDropped(Created(wf, workers, clock), es) {
      CreatedInv(wf, workers, clock, true);
      RunKeeps(Created(wf, workers, clock), es, true);
      assert s.status[n] == OnHold ==> Places(s, n) + InHand(None, n) == 1;
    }
  }

  lemma AtItsPlace(s: State, n: NodeId)
    requires Inv(s) && n in s.status && s.status[n] in {Queued, Running}
    ensures Places(s, n) == 1 && InProgress(s, n)
  {
    QueuedInProgress(s, n);
    if s.status[n] == Running {
      var i :| 0 <= i < |s.workers| && s.workers[i].workingOn == Some(n);
      OnlyThere(s, i, n);
    } else {
      assert Places(s, n) + InHand(None, n) == 1;
    }
  }

  /** A node that was never on hold runs, fails or succeeds only with its dependencies met. */
  lemma SafeDependencies(wf: Workflow, workers: seq<Worker>, clock: nat, es: seq<Event>, n: NodeId)
    requires Initial(wf, workers) && HonestRun(Created(wf, workers, clock), es) && n in wf.nodes
    requires n !in EverHeld(Created(wf, workers, clock), es)
    ensures var s := Exec(Created(wf, workers, clock), es);
            Active(s.status[n]) ==> AllMet(n, wf.nodes[n].edges, s.status, s.published)
  {
    var created := Created(wf, workers, clock);
    CreatedInv(wf, workers, clock);
    CreatedDependencies(wf, workers, clock);
    DependencySafety(created, es, EverHeld(created, es));
  }

  /** Holds included, no node runs, fails or succeeds before its dependencies are met, exactly if
      no task on hold is started early. */
  lemma SafeThroughout(wf: Workflow, workers: seq<Worker>, clock: nat, es: seq<Event>)
    requires Initial(wf, workers) && HonestRun(Created(wf, workers, clock), es)
    ensures var created := Created(wf, workers, clock); AlwaysSafe(created, es) <==> NeverStartsEarly(created, es)
  {
    CreatedInv(wf, workers, clock);
    CreatedDependencies(wf, workers, clock);
    SafeUnlessEarly(Created(wf, workers, clock), es);
  }

  /** Without hold requests the order of success is a topological order of the task
      dependencies. */
  lemma TopologicalSuccess(wf: Workflow, workers: seq<Worker>, clock: nat, es: seq<Event>)
    requires Initial(wf, workers) && HonestRun(Created(wf, workers, clock), es) && HoldFree(es)
    ensures Topological(SuccessLog(Created(wf, workers, clock), es), wf, {})
  {
    var created := Created(wf, workers, clock);
    CreatedOrder(wf, workers, clock);
    HoldFreeRun(created, es);
    SuccessOrder(created, es, [], {});
    assert [] + SuccessLog(created, es) == SuccessLog(created, es);
  }

  lemma CreatedOrder(wf: Workflow, workers: seq<Worker>, clock: nat)
    requires Initial(wf, workers)
    ensures OrderInv(Created(wf, workers, clock), [], {}) && HeldNodes(Created(wf, workers, clock)) == {}
  {
    CreatedInv(wf, workers, clock);
    CreatedDependencies(wf, workers, clock);
    forall n | n in wf.nodes { QueueOutstandingMoves(Fresh(wf, workers, clock), n); }
  }

  /** No task is started more often than its retry limit plus one, and the run makes at most
      as many status changes as the attempts and statuses left at the start allow. */
  lemma BoundedWork(wf: Workflow, workers: seq<Worker>, clock: nat, es: seq<Event>, n: NodeId)
    requires Initial(wf, workers) && HonestRun(Created(wf, workers, clock), es) && n in wf.nodes
    ensures var created := Created(wf, workers, clock);
            && Entries(NodesOf(created), RunOps(created, es), n, Running) <=
                 wf.nodes[n].task.retryPolicy.maxRetryCount + 1
            && Changes(NodesOf(created), RunOps(created, es)) <= Measure(wf, NodesOf(created), wf.order)
  {
    var created := Created(wf, workers, clock);
    CreatedInv(wf, workers, clock);
    forall k | k in wf.nodes { QueueOutstandingMoves(Fresh(wf, workers, clock), k); }
    StartsBounded(created, es, n);
    FinitelyManyChanges(created, es);
  }

  /** An accepted workflow never gets stuck: until every node has succeeded, a node is in
      the queue or with a worker, or is on hold, failed for good or canceled, or the results
      of a succeeded node are still to be published.  Each Pending node waits for such a node,
      through a path of dependencies. */
  lemma NoDeadlock(wf: Workflow, workers: seq<Worker>, clock: nat, es: seq<Event>)
    requires Initial(wf, workers) && HonestRun(Created(wf, workers, clock), es)
    requires EdgesResolved(wf) && NoSelfDependency(wf) && Acyclic(wf)
    ensures var s := Exec(Created(wf, workers, clock), es);
            || (forall n :: n in s.status ==> s.status[n] == Succeeded)
            || (exists n :: n in s.status && InProgress(s, n))
            || (exists n :: n in s.status && s.status[n] in {OnHold, Failed, Canceled})
            || !ResultsPublished(s)
    ensures var s := Exec(Created(wf, workers, clock), es);
            forall n :: n in s.status && s.status[n] == Pending ==> Waits(s, n)
  {
    var s := Exec(Created(wf, workers, clock), es);
    Reached(wf, workers, clock, es);
    NeverStuck(s);
    forall n | n in s.status && s.status[n] == Pending { PendingWaits(s, n); }
  }

  /** The same for a definition: what the parser accepts never gets stuck, unless a task
      depends on itself. */
  lemma AcceptedNeverStuck(def: WorkflowDefinition, workers: seq<Worker>, clock: nat, es: seq<Event>)
    requires AllResolved(def.tasks) && Acyclic(ParsedWorkflow(def)) && NoSelfReference(def)
    requires Idle(workers) && HonestRun(CreatedFrom(def, workers, clock), es)
    ensures var s := Exec(CreatedFrom(def, workers, clock), es);
            || (forall n :: n in s.status ==> s.status[n] == Succeeded)
            || (exists n :: n in s.status && InProgress(s, n))
            || (exists n :: n in s.status && s.status[n] in {OnHold, Failed, Canceled})
            || !ResultsPublished(s)
    ensures var s := Exec(CreatedFrom(def, workers, clock), es);
            forall n :: n in s.status && s.status[n] == Pending ==> Waits(s, n)
  {
    ParsedOrder(def);
    ParsedEdgesResolved(def);
    ParsedNoSelf(def);
    NoDeadlock(ParsedWorkflow(def), workers, clock, es);
  }
}
