/** Depth-first cycle detection with a shared visited set and a recursion stack. */
module CycleDetector {
  import opened WorkflowTypes
  import opened DagEntities
  import opened Graphs

  datatype CycleDetectorResponse = NoCycle | HasCycle(description: string)

  type NodeArrows = set<(DagNode, DagNode)>

  // ---------------------------------------------------------------- graphs of node objects

  /** Every edge is stored at its two end nodes and nowhere else. */
  ghost predicate StoredAtEnds(nodes: seq<DagNode>)
    reads nodes
  {
    && Linked(nodes)
    && forall n, e :: n in nodes && e in n.edges ==>
         (e.from == n || e.to == n) && e in e.from.edges && e in e.to.edges
  }

  /** The edges between different nodes. */
  ghost function ArrowsOf(nodes: seq<DagNode>): NodeArrows
    reads nodes
  {
    set n, e | n in nodes && e in n.edges && e.from != e.to :: (e.from, e.to)
  }

  /** The arrows from a node are the edges stored in it that lead elsewhere. */
  ghost predicate StoresArrows(node: DagNode, nodes: seq<DagNode>, arrows: NodeArrows)
    reads node
  {
    && (forall e :: e in node.edges && e.to != node ==> e.to in nodes && (node, e.to) in arrows)
    && (forall a :: a in arrows && a.0 == node ==> exists e :: e in node.edges && e.to == a.1 && e.to != node)
  }

  lemma StoredArrows(nodes: seq<DagNode>)
    requires StoredAtEnds(nodes)
    ensures forall n :: n in nodes ==> StoresArrows(n, nodes, ArrowsOf(nodes))
    ensures forall a :: a in ArrowsOf(nodes) ==> a.0 in nodes && a.1 in nodes && a.0 != a.1
  {
    forall n | n in nodes ensures StoresArrows(n, nodes, ArrowsOf(nodes)) {
      forall a | a in ArrowsOf(nodes) && a.0 == n ensures exists e :: e in n.edges && e.to == a.1 && e.to != n {
        var m, e :| m in nodes && e in m.edges && e.from != e.to && (e.from, e.to) == a;
      }
    }
  }

  // ---------------------------------------------------------------- the search

  ghost predicate ValidSearch(visited: set<DagNode>, stack: seq<DagNode>, finished: seq<DagNode>, arrows: NodeArrows) {
    && Distinct(stack) && IsPath(stack, arrows)
    && BackwardOrder(finished, arrows)
    && visited == ToSet(stack) + ToSet(finished)
    && ToSet(stack) !! ToSet(finished)
  }

  /** The two sets of a search.  The recursion stack is kept in insertion order. */
  class Search {
    var visited: set<DagNode>
    var recursionStack: seq<DagNode>
    ghost var finished: seq<DagNode>  // in the order in which nodes left the stack

    constructor ()
      ensures visited == {} && recursionStack == [] && finished == []
    {
      visited, recursionStack, finished := {}, [], [];
    }

    ghost predicate Valid(arrows: NodeArrows)
      reads this
    {
      ValidSearch(visited, recursionStack, finished, arrows)
    }
  }

  /** The stack is a path of distinct nodes whose last node has an arrow back into it. */
  ghost predicate ClosesCycle(stack: seq<DagNode>, arrows: NodeArrows) {
    && stack != [] && IsPath(stack, arrows) && Distinct(stack)
    && exists k :: 0 <= k < |stack| && (stack[|stack| - 1], stack[k]) in arrows
  }

  lemma PushKeeps(visited: set<DagNode>, stack: seq<DagNode>, finished: seq<DagNode>, node: DagNode, arrows: NodeArrows)
    requires ValidSearch(visited, stack, finished, arrows) && node !in visited
    requires stack != [] ==> (stack[|stack| - 1], node) in arrows
    ensures ValidSearch(visited + {node}, stack + [node], finished, arrows)
  {
    assert ToSet(stack + [node]) == ToSet(stack) + {node};
    assert node !in ToSet(stack) && node !in ToSet(finished);
  }

  lemma FinishKeeps(visited: set<DagNode>, stack: seq<DagNode>, finished: seq<DagNode>, node: DagNode,
                    arrows: NodeArrows)
    requires ValidSearch(visited, stack + [node], finished, arrows)
    requires forall a :: a in arrows && a.0 == node ==> a.1 in finished
    ensures ValidSearch(visited, stack, finished + [node], arrows)
  {
    var (long, order) := (stack + [node], finished + [node]);
    assert long[|stack|] == node && forall i :: 0 <= i < |stack| ==> long[i] == stack[i];
    assert ToSet(long) == ToSet(stack) + {node};
    assert ToSet(order) == ToSet(finished) + {node};
    assert node !in ToSet(stack);
    forall j, a | 0 <= j < |order| && a in arrows && a.0 == order[j] ensures a.1 in order[..j] {
      if j < |finished| { assert order[..j] == finished[..j]; } else { assert order[..j] == finished; }
    }
  }

  lemma PrefixMembers(before: seq<DagNode>, after: seq<DagNode>)
    requires before <= after
    ensures forall n :: n in before ==> n in after
  {
    assert forall i :: 0 <= i < |before| ==> after[i] == before[i];
  }

  lemma TargetsFinished(node: DagNode, nodes: seq<DagNode>, finished: seq<DagNode>, arrows: NodeArrows)
    requires StoresArrows(node, nodes, arrows)
    requires forall j :: 0 <= j < |node.edges| && node.edges[j].to != node ==> node.edges[j].to in finished
    ensures forall a :: a in arrows && a.0 == node ==> a.1 in finished
  {
    forall a | a in arrows && a.0 == node ensures a.1 in finished {
      var e :| e in node.edges && e.to == a.1 && e.to != node;
      var j :| 0 <= j < |node.edges| && node.edges[j] == e;
      assert node.edges[j].to in finished;
    }
  }

  method IsCyclic(node: DagNode, search: Search, ghost nodes: seq<DagNode>, ghost arrows: NodeArrows)
    returns (cyclic: bool)
    requires node in nodes && forall n :: n in nodes ==> StoresArrows(n, nodes, arrows)
    requires search.Valid(arrows)
    requires search.recursionStack != [] ==> (search.recursionStack[|search.recursionStack| - 1], node) in arrows
    modifies search
    ensures cyclic ==> ClosesCycle(search.recursionStack, arrows) && old(search.recursionStack) <= search.recursionStack
    ensures cyclic && old(search.recursionStack) == [] ==> search.recursionStack[0] == node
    ensures !cyclic ==> search.Valid(arrows) && search.recursionStack == old(search.recursionStack)
    ensures !cyclic ==> old(search.visited) <= search.visited && old(search.finished) <= search.finished
    ensures !cyclic ==> node in search.finished
    decreases ToSet(nodes) - search.visited
  {
    if node in search.recursionStack {
      return true;
    }
    if node in search.visited {
      assert node in ToSet(search.finished);
      return false;
    }
    ghost var stack := search.recursionStack;
    PushKeeps(search.visited, stack, search.finished, node, arrows);
    search.visited := search.visited + {node};
    search.recursionStack := search.recursionStack + [node];
    assert StoresArrows(node, nodes, arrows);
    var i := 0;
    while i < |node.edges|
      invariant 0 <= i <= |node.edges|
      invariant search.Valid(arrows) && search.recursionStack == stack + [node]
      invariant old(search.visited) + {node} <= search.visited && old(search.finished) <= search.finished
      invariant forall j :: 0 <= j < i && node.edges[j].to != node ==> node.edges[j].to in search.finished
    {
      var edge := node.edges[i];
      if edge.to != node {
        ghost var before := search.finished;
        cyclic := IsCyclic(edge.to, search, nodes, arrows);
        if cyclic {
          return true;
        }
        PrefixMembers(before, search.finished);
      }
      i := i + 1;
    }
    TargetsFinished(node, nodes, search.finished, arrows);
    FinishKeeps(search.visited, stack, search.finished, node, arrows);
    search.recursionStack := search.recursionStack[..|search.recursionStack| - 1];
    search.finished := search.finished + [node];
    return false;
  }

  // ---------------------------------------------------------------- the response

  /** "a -> b -> ": each name with an arrow behind it. */
  function Chain(names: seq<string>): string {
    if names == [] then "" else names[0] + " -> " + Chain(names[1..])
  }

  function TaskNames(nodes: seq<DagNode>): (r: seq<string>)
    reads nodes
  {
    seq(|nodes|, i requires 0 <= i < |nodes| reads nodes => nodes[i].task.name)
  }

  /** A path whose last node leads back into it contains a cycle. */
  ghost predicate ShowsCycle(stack: seq<DagNode>, arrows: NodeArrows) {
    ClosesCycle(stack, arrows) && exists k :: 0 <= k < |stack| - 1 && IsCycle(stack[k..], arrows)
  }

  /** A path that runs into a cycle. */
  ghost predicate LeadsToCycle(p: seq<DagNode>, arrows: NodeArrows) {
    p != [] && IsPath(p, arrows) && exists k :: 0 <= k < |p| && IsCycle(p[k..], arrows)
  }

  /** No path from a finished node runs into a cycle. */
  lemma FinishedLeadsNowhere(finished: seq<DagNode>, arrows: NodeArrows, p: seq<DagNode>)
    requires BackwardOrder(finished, arrows) && p != [] && p[0] in finished
    ensures !LeadsToCycle(p, arrows)
  {
    if IsPath(p, arrows) {
      forall k | 0 <= k < |p| ensures !IsCycle(p[k..], arrows) {
        PathDescends(finished, arrows, p, k);
        OrderHasNoCycle(finished, arrows, p[k..]);
      }
    }
  }

  /** All nodes before number `root` are finished. */
  ghost predicate FinishedBefore(nodes: seq<DagNode>, root: nat, finished: seq<DagNode>, arrows: NodeArrows) {
    root < |nodes| && BackwardOrder(finished, arrows) && forall j :: 0 <= j < root ==> nodes[j] in finished
  }

  lemma EarlierLeadNowhere(nodes: seq<DagNode>, root: nat, finished: seq<DagNode>, arrows: NodeArrows)
    requires FinishedBefore(nodes, root, finished, arrows)
    ensures forall p :: LeadsToCycle(p, arrows) ==> p[0] !in nodes[..root]
  {
    forall p | LeadsToCycle(p, arrows) ensures p[0] !in nodes[..root] {
      if p[0] in nodes[..root] { FinishedLeadsNowhere(finished, arrows, p); }
    }
  }

  /** Searches from each node in turn, up to the first whose search finds a cycle. */
  method FindCycle(dag: Dag, ghost arrows: NodeArrows)
    returns (found: bool, search: Search, ghost root: nat, ghost finished: seq<DagNode>)
    requires StoredAtEnds(dag.nodes) && arrows == ArrowsOf(dag.nodes)
    ensures found ==> ClosesCycle(search.recursionStack, arrows) && FinishedBefore(dag.nodes, root, finished, arrows)
    ensures found ==> search.recursionStack[0] == dag.nodes[root]
    ensures !found ==> BackwardOrder(search.finished, arrows) && forall n :: n in dag.nodes ==> n in search.finished
  {
    search := new Search();
    StoredArrows(dag.nodes);
    var i := 0;
    root, finished := 0, [];
    while i < |dag.nodes|
      invariant 0 <= i <= |dag.nodes| && fresh(search)
      invariant search.Valid(arrows) && search.recursionStack == []
      invariant forall j :: 0 <= j < i ==> dag.nodes[j] in search.finished
    {
      root, finished := i, search.finished;
      var cyclic := IsCyclic(dag.nodes[i], search, dag.nodes, arrows);
      if cyclic {
        return true, search, root, finished;
      }
      i := i + 1;
    }
    found := false;
  }

  /** The detector answers exactly whether a cycle through at least two nodes exists.  A
      positive answer prints a path whose last node leads back into it, and which starts at the
      first node of the list from which a cycle can be reached.  The printed chain is itself a
      cycle exactly if the last node leads back to the first. */
  method HasCycles(dag: Dag, ghost arrows: NodeArrows)
    returns (r: CycleDetectorResponse, ghost stack: seq<DagNode>, ghost root: nat)
    requires StoredAtEnds(dag.nodes) && arrows == ArrowsOf(dag.nodes)
    ensures r.NoCycle? ==> forall p :: !IsCycle(p, arrows)
    ensures r.HasCycle? ==> ShowsCycle(stack, arrows) && r.description == Chain(TaskNames(stack)) + stack[0].task.name
    ensures r.HasCycle? ==> root < |dag.nodes| && stack[0] == dag.nodes[root]
    ensures r.HasCycle? ==> forall p :: LeadsToCycle(p, arrows) ==> p[0] !in dag.nodes[..root]
    ensures r.HasCycle? ==> (IsCycle(stack, arrows) <==> (stack[|stack| - 1], stack[0]) in arrows)
  {
    StoredArrows(dag.nodes);
    ghost var finished;
    var found, search;
    found, search, root, finished := FindCycle(dag, arrows);
    if !found {
      FinishedHasNoCycle(dag.nodes, search.finished, arrows);
      return NoCycle, [], 0;
    }
    var description := Describe(search.recursionStack);
    StackHasCycle(search.recursionStack, arrows);
    EarlierLeadNowhere(dag.nodes, root, finished, arrows);
    return HasCycle(description), search.recursionStack, root;
  }

  lemma FinishedHasNoCycle(nodes: seq<DagNode>, finished: seq<DagNode>, arrows: NodeArrows)
    requires BackwardOrder(finished, arrows) && forall n :: n in nodes ==> n in finished
    requires forall a :: a in arrows ==> a.0 in nodes
    ensures forall p :: !IsCycle(p, arrows)
  {
    forall p ensures !IsCycle(p, arrows) {
      if |p| >= 2 && (p[0], p[1]) in arrows {
        assert (p[0], p[1]).0 in nodes;
        OrderHasNoCycle(finished, arrows, p);
      }
    }
  }

  lemma StackHasCycle(stack: seq<DagNode>, arrows: NodeArrows)
    requires ClosesCycle(stack, arrows) && forall a :: a in arrows ==> a.0 != a.1
    ensures ShowsCycle(stack, arrows)
  {
    var k :| 0 <= k < |stack| && (stack[|stack| - 1], stack[k]) in arrows;
    assert (stack[|stack| - 1], stack[k]).0 != (stack[|stack| - 1], stack[k]).1;
    BackArrowClosesCycle(stack, k, arrows);
  }

  lemma ChainNext(done: string, names: seq<string>, i: nat)
    requires i < |names|
    ensures done + Chain(names[i..]) == done + (names[i] + " -> ") + Chain(names[i + 1..])
  {
    assert names[i..][1..] == names[i + 1..];
  }

  /** The stack's task names in insertion order, closed with the first one. */
  method Describe(stack: seq<DagNode>) returns (description: string)
    requires stack != []
    ensures description == Chain(TaskNames(stack)) + stack[0].task.name
  {
    ghost var names := TaskNames(stack);
    description := "";
    var first, firstElement := true, "";
    var i := 0;
    assert names[0..] == names;
    while i < |stack|
      invariant 0 <= i <= |stack| == |names| && first == (i == 0)
      invariant !first ==> firstElement == stack[0].task.name
      invariant Chain(names) == description + Chain(names[i..])
    {
      if first {
        firstElement := stack[i].task.name;
        first := false;
      }
      ChainNext(description, names, i);
      description := description + (stack[i].task.name + " -> ");
      i := i + 1;
    }
    description := description + firstElement;
  }
}
