/** A DAG whose reported cycle closes on a node that lies on no cycle. */
module CycleWitness {
  import opened WorkflowTypes
  import opened DagEntities
  import opened Graphs
  import opened CycleDetector

  /** The arrows of a node that leads into a cycle of two others. */
  ghost predicate LeadsIn(x: DagNode, a: DagNode, b: DagNode, arrows: NodeArrows) {
    x != a && a != b && b != x && arrows == {(x, a), (a, b), (b, a)}
  }

  lemma CycleOfTwo(x: DagNode, a: DagNode, b: DagNode, arrows: NodeArrows)
    requires LeadsIn(x, a, b, arrows)
    ensures IsCycle([a, b], arrows) && LeadsToCycle([x, a, b], arrows)
  {
    assert [x, a, b][1..] == [a, b];
  }

  /** The first node is on no cycle: no arrow leads to it. */
  lemma EntryOnNoCycle(x: DagNode, a: DagNode, b: DagNode, arrows: NodeArrows, p: seq<DagNode>)
    requires LeadsIn(x, a, b, arrows) && IsCycle(p, arrows)
    ensures x !in p
  {
    forall i | 0 <= i < |p| ensures p[i] != x {
      if i > 0 { assert (p[i - 1], p[i - 1 + 1]) in arrows; }
    }
  }

  /** A search from the first node stops with all three nodes on its stack. */
  lemma StackIsAll(x: DagNode, a: DagNode, b: DagNode, arrows: NodeArrows, stack: seq<DagNode>)
    requires LeadsIn(x, a, b, arrows) && ClosesCycle(stack, arrows) && stack[0] == x
    ensures stack == [x, a, b]
  {
    if |stack| > 1 { assert (stack[0], stack[0 + 1]) in arrows; }
    if |stack| > 2 { assert (stack[1], stack[1 + 1]) in arrows; }
  }

  lemma NamesOfThree(x: DagNode, a: DagNode, b: DagNode)
    requires x.task.name == "X" && a.task.name == "A" && b.task.name == "B"
    ensures Chain(TaskNames([x, a, b])) + x.task.name == "X -> A -> B -> X"
  {
    var names := TaskNames([x, a, b]);
    assert names == ["X", "A", "B"] && names[1..] == ["A", "B"] && names[1..][1..] == ["B"]
           && names[1..][1..][1..] == [];
    assert Chain(names[1..][1..]) == "B -> ";
    assert Chain(names[1..]) == "A -> B -> ";
    assert Chain(names) == "X -> A -> B -> ";
  }

  /** X leads to A, and A and B lead to each other; each edge is stored at both ends. */
  ghost predicate Three(x: DagNode, a: DagNode, b: DagNode)
    reads x, a, b
  {
    && x != a && a != b && b != x
    && x.task.name == "X" && a.task.name == "A" && b.task.name == "B"
    && x.edges == [Edge(x, a)] && a.edges == [Edge(x, a), Edge(a, b), Edge(b, a)] && b.edges == [Edge(a, b), Edge(b, a)]
  }

  function Edge(from: DagNode, to: DagNode): DagEdge {
    DagEdge(from, to, TaskType, None)
  }

  lemma ThreeStored(x: DagNode, a: DagNode, b: DagNode)
    requires Three(x, a, b)
    ensures StoredAtEnds([x, a, b])
  {
    assert Edge(x, a) in x.edges && Edge(x, a) == a.edges[0];
    assert Edge(a, b) == a.edges[1] && Edge(a, b) == b.edges[0];
    assert Edge(b, a) == a.edges[2] && Edge(b, a) == b.edges[1];
  }

  lemma ThreeArrows(x: DagNode, a: DagNode, b: DagNode)
    requires Three(x, a, b)
    ensures LeadsIn(x, a, b, ArrowsOf([x, a, b]))
  {
    var (nodes, arrows) := ([x, a, b], ArrowsOf([x, a, b]));
    assert nodes[0] == x && nodes[1] == a && nodes[2] == b;
    assert x.edges[0] in x.edges && a.edges[1] in a.edges && b.edges[1] in b.edges;
    assert (x, a) in arrows && (a, b) in arrows && (b, a) in arrows;
    forall r | r in arrows ensures r in {(x, a), (a, b), (b, a)} {
      var n, e :| n in nodes && e in n.edges && e.from != e.to && (e.from, e.to) == r;
    }
  }

  method LinkThree(task: Task) returns (x: DagNode, a: DagNode, b: DagNode)
    ensures Three(x, a, b)
  {
    x := new DagNode("x", task.(name := "X"));
    a := new DagNode("a", task.(name := "A"));
    b := new DagNode("b", task.(name := "B"));
    x.edges := [Edge(x, a)];
    a.edges := [Edge(x, a), Edge(a, b), Edge(b, a)];
    b.edges := [Edge(a, b), Edge(b, a)];
  }

  /** What a stack that leads in says about the answer. */
  lemma ChainMisleads(x: DagNode, a: DagNode, b: DagNode, arrows: NodeArrows, stack: seq<DagNode>)
    requires x.task.name == "X" && a.task.name == "A" && b.task.name == "B"
    requires LeadsIn(x, a, b, arrows) && ClosesCycle(stack, arrows) && stack[0] == x
    ensures Chain(TaskNames(stack)) + stack[0].task.name == "X -> A -> B -> X"
  {
    StackIsAll(x, a, b, arrows, stack);
    NamesOfThree(x, a, b);
  }

  /** The search starts at the entry, from which the cycle can be reached. */
  lemma StartsAtEntry(x: DagNode, a: DagNode, b: DagNode, arrows: NodeArrows, root: nat)
    requires LeadsIn(x, a, b, arrows) && root < 3
    requires forall p :: LeadsToCycle(p, arrows) ==> p[0] !in [x, a, b][..root]
    ensures root == 0
  {
    CycleOfTwo(x, a, b, arrows);
  }

  method AnswerForThree(dag: Dag, x: DagNode, a: DagNode, b: DagNode, ghost arrows: NodeArrows)
    returns (r: CycleDetectorResponse)
    requires dag.nodes == [x, a, b] && StoredAtEnds(dag.nodes) && arrows == ArrowsOf(dag.nodes)
    requires x.task.name == "X" && a.task.name == "A" && b.task.name == "B" && LeadsIn(x, a, b, arrows)
    ensures r == HasCycle("X -> A -> B -> X")
  {
    ghost var stack, root;
    r, stack, root := HasCycles(dag, arrows);
    CycleOfTwo(x, a, b, arrows);
    StartsAtEntry(x, a, b, arrows, root);
    ChainMisleads(x, a, b, arrows, stack);
  }

  /** The printed chain need not be a cycle, nor its first task part of one. */
  method MisleadingDescription(task: Task) returns (dag: Dag, r: CycleDetectorResponse)
    ensures StoredAtEnds(dag.nodes) && dag.nodes != [] && dag.nodes[0].task.name == "X"
    ensures r == HasCycle("X -> A -> B -> X")
    ensures forall p :: IsCycle(p, ArrowsOf(dag.nodes)) ==> dag.nodes[0] !in p
  {
    var x, a, b := LinkThree(task);
    dag := Dag("d", [x, a, b], "w");
    ThreeStored(x, a, b);
    ThreeArrows(x, a, b);
    ghost var arrows := ArrowsOf(dag.nodes);
    r := AnswerForThree(dag, x, a, b, arrows);
    forall p | IsCycle(p, arrows) ensures x !in p { EntryOnNoCycle(x, a, b, arrows, p); }
  }
}
