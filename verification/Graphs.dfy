/** Finite directed graphs without self-loops, as sets of arrows. */
module Graphs {
  import opened WorkflowTypes

  ghost predicate IsPath<T>(p: seq<T>, arrows: set<(T, T)>) {
    forall i :: 0 <= i < |p| - 1 ==> (p[i], p[i + 1]) in arrows
  }

  /** A closed walk through at least two nodes. */
  ghost predicate IsCycle<T>(p: seq<T>, arrows: set<(T, T)>) {
    |p| >= 2 && IsPath(p, arrows) && (p[|p| - 1], p[0]) in arrows
  }

  /** Every arrow from a node of the order leads to an earlier node. */
  ghost predicate BackwardOrder<T>(order: seq<T>, arrows: set<(T, T)>) {
    forall j, a :: 0 <= j < |order| && a in arrows && a.0 == order[j] ==> a.1 in order[..j]
  }

  ghost function First<T>(order: seq<T>, x: T): (k: nat)
    requires x in order
    ensures k < |order| && order[k] == x && x !in order[..k]
  {
    if order[0] == x then 0
    else
      var k := First(order[1..], x);
      assert order[..k + 1] == [order[0]] + order[1..][..k];
      1 + k
  }

  lemma {:induction false} FirstIsFirst<T>(order: seq<T>, i: nat)
    requires i < |order|
    ensures First(order, order[i]) <= i
  {
    if order[0] != order[i] { FirstIsFirst(order[1..], i - 1); }
  }

  lemma ArrowDescends<T>(order: seq<T>, arrows: set<(T, T)>, a: T, b: T)
    requires BackwardOrder(order, arrows) && (a, b) in arrows && a in order
    ensures b in order && First(order, b) < First(order, a)
  {
    var j := First(order, a);
    assert (a, b).1 in order[..j];
    var i :| 0 <= i < |order[..j]| && order[..j][i] == b;
    assert order[i] == b;
    FirstIsFirst(order, i);
  }

  lemma {:induction false} PathDescends<T>(order: seq<T>, arrows: set<(T, T)>, p: seq<T>, k: nat)
    requires BackwardOrder(order, arrows) && IsPath(p, arrows) && k < |p| && p[0] in order
    ensures p[k] in order && First(order, p[k]) <= First(order, p[0]) - k
  {
    if k > 0 {
      PathDescends(order, arrows, p, k - 1);
      ArrowDescends(order, arrows, p[k - 1], p[k]);
    }
  }

  /** No cycle touches the nodes of a backward order. */
  lemma OrderHasNoCycle<T>(order: seq<T>, arrows: set<(T, T)>, p: seq<T>)
    requires BackwardOrder(order, arrows) && p != [] && p[0] in order
    ensures !IsCycle(p, arrows)
  {
    if IsCycle(p, arrows) {
      PathDescends(order, arrows, p, |p| - 1);
      ArrowDescends(order, arrows, p[|p| - 1], p[0]);
    }
  }

  /** An arrow from the last node of a path back to one of its nodes closes a cycle. */
  lemma BackArrowClosesCycle<T>(p: seq<T>, k: nat, arrows: set<(T, T)>)
    requires IsPath(p, arrows) && k < |p| - 1 && (p[|p| - 1], p[k]) in arrows
    ensures IsCycle(p[k..], arrows)
  {
    var c := p[k..];
    assert forall i :: 0 <= i < |c| ==> c[i] == p[i + k];
  }

  // ---------------------------------------------------------------- descent

  lemma {:induction false} DistinctFits<T>(p: seq<T>, universe: set<T>)
    requires Distinct(p) && forall x :: x in p ==> x in universe
    ensures |p| <= |universe|
    decreases p
  {
    if p != [] {
      forall x | x in p[1..] ensures x in universe - {p[0]} {
        var k :| 0 <= k < |p[1..]| && p[1..][k] == x;
        assert p[k + 1] == x && p[0] != p[k + 1];
      }
      assert p[0] in p;
      DistinctFits(p[1..], universe - {p[0]});
    }
  }

  ghost predicate HasPredecessor<T>(x: T, nodes: set<T>, arrows: set<(T, T)>) {
    exists y :: y in nodes && y != x && (y, x) in arrows
  }

  /** Every node of the set has an arrow from another node of the set. */
  ghost predicate Ungrounded<T>(nodes: set<T>, arrows: set<(T, T)>) {
    && nodes != {}
    && forall x {:trigger HasPredecessor(x, nodes, arrows)} :: x in nodes ==> HasPredecessor(x, nodes, arrows)
  }

  /** Going back from the head of a path to a node of the path closes a cycle. */
  lemma ClosesBack<T>(arrows: set<(T, T)>, p: seq<T>, k: nat)
    requires 0 < k < |p| && (p[k], p[0]) in arrows && IsPath(p, arrows)
    ensures IsCycle(p[..k + 1], arrows)
  {
    var c := p[..k + 1];
    assert forall i :: 0 <= i < |c| ==> c[i] == p[i];
  }

  lemma {:induction false} GoesBack<T>(nodes: set<T>, arrows: set<(T, T)>, p: seq<T>) returns (c: seq<T>)
    requires Ungrounded(nodes, arrows) && p != [] && Distinct(p) && IsPath(p, arrows)
    requires forall x :: x in p ==> x in nodes
    ensures IsCycle(c, arrows)
    decreases |nodes| + 1 - |p|
  {
    DistinctFits(p, nodes);
    assert p[0] in p && HasPredecessor(p[0], nodes, arrows);
    var y :| y in nodes && y != p[0] && (y, p[0]) in arrows;
    if y in p {
      var k :| 0 <= k < |p| && p[k] == y;
      ClosesBack(arrows, p, k);
      c := p[..k + 1];
    } else {
      var longer := [y] + p;
      assert forall i :: 0 <= i < |p| ==> longer[i + 1] == p[i];
      c := GoesBack(nodes, arrows, longer);
    }
  }

  /** Finite descent: a set in which every node has a predecessor contains a cycle. */
  lemma UngroundedHasCycle<T>(nodes: set<T>, arrows: set<(T, T)>) returns (c: seq<T>)
    requires Ungrounded(nodes, arrows)
    ensures IsCycle(c, arrows)
  {
    var x :| x in nodes;
    c := GoesBack(nodes, arrows, [x]);
  }
}
