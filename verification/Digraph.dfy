/** Cycles, finishing orders and topological orders of a dependency map. */
module Digraph {
  import opened Names

  /** Each name with the names it depends on, in the order they are listed. */
  type Deps = map<Name, seq<Name>>

  /** A name without an entry has no dependencies, as with a missing key of a Go map. */
  function DepsOf(g: Deps, n: Name): seq<Name> {
    if n in g then g[n] else []
  }

  predicate Distinct(s: seq<Name>) {
    forall i, j :: 0 <= i < j < |s| ==> s[i] != s[j]
  }

  /** Every element depends on the next one. */
  predicate Walk(g: Deps, p: seq<Name>) {
    forall i :: 0 < i < |p| ==> p[i] in DepsOf(g, p[i - 1])
  }

  predicate IsCycle(g: Deps, p: seq<Name>) {
    |p| >= 2 && Walk(g, p) && p[0] == p[|p| - 1]
  }

  /** A cycle that visits no node twice before it closes. */
  predicate IsSimpleCycle(g: Deps, p: seq<Name>) {
    IsCycle(g, p) && Distinct(p[1..])
  }

  ghost predicate Cyclic(g: Deps) {
    exists p :: IsCycle(g, p)
  }

  // ----- finishing orders witness that a graph has no cycle

  ghost predicate DepsBefore(g: Deps, order: seq<Name>, i: nat)
    requires i < |order|
  {
    forall d :: d in DepsOf(g, order[i]) && d in g ==> d in order[..i]
  }

  /** The defined dependencies of every listed node are listed before it. */
  ghost predicate PostOrder(g: Deps, order: seq<Name>) {
    forall i :: 0 <= i < |order| ==> DepsBefore(g, order, i)
  }

  function FirstIndex(order: seq<Name>, x: Name): (i: nat)
    requires x in order
    ensures i < |order| && order[i] == x
    ensures forall j :: 0 <= j < i ==> order[j] != x
  {
    if order[0] == x then 0 else 1 + FirstIndex(order[1..], x)
  }

  lemma FirstIndexBelow(order: seq<Name>, x: Name, i: nat)
    requires i <= |order| && x in order[..i]
    ensures x in order && FirstIndex(order, x) < i
  {
    var k :| 0 <= k < i && order[..i][k] == x;
    assert order[k] == x;
  }

  /** Along a cycle the place in a finishing order would have to fall at every step. */
  lemma {:induction false} RankFalls(g: Deps, order: seq<Name>, p: seq<Name>, k: nat)
    requires PostOrder(g, order) && (forall n :: n in g ==> n in order)
    requires IsCycle(g, p) && k < |p|
    ensures p[k] in g && p[0] in g
    ensures FirstIndex(order, p[k]) + k <= FirstIndex(order, p[0])
  {
    assert p[1] in DepsOf(g, p[0]);
    if k > 0 {
      RankFalls(g, order, p, k - 1);
      assert p[k] in DepsOf(g, p[k - 1]);
      if k + 1 < |p| { assert p[k + 1] in DepsOf(g, p[k]); }
      var i := FirstIndex(order, p[k - 1]);
      assert DepsBefore(g, order, i);
      FirstIndexBelow(order, p[k], i);
    }
  }

  lemma FinishedIsAcyclic(g: Deps, order: seq<Name>)
    requires PostOrder(g, order) && (forall n :: n in g ==> n in order)
    ensures !Cyclic(g)
  {
    if Cyclic(g) {
      var p :| IsCycle(g, p);
      RankFalls(g, order, p, |p| - 1);
    }
  }

  /** A finishing order grows by a node whose defined dependencies are all in it. */
  lemma PostOrderExtend(g: Deps, order: seq<Name>, n: Name)
    requires PostOrder(g, order)
    requires forall d :: d in DepsOf(g, n) && d in g ==> d in order
    ensures PostOrder(g, order + [n])
  {
    var longer := order + [n];
    forall i | 0 <= i < |longer| ensures DepsBefore(g, longer, i) {
      if i < |order| {
        assert DepsBefore(g, order, i);
        assert longer[..i] == order[..i];
      } else {
        assert longer[..i] == order;
      }
    }
  }
}
