/** Topological orders, the greedy construction of the least one, and the counting behind in-degrees. */
module TopologicalOrder {
  import opened Names
  import opened Digraph

  function SetOf(s: seq<Name>): set<Name> {
    set x | x in s
  }

  /** Every dependency is a node, and none is its own. */
  ghost predicate ValidDeps(g: Deps) {
    forall n, d :: n in g && d in g[n] ==> d in g && d != n
  }

  predicate NoRepeats(g: Deps) {
    forall n :: n in g ==> Distinct(g[n])
  }

  /** A permutation of the nodes with every dependency before its dependents. */
  ghost predicate IsTopological(g: Deps, t: seq<Name>) {
    && Distinct(t)
    && (forall n :: n in t <==> n in g)
    && (forall i, d :: 0 <= i < |t| && d in g[t[i]] ==> d in t[..i])
  }

  /** Lexicographic order on lists of names. */
  ghost predicate LexLeq(a: seq<Name>, b: seq<Name>) {
    a == b || exists k: nat :: DiffersAt(a, b, k) && Before(a[k], b[k])
  }

  predicate DiffersAt(a: seq<Name>, b: seq<Name>, k: nat) {
    k < |a| && k < |b| && a[k] != b[k] && forall j :: 0 <= j < k ==> a[j] == b[j]
  }

  /** The one order every run of the sort should produce. */
  ghost predicate LeastOrder(g: Deps, t: seq<Name>) {
    IsTopological(g, t) && forall u :: IsTopological(g, u) ==> LexLeq(t, u)
  }

  /** There is at most one least order, so the result cannot depend on how Go ranges over a map. */
  lemma LeastOrderUnique(g: Deps, t: seq<Name>, u: seq<Name>)
    requires LeastOrder(g, t) && LeastOrder(g, u)
    ensures t == u
  {
    if t != u {
      assert LexLeq(t, u) && LexLeq(u, t);
      var k: nat :| DiffersAt(t, u, k) && Before(t[k], u[k]);
      var m: nat :| DiffersAt(u, t, m) && Before(u[m], t[m]);
      assert k == m;
      BeforeAsymmetric(t[k], u[k]);
    }
  }

  // ----- the greedy construction

  /** Nodes still to come whose dependencies are all done. A node that lists a dependency
      twice never qualifies: Go counts the entry twice and takes it back once. */
  function Ready(g: Deps, done: set<Name>): set<Name> {
    set n | n in g && n !in done && Distinct(g[n]) && SetOf(g[n]) <= done
  }

  predicate LeastReady(g: Deps, done: set<Name>, n: Name) {
    n in Ready(g, done) && forall m :: m in Ready(g, done) ==> !Before(m, n)
  }

  /** Each element was the least ready node when it was taken. */
  predicate Greedy(g: Deps, r: seq<Name>) {
    forall k :: 0 <= k < |r| ==> LeastReady(g, SetOf(r[..k]), r[k])
  }

  predicate Closed(g: Deps, done: set<Name>) {
    forall n :: n in done ==> n in g && SetOf(g[n]) <= done
  }

  lemma GreedyExtend(g: Deps, r: seq<Name>, n: Name)
    requires Greedy(g, r) && LeastReady(g, SetOf(r), n)
    ensures Greedy(g, r + [n]) && SetOf(r + [n]) == SetOf(r) + {n}
  {
    var s := r + [n];
    forall k | 0 <= k < |s| ensures LeastReady(g, SetOf(s[..k]), s[k]) {
      if k < |r| { assert s[..k] == r[..k]; } else { assert s[..k] == r; }
    }
  }

  lemma GreedyFacts(g: Deps, r: seq<Name>)
    requires Greedy(g, r)
    ensures Distinct(r) && Closed(g, SetOf(r))
    ensures forall i, d :: 0 <= i < |r| && d in g[r[i]] ==> d in r[..i]
  {
    forall i, j | 0 <= i < j < |r| ensures r[i] != r[j] {
      assert LeastReady(g, SetOf(r[..j]), r[j]) && r[..j][i] == r[i];
    }
    forall i, d | 0 <= i < |r| && d in g[r[i]] ensures d in r[..i] {
      assert LeastReady(g, SetOf(r[..i]), r[i]);
      assert d in SetOf(g[r[i]]);
    }
  }

  /** A greedy order of all nodes is the lexicographically least topological order. */
  lemma GreedyIsLeast(g: Deps, r: seq<Name>)
    requires Greedy(g, r) && (forall n :: n in g ==> n in r)
    ensures LeastOrder(g, r)
  {
    GreedyFacts(g, r);
    forall u | IsTopological(g, u) ensures LexLeq(r, u) {
      SameLength(g, r, u);
      if r != u {
        var k := FirstDifference(r, u);
        assert LeastReady(g, SetOf(r[..k]), r[k]);
        NextIsReady(g, r, u, k);
        BeforeTotal(r[k], u[k]);
      }
    }
  }

  lemma FirstDifference(a: seq<Name>, b: seq<Name>) returns (k: nat)
    requires |a| == |b| && a != b
    ensures DiffersAt(a, b, k)
  {
    k := 0;
    while k < |a| && a[k] == b[k]
      invariant k <= |a| && forall j :: 0 <= j < k ==> a[j] == b[j]
    {
      k := k + 1;
    }
  }

  /** After a common prefix, the next node of any topological order is ready. */
  lemma NextIsReady(g: Deps, r: seq<Name>, u: seq<Name>, k: nat)
    requires Greedy(g, r) && IsTopological(g, r) && IsTopological(g, u)
    requires DiffersAt(r, u, k)
    ensures u[k] in Ready(g, SetOf(r[..k]))
  {
    assert u[k] in u && u[k] in r;
    var i :| 0 <= i < |r| && r[i] == u[k];
    assert LeastReady(g, SetOf(r[..i]), r[i]);
    assert r[..k] == u[..k];
    assert forall d :: d in g[u[k]] ==> d in u[..k];
  }

  /** `t` with the element at place `i` moved forward to place `k`. */
  function MovedForward(t: seq<Name>, k: nat, i: nat): seq<Name>
    requires k <= i < |t|
  {
    t[..k] + [t[i]] + t[k..i] + t[i + 1..]
  }

  lemma MovedElements(t: seq<Name>, k: nat, i: nat)
    requires k <= i < |t| && Distinct(t)
    ensures var u := MovedForward(t, k, i);
            |u| == |t| && Distinct(u) && forall j :: 0 <= j < |t| ==>
              u[j] == if j < k || j > i then t[j] else if j == k then t[i] else t[j - 1]
  {}

  /** What comes before place `j` afterwards. */
  lemma MovedPrefix(t: seq<Name>, k: nat, i: nat, j: nat)
    requires k <= i < |t| && j <= |t|
    ensures j <= k ==> MovedForward(t, k, i)[..j] == t[..j]
    ensures k < j <= i ==> MovedForward(t, k, i)[..j] == t[..k] + [t[i]] + t[k..j - 1]
    ensures i < j ==> MovedForward(t, k, i)[..j] == t[..k] + [t[i]] + t[k..i] + t[i + 1..j]
  {}

  lemma PrefixInPieces(t: seq<Name>, k: nat, i: nat, j: nat)
    requires k <= i < |t| && j <= |t|
    ensures k < j <= i ==> t[..j - 1] == t[..k] + t[k..j - 1]
    ensures i < j ==> t[..j] == t[..k] + t[k..i] + [t[i]] + t[i + 1..j]
  {}

  /** A dependency stays in front of its dependent. */
  lemma MovedKeepsDeps(g: Deps, t: seq<Name>, k: nat, i: nat, j: nat, d: Name)
    requires IsTopological(g, t) && k <= i < |t| && (forall x :: x in g[t[i]] ==> x in t[..k])
    requires j < |t| && MovedForward(t, k, i)[j] in g && d in g[MovedForward(t, k, i)[j]]
    ensures d in MovedForward(t, k, i)[..j]
  {
    MovedElements(t, k, i);
    MovedPrefix(t, k, i, j);
    PrefixInPieces(t, k, i, j);
    if j < k || j > i {
      assert d in t[..j];
    } else if j > k {
      assert d in t[..j - 1];
    }
  }

  /** A ready node can be taken at once: what comes later still comes after its dependencies. */
  lemma MovedIsTopological(g: Deps, t: seq<Name>, k: nat, i: nat)
    requires IsTopological(g, t) && k <= i < |t| && (forall x :: x in g[t[i]] ==> x in t[..k])
    ensures IsTopological(g, MovedForward(t, k, i))
  {
    var u := MovedForward(t, k, i);
    MovedElements(t, k, i);
    assert t == t[..k] + t[k..i] + [t[i]] + t[i + 1..];
    assert forall n :: n in u <==> n in t;
    forall j, d | 0 <= j < |u| && d in g[u[j]] ensures d in u[..j] {
      MovedKeepsDeps(g, t, k, i, j, d);
    }
  }

  /** In the least order, whatever could have been taken in a place is not smaller than what was. */
  lemma NotBeforeChosen(g: Deps, t: seq<Name>, k: nat, i: nat)
    requires LeastOrder(g, t) && k <= i < |t| && (forall x :: x in g[t[i]] ==> x in t[..k])
    ensures !Before(t[i], t[k])
  {
    LessIrreflexive(t[k].text, 0);
    if k < i {
      var u := MovedForward(t, k, i);
      MovedIsTopological(g, t, k, i);
      MovedElements(t, k, i);
      assert u[k] == t[i] != t[k];
      assert LexLeq(t, u);
      var x: nat :| DiffersAt(t, u, x) && Before(t[x], u[x]);
      assert x == k;
      BeforeAsymmetric(t[k], t[i]);
    }
  }

  lemma PlaceOf(t: seq<Name>, n: Name, k: nat) returns (i: nat)
    requires k <= |t| && n in t && n !in t[..k]
    ensures k <= i < |t| && t[i] == n
  {
    assert t == t[..k] + t[k..];
    var j :| 0 <= j < |t[k..]| && t[k..][j] == n;
    i := k + j;
  }

  /** The other direction: in the least order each element was the least ready node when its turn came. */
  lemma LeastIsGreedy(g: Deps, t: seq<Name>)
    requires NoRepeats(g) && LeastOrder(g, t)
    ensures Greedy(g, t)
  {
    forall k | 0 <= k < |t| ensures LeastReady(g, SetOf(t[..k]), t[k]) {
      assert t[k] in t && forall d :: d in g[t[k]] ==> d in t[..k];
      forall m | m in Ready(g, SetOf(t[..k])) ensures !Before(m, t[k]) {
        var i := PlaceOf(t, m, k);
        assert forall x :: x in g[m] ==> x in SetOf(g[m]);
        NotBeforeChosen(g, t, k, i);
      }
    }
  }

  /** A node that could be taken after the first `k` comes before every one of the rest that is larger byte by byte. */
  lemma SmallerFirst(g: Deps, t: seq<Name>, k: nat, i: nat, j: nat, place: nat)
    requires LeastOrder(g, t) && k <= i < |t| && k <= j < |t|
    requires forall d :: d in g[t[i]] ==> d in t[..k]
    requires DecidedAt(t[i].text, t[j].text, place)
    ensures i < j
  {
    LessIff(t[i].text, t[j].text);
    if j <= i {
      assert t[..k] == t[..j][..k];
      NotBeforeChosen(g, t, j, i);
    }
  }

  lemma SameLength(g: Deps, r: seq<Name>, u: seq<Name>)
    requires IsTopological(g, r) && IsTopological(g, u)
    ensures |r| == |u| == |g|
  {
    DistinctCount(r);
    DistinctCount(u);
    assert SetOf(r) == g.Keys && SetOf(u) == g.Keys;
  }

  // ----- counting

  lemma {:induction false} DistinctCount(s: seq<Name>)
    ensures |SetOf(s)| <= |s|
    ensures |SetOf(s)| == |s| <==> Distinct(s)
  {
    if s != [] {
      var init, last := s[..|s| - 1], s[|s| - 1];
      DistinctCount(init);
      assert SetOf(s) == SetOf(init) + {last} by { assert s == init + [last]; }
      if last in init {
        var i :| 0 <= i < |init| && init[i] == last;
        assert s[i] == s[|init|];
      } else {
        assert |SetOf(s)| == |SetOf(init)| + 1;
        assert Distinct(init) ==> Distinct(s);
      }
    }
  }

  /** Distinctness and the set of elements survive sorting. */
  lemma PermutationKeeps(a: seq<Name>, b: seq<Name>)
    requires multiset(a) == multiset(b) && Distinct(a)
    ensures Distinct(b) && SetOf(b) == SetOf(a)
  {
    assert forall x :: x in a <==> x in multiset(a);
    assert forall x :: x in b <==> x in multiset(b);
    assert SetOf(a) == SetOf(b);
    assert |a| == |multiset(a)| && |b| == |multiset(b)|;
    DistinctCount(a);
    DistinctCount(b);
  }

  /** What `inDegree[n]` holds once `done` has been handled. */
  function Remaining(g: Deps, n: Name, done: set<Name>): int
    requires n in g
  {
    |g[n]| - |SetOf(g[n]) * done|
  }

  lemma RemainingStep(g: Deps, n: Name, done: set<Name>, node: Name)
    requires n in g && node !in done
    ensures Remaining(g, n, done + {node}) == Remaining(g, n, done) - (if node in g[n] then 1 else 0)
  {
    var s := SetOf(g[n]);
    if node in g[n] {
      assert s * (done + {node}) == s * done + {node};
    } else {
      assert s * (done + {node}) == s * done;
    }
  }

  lemma SubsetCount(a: set<Name>, b: set<Name>)
    requires a <= b
    ensures |a| <= |b| && (|a| == |b| <==> a == b)
  {
    assert b == a + (b - a);
  }

  lemma RemainingZero(g: Deps, n: Name, done: set<Name>)
    requires n in g
    ensures Remaining(g, n, done) == 0 <==> Distinct(g[n]) && SetOf(g[n]) <= done
  {
    var s := SetOf(g[n]);
    DistinctCount(g[n]);
    SubsetCount(s * done, s);
    assert s * done == s <==> s <= done;
  }

  // ----- when the greedy construction reaches every node

  /** Without repeats, a finishing order shows that no node is ever stuck. */
  lemma {:induction false} NothingStuck(g: Deps, r: seq<Name>, order: seq<Name>, i: nat)
    requires ValidDeps(g) && NoRepeats(g) && PostOrder(g, order)
    requires Ready(g, SetOf(r)) == {} && i <= |order|
    ensures forall n :: n in order[..i] && n in g ==> n in r
  {
    if i > 0 {
      NothingStuck(g, r, order, i - 1);
      var n := order[i - 1];
      assert order[..i] == order[..i - 1] + [n];
      assert DepsBefore(g, order, i - 1);
      if n in g && n !in r {
        assert SetOf(g[n]) <= SetOf(r);
        assert n in Ready(g, SetOf(r));
      }
    }
  }

  /** The drained order is complete exactly when no list names a dependency twice. */
  lemma CompleteIffNoRepeats(g: Deps, r: seq<Name>, order: seq<Name>)
    requires ValidDeps(g) && PostOrder(g, order) && (forall n :: n in g ==> n in order)
    requires Greedy(g, r) && Ready(g, SetOf(r)) == {}
    ensures |r| == |g| <==> NoRepeats(g)
    ensures |r| == |g| ==> forall n :: n in g ==> n in r
  {
    GreedyFacts(g, r);
    DistinctCount(r);
    assert SetOf(r) <= g.Keys;
    if |r| == |g| {
      SubsetCount(SetOf(r), g.Keys);
      assert forall n :: n in g ==> n in SetOf(r);
      forall n | n in g ensures Distinct(g[n]) {
        var k :| 0 <= k < |r| && r[k] == n;
        assert LeastReady(g, SetOf(r[..k]), r[k]);
      }
    }
    if NoRepeats(g) {
      NothingStuck(g, r, order, |order|);
      assert order[..|order|] == order;
      assert SetOf(r) == g.Keys;
    }
  }
}
