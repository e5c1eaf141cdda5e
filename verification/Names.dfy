/** Process names under Go's string order, and the insertion sort the dependency graph uses. */
module Names {

  /** A process name. The wrapper keeps a list of names apart from a list of characters. */
  datatype Name = Name(text: string)

  /** Go's `<` on strings: the first differing byte decides, and a proper prefix is smaller.
      A `char` stands for one byte. */
  predicate Less(a: string, b: string) {
    LessFrom(a, b, 0)
  }

  /** The comparison from place `i` on. */
  predicate LessFrom(a: string, b: string, i: nat)
    requires i <= |a| && i <= |b|
    decreases |a| - i
  {
    i < |b| && (i == |a| || a[i] < b[i] || (a[i] == b[i] && LessFrom(a, b, i + 1)))
  }

  lemma {:induction false} LessIrreflexive(a: string, i: nat)
    requires i <= |a|
    ensures !LessFrom(a, a, i)
    decreases |a| - i
  {
    if i < |a| { LessIrreflexive(a, i + 1); }
  }

  lemma {:induction false} LessTransitive(a: string, b: string, c: string, i: nat)
    requires i <= |a| && i <= |b| && i <= |c| && LessFrom(a, b, i) && LessFrom(b, c, i)
    ensures LessFrom(a, c, i)
    decreases |a| - i
  {
    if i < |a| && a[i] == b[i] && b[i] == c[i] { LessTransitive(a, b, c, i + 1); }
  }

  lemma {:induction false} LessTotal(a: string, b: string, i: nat)
    requires i <= |a| && i <= |b| && a[..i] == b[..i]
    ensures LessFrom(a, b, i) || a == b || LessFrom(b, a, i)
    decreases |a| - i
  {
    if i < |a| && i < |b| && a[i] == b[i] {
      assert a[..i + 1] == a[..i] + [a[i]] && b[..i + 1] == b[..i] + [b[i]];
      LessTotal(a, b, i + 1);
    } else if i == |a| == |b| {
      assert a == a[..i] && b == b[..i];
    }
  }

  /** Where two strings first differ, the smaller has the smaller byte there or has ended. */
  predicate DecidedAt(a: string, b: string, k: nat) {
    k <= |a| && k < |b| && a[..k] == b[..k] && (k == |a| || a[k] < b[k])
  }

  lemma {:induction false} LessFromIff(a: string, b: string, i: nat)
    requires i <= |a| && i <= |b| && a[..i] == b[..i]
    ensures LessFrom(a, b, i) <==> exists k: nat :: i <= k && DecidedAt(a, b, k)
    decreases |a| - i
  {
    if k: nat :| i < k && DecidedAt(a, b, k) {
      assert a[..k][i] == b[..k][i];
    }
    if i < |a| && i < |b| && a[i] == b[i] {
      assert a[..i + 1] == a[..i] + [a[i]] && b[..i + 1] == b[..i] + [b[i]];
      LessFromIff(a, b, i + 1);
    } else if LessFrom(a, b, i) {
      assert DecidedAt(a, b, i);
    }
  }

  /** The order is Go's: it is decided at one place, before which the strings agree. */
  lemma LessIff(a: string, b: string)
    ensures Less(a, b) <==> exists k: nat :: DecidedAt(a, b, k)
  {
    LessFromIff(a, b, 0);
  }

  /** The order on names that the sort compares with. */
  predicate Before(a: Name, b: Name) {
    Less(a.text, b.text)
  }

  lemma BeforeTransitive(a: Name, b: Name, c: Name)
    requires Before(a, b) && Before(b, c)
    ensures Before(a, c)
  {
    LessTransitive(a.text, b.text, c.text, 0);
  }

  lemma BeforeTotal(a: Name, b: Name)
    ensures Before(a, b) || a == b || Before(b, a)
  {
    LessTotal(a.text, b.text, 0);
  }

  lemma BeforeAsymmetric(a: Name, b: Name)
    requires Before(a, b)
    ensures !Before(b, a) && a != b
  {
    LessIrreflexive(a.text, 0);
    if Before(b, a) {
      LessTransitive(a.text, b.text, a.text, 0);
    }
  }

  /** No later element is smaller than an earlier one. */
  predicate Sorted(s: seq<Name>) {
    forall i, j :: 0 <= i < j < |s| ==> !Before(s[j], s[i])
  }

  /** `key` put into `s` by scanning from the right past every larger element. */
  function Insert(s: seq<Name>, key: Name): (r: seq<Name>)
    ensures |r| == |s| + 1
  {
    if s != [] && Before(key, s[|s| - 1])
    then Insert(s[..|s| - 1], key) + [s[|s| - 1]]
    else s + [key]
  }

  function Sort(s: seq<Name>): (r: seq<Name>)
    ensures |r| == |s|
  {
    if s == [] then [] else Insert(Sort(s[..|s| - 1]), s[|s| - 1])
  }

  lemma {:induction false} InsertMultiset(s: seq<Name>, key: Name)
    ensures multiset(Insert(s, key)) == multiset(s) + multiset{key}
  {
    if s != [] && Before(key, s[|s| - 1]) {
      InsertMultiset(s[..|s| - 1], key);
      assert s == s[..|s| - 1] + [s[|s| - 1]];
    }
  }

  lemma {:induction false} InsertSorted(s: seq<Name>, key: Name)
    requires Sorted(s)
    ensures Sorted(Insert(s, key))
  {
    if s != [] && Before(key, s[|s| - 1]) {
      var last := s[|s| - 1];
      var rest := Insert(s[..|s| - 1], key);
      InsertSorted(s[..|s| - 1], key);
      InsertMultiset(s[..|s| - 1], key);
      forall i | 0 <= i < |rest| ensures !Before(last, rest[i]) {
        assert rest[i] in multiset(rest);
        BeforeAsymmetric(key, last);
      }
    } else {
      var r := s + [key];
      forall i | 0 <= i < |s| ensures !Before(key, s[i]) {
        if Before(key, s[i]) {
          // The last element is not above `key`, so it would be below s[i].
          var last := s[|s| - 1];
          BeforeTotal(last, key);
          if Before(last, key) { BeforeTransitive(last, key, s[i]); }
        }
      }
    }
  }

  /** Sorting yields a permutation in order. */
  lemma {:induction false} SortCorrect(s: seq<Name>)
    ensures Sorted(Sort(s)) && multiset(Sort(s)) == multiset(s)
  {
    if s != [] {
      var init, last := s[..|s| - 1], s[|s| - 1];
      assert multiset(s) == multiset(init) + multiset{last} by { assert s == init + [last]; }
      SortCorrect(init);
      var done := Sort(init);
      InsertSorted(done, last);
      InsertMultiset(done, last);
    }
  }

  /** The hole the scan stops at is where `Insert` puts the key. */
  lemma {:induction false} InsertAtHole(s: seq<Name>, key: Name, hole: nat)
    requires hole <= |s|
    requires forall k :: hole <= k < |s| ==> Before(key, s[k])
    requires hole > 0 ==> !Before(key, s[hole - 1])
    ensures Insert(s, key) == s[..hole] + [key] + s[hole..]
  {
    if hole < |s| {
      InsertAtHole(s[..|s| - 1], key, hole);
      assert s == s[..|s| - 1] + [s[|s| - 1]];
    }
  }

  /** What the scan leaves behind, with the key in the hole, is the insertion. */
  lemma HoleFilled(s: seq<Name>, key: Name, hole: nat, r: seq<Name>)
    requires hole <= |s| && |r| == |s| + 1
    requires forall k :: 0 <= k < hole ==> r[k] == s[k]
    requires r[hole] == key
    requires forall k :: hole < k < |r| ==> r[k] == s[k - 1]
    requires forall k :: hole <= k < |s| ==> Before(key, s[k])
    requires hole > 0 ==> !Before(key, s[hole - 1])
    ensures r == Insert(s, key)
  {
    InsertAtHole(s, key, hole);
    var t := s[..hole] + [key] + s[hole..];
    forall k | 0 <= k < |r| ensures r[k] == t[k] {}
  }

  /** One round of the insertion sort: shift larger elements right, then drop the key into the hole. */
  method InsertInPlace(nodes: array<Name>, i: nat)
    requires i < nodes.Length
    modifies nodes
    ensures nodes[..i + 1] == Insert(old(nodes[..i]), old(nodes[i]))
    ensures forall k :: i < k < nodes.Length ==> nodes[k] == old(nodes[k])
  {
    var key := nodes[i];
    ghost var s := nodes[..i];
    var j := i - 1;
    while j >= 0 && Before(key, nodes[j])
      invariant -1 <= j < i
      invariant forall k :: 0 <= k <= j ==> nodes[k] == s[k]
      invariant forall k :: j + 1 < k <= i ==> nodes[k] == s[k - 1]
      invariant forall k :: j < k < i ==> Before(key, s[k])
      invariant forall k :: i < k < nodes.Length ==> nodes[k] == old(nodes[k])
    {
      nodes[j + 1] := nodes[j];
      j := j - 1;
    }
    nodes[j + 1] := key;
    HoleFilled(s, key, j + 1, nodes[..i + 1]);
  }

  lemma SortPrefix(s: seq<Name>, i: nat)
    requires i < |s|
    ensures Sort(s[..i + 1]) == Insert(Sort(s[..i]), s[i])
  {
    assert s[..i + 1][..i] == s[..i];
  }

  /** The in-place insertion sort of the ready queue. */
  method SortAlphabetically(nodes: array<Name>)
    modifies nodes
    ensures nodes[..] == Sort(old(nodes[..]))
  {
    ghost var was := nodes[..];
    if nodes.Length == 0 { return; }
    SortPrefix(was, 0);
    var i := 1;
    while i < nodes.Length
      invariant 1 <= i <= nodes.Length
      invariant nodes[..i] == Sort(was[..i])
      invariant forall k :: i <= k < nodes.Length ==> nodes[k] == was[k]
    {
      InsertInPlace(nodes, i);
      SortPrefix(was, i);
      i := i + 1;
    }
    assert nodes[..] == nodes[..i] && was[..i] == was;
  }

  /** The sort as it is applied to a slice: on a fresh copy of its elements. */
  method SortSlice(s: seq<Name>) returns (r: seq<Name>)
    ensures r == Sort(s)
  {
    var a := new Name[|s|](i requires 0 <= i < |s| => s[i]);
    assert a[..] == s;
    SortAlphabetically(a);
    r := a[..];
  }
}
