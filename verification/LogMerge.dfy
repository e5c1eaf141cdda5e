/** Merging logs: Supervisor.GetLogs and Manager.GetStackLogs cut three times, at each writer, each
    supervisor and the whole stack. Cutting once would give the same. */
module LogMerge {
  import Digraph
  import opened TopologicalOrder
  import opened Names
  import opened Sequences
  import opened Results
  import opened LogBuffer

  predicate NewestFirst(s: seq<LogEntry>) {
    forall i, j :: 0 <= i < j < |s| ==> s[i].timestamp >= s[j].timestamp
  }

  predicate OldestFirst(s: seq<LogEntry>) {
    forall i, j :: 0 <= i < j < |s| ==> s[i].timestamp <= s[j].timestamp
  }

  function Stamps(s: seq<LogEntry>): (r: seq<int>)
    ensures |r| == |s| && forall i :: 0 <= i < |s| ==> r[i] == s[i].timestamp
  {
    seq(|s|, i requires 0 <= i < |s| => s[i].timestamp)
  }

  // ----- how many entries are as new as `x`; this determines an ordered list's timestamps

  function AsNew(s: seq<LogEntry>, x: int): nat {
    if s == [] then 0 else AsNew(s[..|s| - 1], x) + if s[|s| - 1].timestamp >= x then 1 else 0
  }

  lemma {:induction false} AsNewConcat(a: seq<LogEntry>, b: seq<LogEntry>, x: int)
    ensures AsNew(a + b, x) == AsNew(a, x) + AsNew(b, x)
  {
    if b == [] {
      assert a + b == a;
    } else {
      assert (a + b)[..|a + b| - 1] == a + b[..|b| - 1];
      AsNewConcat(a, b[..|b| - 1], x);
    }
  }

  lemma {:induction false} AsNewBound(s: seq<LogEntry>, x: int)
    ensures AsNew(s, x) <= |s|
  {
    if s != [] { AsNewBound(s[..|s| - 1], x); }
  }

  lemma {:induction false} AllAsNew(s: seq<LogEntry>, x: int)
    requires forall k :: 0 <= k < |s| ==> s[k].timestamp >= x
    ensures AsNew(s, x) == |s|
  {
    if s != [] { AllAsNew(s[..|s| - 1], x); }
  }

  lemma {:induction false} NoneAsNew(s: seq<LogEntry>, x: int)
    requires forall k :: 0 <= k < |s| ==> s[k].timestamp < x
    ensures AsNew(s, x) == 0
  {
    if s != [] { NoneAsNew(s[..|s| - 1], x); }
  }

  lemma AsNewSplit(s: seq<LogEntry>, k: nat, x: int)
    requires k <= |s|
    ensures AsNew(s, x) == AsNew(s[..k], x) + AsNew(s[k..], x)
  {
    assert s == s[..k] + s[k..];
    AsNewConcat(s[..k], s[k..], x);
  }

  /** Taking out entry `k`. */
  function Without(s: seq<LogEntry>, k: nat): seq<LogEntry>
    requires k < |s|
  {
    s[..k] + s[k + 1..]
  }

  lemma WithoutCounts(s: seq<LogEntry>, k: nat, x: int)
    requires k < |s|
    ensures AsNew(s, x) == AsNew(Without(s, k), x) + if s[k].timestamp >= x then 1 else 0
  {
    AsNewConcat(s[..k], s[k + 1..], x);
    AsNewSplit(s, k + 1, x);
    assert s[..k + 1][..k] == s[..k];
  }

  lemma WithoutMultiset(s: seq<LogEntry>, k: nat)
    requires k < |s|
    ensures multiset(Without(s, k)) == multiset(s) - multiset{s[k]}
  {
    assert s == s[..k] + [s[k]] + s[k + 1..];
  }

  /** The count does not depend on the order. */
  lemma {:induction false} AsNewPermuted(a: seq<LogEntry>, b: seq<LogEntry>, x: int)
    requires multiset(a) == multiset(b)
    ensures AsNew(a, x) == AsNew(b, x)
  {
    if a == [] {
      assert |b| == |multiset(b)|;
    } else {
      var e := a[|a| - 1];
      assert e in multiset(b);
      var k :| 0 <= k < |b| && b[k] == e;
      WithoutMultiset(a, |a| - 1);
      WithoutMultiset(b, k);
      AsNewPermuted(Without(a, |a| - 1), Without(b, k), x);
      WithoutCounts(a, |a| - 1, x);
      WithoutCounts(b, k, x);
    }
  }

  function Min(a: nat, b: nat): nat {
    if a <= b then a else b
  }

  /** Cutting a list that is ordered newest first keeps min(n, count) of the entries as new as `x`. */
  lemma AsNewFirst(s: seq<LogEntry>, n: nat, x: int)
    requires NewestFirst(s)
    ensures AsNew(First(s, n), x) == Min(n, AsNew(s, x))
  {
    AsNewBound(s, x);
    if n < |s| {
      AsNewSplit(s, n, x);
      AsNewBound(s[..n], x);
      AsNewBound(s[n..], x);
      if s[n].timestamp >= x {
        AllAsNew(s[..n], x);
      } else {
        NoneAsNew(s[n..], x);
      }
    }
  }

  lemma TailAsNew(s: seq<LogEntry>, k: nat, x: int)
    requires OldestFirst(s) && 0 < k <= |s| && s[k - 1].timestamp >= x
    ensures AsNew(s[k..], x) == |s| - k
  {
    AllAsNew(s[k..], x);
  }

  lemma HeadNotNew(s: seq<LogEntry>, k: nat, x: int)
    requires OldestFirst(s) && 0 < k <= |s| && s[k - 1].timestamp < x
    ensures AsNew(s[..k], x) == 0
  {
    NoneAsNew(s[..k], x);
  }

  /** So does keeping the end of a list that is ordered oldest first. */
  lemma AsNewLast(s: seq<LogEntry>, n: nat, x: int)
    requires OldestFirst(s)
    ensures AsNew(Last(s, n), x) == Min(n, AsNew(s, x))
  {
    if n < |s| {
      var k := |s| - n;
      AsNewSplit(s, k, x);
      if s[k - 1].timestamp >= x {
        TailAsNew(s, k, x);
      } else {
        HeadNotNew(s, k, x);
        AsNewBound(s[k..], x);
      }
    } else {
      AsNewBound(s, x);
    }
  }

  /** Ordered lists with the same counts have the same timestamps. */
  lemma CountsDetermineStamps(a: seq<LogEntry>, b: seq<LogEntry>)
    requires NewestFirst(a) && NewestFirst(b)
    requires forall x :: AsNew(a, x) == AsNew(b, x)
    ensures Stamps(a) == Stamps(b)
  {
    LengthFromCounts(a, b);
    LengthFromCounts(b, a);
    forall i | 0 <= i < |a| ensures a[i].timestamp == b[i].timestamp {
      PlaceFromCount(a, i);
      PlaceFromCount(b, i);
      assert AsNew(a, a[i].timestamp) == AsNew(b, a[i].timestamp);
      assert AsNew(a, b[i].timestamp) == AsNew(b, b[i].timestamp);
      NotHigher(a, b, i);
      NotHigher(b, a, i);
    }
  }

  /** More than `i` entries are as new as entry `i`. */
  lemma PlaceFromCount(s: seq<LogEntry>, i: nat)
    requires NewestFirst(s) && i < |s|
    ensures AsNew(s, s[i].timestamp) > i
  {
    AsNewSplit(s, i + 1, s[i].timestamp);
    AllAsNew(s[..i + 1], s[i].timestamp);
  }

  lemma NotHigher(a: seq<LogEntry>, b: seq<LogEntry>, i: nat)
    requires NewestFirst(b) && i < |a| && i < |b|
    requires AsNew(b, a[i].timestamp) > i
    ensures b[i].timestamp >= a[i].timestamp
  {
    if b[i].timestamp < a[i].timestamp {
      AsNewSplit(b, i, a[i].timestamp);
      AsNewBound(b[..i], a[i].timestamp);
      NoneAsNew(b[i..], a[i].timestamp);
    }
  }

  lemma LengthFromCounts(a: seq<LogEntry>, b: seq<LogEntry>)
    requires NewestFirst(a) && forall x :: AsNew(a, x) == AsNew(b, x)
    ensures |a| <= |b|
  {
    if a != [] {
      PlaceFromCount(a, |a| - 1);
      AsNewBound(b, a[|a| - 1].timestamp);
    }
  }

  // ----- the three levels

  /** Cutting a count: a limit that is not positive cuts nothing. */
  function Cut(limit: int, n: nat): nat {
    if limit > 0 then Min(limit, n) else n
  }

  /** Cutting early and again later is cutting once. */
  lemma CutOnce(limit: int, a: nat, b: nat, c: nat, d: nat)
    requires Cut(limit, a) == Cut(limit, b) && Cut(limit, c) == Cut(limit, d)
    ensures Cut(limit, a + c) == Cut(limit, b + d)
  {}

  /** Two lists that a cut at `limit` cannot tell apart. */
  ghost predicate SameUpTo(limit: int, a: seq<LogEntry>, b: seq<LogEntry>) {
    forall x :: Cut(limit, AsNew(a, x)) == Cut(limit, AsNew(b, x))
  }

  lemma SameConcat(limit: int, a: seq<LogEntry>, b: seq<LogEntry>, c: seq<LogEntry>, d: seq<LogEntry>)
    requires SameUpTo(limit, a, b) && SameUpTo(limit, c, d)
    ensures SameUpTo(limit, a + c, b + d)
  {
    forall x ensures Cut(limit, AsNew(a + c, x)) == Cut(limit, AsNew(b + d, x)) {
      AsNewConcat(a, c, x);
      AsNewConcat(b, d, x);
      CutOnce(limit, AsNew(a, x), AsNew(b, x), AsNew(c, x), AsNew(d, x));
    }
  }

  function Limited(s: seq<LogEntry>, limit: int): seq<LogEntry> {
    if limit > 0 then First(s, limit) else s
  }

  lemma SamePermuted(limit: int, a: seq<LogEntry>, b: seq<LogEntry>)
    requires multiset(a) == multiset(b)
    ensures SameUpTo(limit, a, b)
  {
    forall x ensures AsNew(a, x) == AsNew(b, x) { AsNewPermuted(a, b, x); }
  }

  lemma SameLimited(limit: int, s: seq<LogEntry>)
    requires NewestFirst(s)
    ensures SameUpTo(limit, Limited(s, limit), s) && NewestFirst(Limited(s, limit))
  {
    if limit > 0 {
      forall x ensures AsNew(First(s, limit), x) == Min(limit, AsNew(s, x)) { AsNewFirst(s, limit, x); }
    }
  }

  /** Lists a cut cannot tell apart have the same timestamps once sorted and cut. */
  lemma SameStamps(limit: int, a: seq<LogEntry>, b: seq<LogEntry>)
    requires NewestFirst(a) && NewestFirst(b) && SameUpTo(limit, a, b)
    ensures Stamps(Limited(a, limit)) == Stamps(Limited(b, limit))
  {
    SameLimited(limit, a);
    SameLimited(limit, b);
    var c, d := Limited(a, limit), Limited(b, limit);
    forall x ensures AsNew(c, x) == AsNew(d, x) {
      if limit > 0 {
        AsNewFirst(a, limit, x);
        AsNewFirst(b, limit, x);
      }
      assert Cut(limit, AsNew(a, x)) == Cut(limit, AsNew(b, x));
    }
    CountsDetermineStamps(c, d);
  }

  /** Go's sort.Slice promises an order and nothing about equal timestamps. */
  method SortNewestFirst(s: seq<LogEntry>) returns (r: seq<LogEntry>)
    ensures NewestFirst(r) && multiset(r) == multiset(s)
  {
    r := [];
    for i := 0 to |s|
      invariant NewestFirst(r) && multiset(r) == multiset(s[..i])
    {
      OneMore(s, i);
      r := PutIn(r, s[i]);
    }
    assert s[..|s|] == s;
  }

  lemma OneMore(s: seq<LogEntry>, i: nat)
    requires i < |s|
    ensures multiset(s[..i + 1]) == multiset(s[..i]) + multiset{s[i]}
  {
    assert s[..i + 1] == s[..i] + [s[i]];
  }

  /** One entry put into its place. */
  method PutIn(r: seq<LogEntry>, e: LogEntry) returns (t: seq<LogEntry>)
    requires NewestFirst(r)
    ensures NewestFirst(t) && multiset(t) == multiset(r) + multiset{e}
  {
    var j := |r|;
    while j > 0 && r[j - 1].timestamp < e.timestamp
      invariant 0 <= j <= |r| && forall k :: j <= k < |r| ==> r[k].timestamp < e.timestamp
    {
      j := j - 1;
    }
    WithOrdered(r, e, j);
    WithMultiset(r, e, j);
    t := With(r, e, j);
  }

  /** The list with `e` put in before place `j`. */
  function With(r: seq<LogEntry>, e: LogEntry, j: nat): (s: seq<LogEntry>)
    requires j <= |r|
    ensures |s| == |r| + 1 && s[j] == e
    ensures forall k :: 0 <= k < j ==> s[k] == r[k]
    ensures forall k :: j < k < |s| ==> s[k] == r[k - 1]
  {
    r[..j] + [e] + r[j..]
  }

  lemma WithMultiset(r: seq<LogEntry>, e: LogEntry, j: nat)
    requires j <= |r|
    ensures multiset(With(r, e, j)) == multiset(r) + multiset{e}
  {
    assert r == r[..j] + r[j..];
  }

  lemma WithOrdered(r: seq<LogEntry>, e: LogEntry, j: nat)
    requires NewestFirst(r) && j <= |r|
    requires j > 0 ==> r[j - 1].timestamp >= e.timestamp
    requires forall k :: j <= k < |r| ==> r[k].timestamp < e.timestamp
    ensures NewestFirst(With(r, e, j))
  {}

  lemma SameTransitive(limit: int, a: seq<LogEntry>, b: seq<LogEntry>, c: seq<LogEntry>)
    requires SameUpTo(limit, a, b) && SameUpTo(limit, b, c)
    ensures SameUpTo(limit, a, c)
  {
    forall x ensures Cut(limit, AsNew(a, x)) == Cut(limit, AsNew(c, x)) {
      assert Cut(limit, AsNew(a, x)) == Cut(limit, AsNew(b, x));
    }
  }

  /** `logs` has the timestamps of any way of sorting `held` newest first and cutting it once. */
  ghost predicate SortedOnce(limit: int, logs: seq<LogEntry>, held: seq<LogEntry>) {
    forall all :: NewestFirst(all) && multiset(all) == multiset(held) ==>
      Stamps(logs) == Stamps(Limited(all, limit))
  }

  lemma CutsLikeOnce(limit: int, logs: seq<LogEntry>, held: seq<LogEntry>)
    requires NewestFirst(logs) && SameUpTo(limit, logs, held)
    ensures SortedOnce(limit, Limited(logs, limit), held)
  {
    forall all | NewestFirst(all) && multiset(all) == multiset(held)
      ensures Stamps(Limited(logs, limit)) == Stamps(Limited(all, limit))
    {
      SamePermuted(limit, held, all);
      SameTransitive(limit, logs, held, all);
      SameStamps(limit, logs, all);
    }
  }

  // ----- supervisors and the stack

  /** What LogBuffer.GetAll would return for the two writers of an instance at the moment they are read;
      a stream that is switched off has no writer. */
  datatype Instance = Instance(stdout: Option<seq<LogEntry>>, stderr: Option<seq<LogEntry>>) {
    function Held(): seq<LogEntry> {
      (if stdout.Some? then stdout.value else []) + (if stderr.Some? then stderr.value else [])
    }

    /** Lines were added in the order of their timestamps. */
    predicate Orderly() {
      (stdout.Some? ==> OldestFirst(stdout.value)) && (stderr.Some? ==> OldestFirst(stderr.value))
    }
  }

  /** Everything the instances of a supervisor still hold. */
  function Holdings(instances: seq<Instance>): seq<LogEntry> {
    if instances == [] then [] else
      Holdings(instances[..|instances| - 1]) + instances[|instances| - 1].Held()
  }

  /** The line was written to one of the two streams of an instance and is still retained there. */
  predicate Retains(x: Instance, e: LogEntry) {
    (x.stdout.Some? && e in x.stdout.value) || (x.stderr.Some? && e in x.stderr.value)
  }

  /** What is held are the lines of both streams of every instance, */
  lemma {:induction false} HoldingsMean(instances: seq<Instance>, e: LogEntry)
    ensures e in Holdings(instances) <==> exists i :: 0 <= i < |instances| && Retains(instances[i], e)
  {
    if instances != [] {
      var init, last := instances[..|instances| - 1], instances[|instances| - 1];
      HoldingsMean(init, e);
      assert instances == init + [last];
      assert e in last.Held() <==> Retains(last, e);
    }
  }

  function Lines(stream: Option<seq<LogEntry>>): nat {
    if stream.None? then 0 else |stream.value|
  }

  /** each once for every time it was written. */
  lemma HeldCounts(x: Instance, e: LogEntry)
    ensures |x.Held()| == Lines(x.stdout) + Lines(x.stderr)
    ensures multiset(x.Held())[e] ==
      (if x.stdout.Some? then multiset(x.stdout.value)[e] else 0) +
      (if x.stderr.Some? then multiset(x.stderr.value)[e] else 0)
  {}

  predicate AllOrderly(instances: seq<Instance>) {
    forall i :: 0 <= i < |instances| ==> instances[i].Orderly()
  }

  /** One writer's contribution: its newest `limit` lines, as LogBuffer.GetRecent cuts them. */
  function Contribution(held: Option<seq<LogEntry>>, limit: int): seq<LogEntry> {
    if held.None? then [] else if limit > 0 then Last(held.value, limit) else held.value
  }

  lemma ContributionSame(held: Option<seq<LogEntry>>, limit: int)
    requires held.Some? ==> OldestFirst(held.value)
    ensures SameUpTo(limit, Contribution(held, limit), if held.Some? then held.value else [])
  {
    if held.Some? && limit > 0 {
      forall x ensures AsNew(Last(held.value, limit), x) == Min(limit, AsNew(held.value, x)) {
        AsNewLast(held.value, limit, x);
      }
    }
  }

  /** Supervisor.GetLogs. */
  method GetLogs(instances: seq<Instance>, limit: int) returns (logs: seq<LogEntry>)
    requires AllOrderly(instances)
    ensures NewestFirst(logs) && SameUpTo(limit, logs, Holdings(instances))
    ensures limit > 0 ==> |logs| <= limit
    ensures SortedOnce(limit, logs, Holdings(instances))
  {
    var all: seq<LogEntry> := [];
    for i := 0 to |instances|
      invariant SameUpTo(limit, all, Holdings(instances[..i]))
    {
      var inst := instances[i];
      var out, err := Contribution(inst.stdout, limit), Contribution(inst.stderr, limit);
      ContributionSame(inst.stdout, limit);
      ContributionSame(inst.stderr, limit);
      ghost var out0 := if inst.stdout.Some? then inst.stdout.value else [];
      ghost var err0 := if inst.stderr.Some? then inst.stderr.value else [];
      SameConcat(limit, out, out0, err, err0);
      SameConcat(limit, all, Holdings(instances[..i]), out + err, inst.Held());
      assert instances[..i + 1][..i] == instances[..i];
      all := all + (out + err);
    }
    assert instances[..|instances|] == instances;
    logs := SortedAndCut(all, limit, Holdings(instances));
  }

  type Stack = map<Name, seq<Instance>>

  function HeldBy(processes: Stack, n: Name): seq<LogEntry> {
    if n in processes then Holdings(processes[n]) else []
  }

  /** The lines held by the processes of a list of names. */
  function StackHoldings(processes: Stack, names: seq<Name>): seq<LogEntry> {
    if names == [] then [] else
      StackHoldings(processes, names[..|names| - 1]) + HeldBy(processes, names[|names| - 1])
  }

  /** An order in which Go may range over the map: every process once. */
  predicate IsOrder(processes: Stack, names: seq<Name>) {
    Digraph.Distinct(names) && SetOf(names) == processes.Keys
  }

  /** What a set of processes holds, counted up in some order. */
  ghost function Total(processes: Stack, names: set<Name>): multiset<LogEntry> {
    if names == {} then multiset{}
    else
      var n :| n in names;
      Total(processes, names - {n}) + multiset(HeldBy(processes, n))
  }

  /** That order does not matter. */
  lemma {:induction false} TotalWithout(processes: Stack, names: set<Name>, n: Name)
    requires n in names
    ensures Total(processes, names) == Total(processes, names - {n}) + multiset(HeldBy(processes, n))
  {
    var m :| m in names && Total(processes, names) == Total(processes, names - {m}) + multiset(HeldBy(processes, m));
    if m != n {
      TotalWithout(processes, names - {m}, n);
      TotalWithout(processes, names - {n}, m);
      assert names - {m} - {n} == names - {n} - {m};
    }
  }

  lemma {:induction false} TotalOfHoldings(processes: Stack, names: seq<Name>)
    requires Digraph.Distinct(names)
    ensures multiset(StackHoldings(processes, names)) == Total(processes, SetOf(names))
  {
    if names != [] {
      var init, n := names[..|names| - 1], names[|names| - 1];
      TotalOfHoldings(processes, init);
      assert names == init + [n];
      assert SetOf(init) == SetOf(names) - {n};
      TotalWithout(processes, SetOf(names), n);
    } else {
      assert SetOf(names) == {};
    }
  }

  /** The order in which the map is ranged over does not change what is held. */
  lemma HoldingsInAnyOrder(processes: Stack, a: seq<Name>, b: seq<Name>)
    requires IsOrder(processes, a) && IsOrder(processes, b)
    ensures multiset(StackHoldings(processes, a)) == multiset(StackHoldings(processes, b))
  {
    TotalOfHoldings(processes, a);
    TotalOfHoldings(processes, b);
  }

  /** Manager.GetStackLogs. The timestamps are those of sorting every line still held by any process and cutting once,
      in whatever order the processes are taken. A negative limit makes Go panic. */
  method GetStackLogs(processes: Stack, limit: int) returns (logs: seq<LogEntry>, ghost order: seq<Name>)
    requires limit >= 0
    requires forall n :: n in processes ==> AllOrderly(processes[n])
    ensures IsOrder(processes, order) && NewestFirst(logs) && (limit > 0 ==> |logs| <= limit)
    ensures forall any | IsOrder(processes, any) :: SortedOnce(limit, logs, StackHoldings(processes, any))
  {
    var all: seq<LogEntry> := [];
    order := [];
    var todo := processes.Keys;
    while todo != {}
      invariant todo <= processes.Keys && Digraph.Distinct(order)
      invariant SetOf(order) == processes.Keys - todo
      invariant SameUpTo(limit, all, StackHoldings(processes, order))
      decreases todo
    {
      var name :| name in todo;
      var chunk := GetLogs(processes[name], limit);
      SameConcat(limit, all, StackHoldings(processes, order), chunk, Holdings(processes[name]));
      all := all + chunk;
      assert (order + [name])[..|order|] == order && SetOf(order + [name]) == SetOf(order) + {name};
      order := order + [name];
      todo := todo - {name};
    }
    logs := SortedAndCut(all, limit, StackHoldings(processes, order));
    forall any | IsOrder(processes, any) ensures SortedOnce(limit, logs, StackHoldings(processes, any)) {
      HoldingsInAnyOrder(processes, order, any);
    }
  }

  /** The end of both functions: sort, then cut. */
  method SortedAndCut(all: seq<LogEntry>, limit: int, ghost held: seq<LogEntry>) returns (logs: seq<LogEntry>)
    requires SameUpTo(limit, all, held)
    ensures NewestFirst(logs) && SameUpTo(limit, logs, held) && SortedOnce(limit, logs, held)
    ensures limit > 0 ==> |logs| <= limit
  {
    logs := SortNewestFirst(all);
    SamePermuted(limit, logs, all);
    SameTransitive(limit, logs, all, held);
    CutsLikeOnce(limit, logs, held);
    SameLimited(limit, logs);
    SameTransitive(limit, Limited(logs, limit), logs, held);
    if limit > 0 && |logs| > limit {
      logs := logs[..limit];
    }
  }
}
