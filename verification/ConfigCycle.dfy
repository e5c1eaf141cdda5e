/** The second cycle check, checkCircularDependencies and hasCycle of internal/config/config.go. */
module ConfigCycle {
  import opened Names
  import opened Digraph
  import CycleSearch

  /** `n` lists `d` in place `i`. */
  predicate ListsAt(g: Deps, n: Name, i: nat, d: Name) {
    n in g && i < |g[n]| && g[n][i] == d
  }

  /** Two different places of the configuration name the same process, which is not defined. */
  ghost predicate UndefinedTwice(g: Deps) {
    exists d, n, i: nat, m, j: nat ::
      d !in g && ListsAt(g, n, i, d) && ListsAt(g, m, j, d) && (n, i) != (m, j)
  }

  ghost predicate AllDefined(g: Deps) {
    forall n, d :: n in g && d in g[n] ==> d in g
  }

  // ----- the entries scanned so far: the first progress[n] of the list of n

  predicate Scanned(g: Deps, progress: map<Name, nat>, n: Name, i: nat, d: Name) {
    ListsAt(g, n, i, d) && n in progress && i < progress[n]
  }

  /** The undefined names met so far, each with the only place scanned so far that lists it. */
  ghost predicate MetOnce(g: Deps, progress: map<Name, nat>, met: map<Name, (Name, nat)>) {
    && (forall n, i: nat, d :: Scanned(g, progress, n, i, d) && d !in g ==> d in met && met[d] == (n, i))
    && (forall d :: d in met ==> d !in g && Scanned(g, progress, met[d].0, met[d].1, d))
  }

  lemma MetStart(g: Deps, progress: map<Name, nat>, met: map<Name, (Name, nat)>, n: Name)
    requires MetOnce(g, progress, met) && n !in progress
    ensures MetOnce(g, progress[n := 0], met)
  {
    var next := progress[n := 0];
    assert forall m, j: nat, e :: Scanned(g, next, m, j, e) ==> Scanned(g, progress, m, j, e);
  }

  /** Scanning one more entry: a defined name changes nothing, an undefined one must be new. */
  lemma MetAdvance(g: Deps, progress: map<Name, nat>, met: map<Name, (Name, nat)>, n: Name, i: nat, d: Name)
    requires MetOnce(g, progress, met) && ListsAt(g, n, i, d)
    requires n in progress && progress[n] == i && d !in met
    ensures MetOnce(g, progress[n := i + 1], if d in g then met else met[d := (n, i)])
  {
    var next := progress[n := i + 1];
    assert forall m, j: nat, e ::
      Scanned(g, next, m, j, e) ==> Scanned(g, progress, m, j, e) || (m == n && j == i && e == d);
  }

  lemma MetAll(g: Deps, progress: map<Name, nat>, met: map<Name, (Name, nat)>)
    requires MetOnce(g, progress, met)
    requires forall n :: n in g ==> n in progress && progress[n] == |g[n]|
    ensures !UndefinedTwice(g)
  {
    forall n, i: nat, d | ListsAt(g, n, i, d) && d !in g ensures d in met && met[d] == (n, i) {
      assert Scanned(g, progress, n, i, d);
    }
  }

  /** An undefined name met again at a place not yet scanned. */
  lemma MetAgain(g: Deps, progress: map<Name, nat>, met: map<Name, (Name, nat)>, n: Name, i: nat, d: Name)
    requires MetOnce(g, progress, met) && ListsAt(g, n, i, d)
    requires n in progress && progress[n] == i && d in met
    ensures UndefinedTwice(g)
  {
    assert Scanned(g, progress, met[d].0, met[d].1, d);
  }

  predicate Extends(after: map<Name, nat>, before: map<Name, nat>) {
    forall x :: x in before ==> x in after && after[x] == before[x]
  }

  lemma ExtendsStep(start: map<Name, nat>, mid: map<Name, nat>, after: map<Name, nat>, name: Name, i: nat)
    requires Extends(mid, start[name := i]) && Extends(after, mid[name := i + 1])
    ensures Extends(after, start[name := i + 1])
  {
    assert start[name := i].Keys == start.Keys + {name};
  }

  lemma ExtendsThrough(start: map<Name, nat>, after: map<Name, nat>, name: Name, n: nat)
    requires name !in start && Extends(after, start[name := 0][name := n])
    ensures Extends(after, start)
  {
    assert forall x :: x in start ==> x in start[name := 0][name := n];
  }

  predicate DefinedIn(g: Deps, names: seq<Name>, finished: seq<Name>) {
    forall d :: d in names && d in g ==> d in finished
  }

  /** The names on the recursion stack are defined, not finished, and each depends on the next. */
  predicate Stacked(g: Deps, stack: seq<Name>, finished: seq<Name>) {
    Distinct(stack) && Walk(g, stack) && forall x | x in stack :: x in g && x !in finished
  }

  /** What the two maps of the search say; an undefined name that was met stays on `recStack`. */
  predicate Coloured(visited: set<Name>, recStack: set<Name>, stack: seq<Name>, finished: seq<Name>,
                     met: map<Name, (Name, nat)>)
  {
    && recStack == (set x | x in stack) + met.Keys
    && visited == (set x | x in stack) + (set x | x in finished) + met.Keys
  }

  /** Finished names are defined and scanned to the end. */
  predicate Progressed(g: Deps, visited: set<Name>, finished: seq<Name>, progress: map<Name, nat>,
                       met: map<Name, (Name, nat)>)
  {
    && progress.Keys == visited - met.Keys
    && forall x | x in finished :: x in g && x in progress && progress[x] == |g[x]|
  }

  lemma PopColours(visited: set<Name>, recStack: set<Name>, below: seq<Name>, finished: seq<Name>,
                   met: map<Name, (Name, nat)>, name: Name)
    requires Coloured(visited, recStack, below + [name], finished, met) && name !in below && name !in met
    ensures Coloured(visited, recStack - {name}, below, finished + [name], met)
  {
    assert forall x :: x in below + [name] <==> x in below || x == name;
    assert forall x :: x in finished + [name] <==> x in finished || x == name;
  }

  lemma PushColours(visited: set<Name>, recStack: set<Name>, stack: seq<Name>, finished: seq<Name>,
                    met: map<Name, (Name, nat)>, name: Name)
    requires Coloured(visited, recStack, stack, finished, met)
    ensures Coloured(visited + {name}, recStack + {name}, stack + [name], finished, met)
  {
    assert forall x :: x in stack + [name] <==> x in stack || x == name;
  }

  lemma PushStack(g: Deps, stack: seq<Name>, finished: seq<Name>, name: Name)
    requires Stacked(g, stack, finished) && name in g && name !in stack && name !in finished
    requires stack != [] ==> name in DepsOf(g, stack[|stack| - 1])
    ensures Stacked(g, stack + [name], finished)
  {}

  lemma PushProgress(g: Deps, visited: set<Name>, finished: seq<Name>, progress: map<Name, nat>,
                     met: map<Name, (Name, nat)>, name: Name)
    requires Progressed(g, visited, finished, progress, met) && name !in visited && name !in met && name !in finished
    ensures name !in progress && Progressed(g, visited + {name}, finished, progress[name := 0], met)
  {
    assert progress[name := 0].Keys == progress.Keys + {name};
  }

  lemma PopProgress(g: Deps, visited: set<Name>, finished: seq<Name>, progress: map<Name, nat>,
                    met: map<Name, (Name, nat)>, name: Name)
    requires Progressed(g, visited, finished, progress, met)
    requires name in g && name in progress && progress[name] == |g[name]|
    ensures Progressed(g, visited, finished + [name], progress, met)
  {}

  lemma PopStack(g: Deps, below: seq<Name>, finished: seq<Name>, name: Name)
    requires Stacked(g, below + [name], finished)
    ensures name !in below && Stacked(g, below, finished + [name])
  {
    var stack := below + [name];
    assert below == stack[..|below|] && stack[|below|] == name;
    forall x | x in below ensures x in g && x !in finished + [name] { assert x in stack; }
  }

  class Search {
    var visited: set<Name>
    var recStack: set<Name>
    ghost var stack: seq<Name>
    ghost var finished: seq<Name>
    ghost var progress: map<Name, nat>
    ghost var met: map<Name, (Name, nat)>

    ghost predicate Valid(g: Deps)
      reads this
    {
      && Stacked(g, stack, finished)
      && Coloured(visited, recStack, stack, finished, met)
      && Progressed(g, visited, finished, progress, met)
      && visited <= CycleSearch.Universe(g)
      && PostOrder(g, finished)
      && MetOnce(g, progress, met)
    }

    constructor ()
      ensures stack == [] && finished == []
      ensures forall g :: Valid(g)
    {
      visited, recStack := {}, {};
      stack, finished, progress, met := [], [], map[], map[];
    }

    /** Go's hasCycle. An undefined name is left on `recStack` for good. */
    method HasCycle(g: Deps, name: Name) returns (found: bool)
      requires Valid(g) && name in CycleSearch.Universe(g) && name !in visited
      requires name in g && stack != [] ==> name in DepsOf(g, stack[|stack| - 1])
      modifies this
      ensures found ==> Cyclic(g) || UndefinedTwice(g)
      ensures name !in g ==> !found && visited == old(visited) + {name} && recStack == old(recStack) + {name}
      ensures name !in g ==> unchanged(`stack) && unchanged(`finished) && unchanged(`progress) && unchanged(`met)
      ensures name in g && !found ==> Valid(g) && stack == old(stack) && name in finished
      ensures name in g && !found ==> old(visited) <= visited && old(finished) <= finished
      ensures name in g && !found ==> Extends(progress, old(progress))
      decreases CycleSearch.Universe(g) - visited, 1
    {
      if name !in g {
        Mark(name);
        return false;
      }
      found := Defined(g, name);
    }

    /** The search from a name that is defined. */
    method Defined(g: Deps, name: Name) returns (found: bool)
      requires Valid(g) && name in g && name !in visited
      requires stack != [] ==> name in DepsOf(g, stack[|stack| - 1])
      modifies this
      ensures found ==> Cyclic(g) || UndefinedTwice(g)
      ensures !found ==> Valid(g) && stack == old(stack) && name in finished
      ensures !found ==> old(visited) <= visited && old(finished) <= finished && Extends(progress, old(progress))
      decreases CycleSearch.Universe(g) - visited, 0
    {
      ghost var below, start, known := stack, progress, finished;
      Push(g, name);
      found := Entries(g, name, below);
      if found { return; }
      ExtendsThrough(start, progress, name, |g[name]|);
      Pop(g, name, below);
      return false;
    }

    method Mark(name: Name)
      modifies `visited, `recStack
      ensures visited == old(visited) + {name} && recStack == old(recStack) + {name}
    {
      visited, recStack := visited + {name}, recStack + {name};
    }

    /** The loop over the dependencies. */
    method Entries(g: Deps, name: Name, ghost below: seq<Name>) returns (found: bool)
      requires Valid(g) && name in g && stack == below + [name]
      requires name in progress && progress[name] == 0
      modifies this
      ensures found ==> Cyclic(g) || UndefinedTwice(g)
      ensures !found ==> Valid(g) && stack == below + [name]
      ensures !found ==> old(visited) <= visited && old(finished) <= finished
      ensures !found ==> Extends(progress, old(progress)[name := |g[name]|])
      ensures !found ==> DefinedIn(g, g[name], finished)
      decreases CycleSearch.Universe(g) - visited, 3
    {
      ghost var start, known := progress, finished;
      var deps := g[name];
      for i := 0 to |deps|
        invariant Valid(g) && stack == below + [name]
        invariant old(visited) <= visited && known <= finished
        invariant Extends(progress, start[name := i])
        invariant DefinedIn(g, deps[..i], finished)
      {
        assert deps[..i + 1] == deps[..i] + [deps[i]];
        assert start[name := i][name] == i;
        ghost var before := progress;
        found := Entry(g, name, i, below);
        if found { return; }
        ExtendsStep(start, before, progress, name, i);
      }
      assert deps[..|deps|] == deps;
      return false;
    }

    /** One turn of the loop over the dependencies. */
    method Entry(g: Deps, name: Name, i: nat, ghost below: seq<Name>) returns (found: bool)
      requires Valid(g) && stack == below + [name] && i < |g[name]|
      requires name in progress && progress[name] == i
      modifies this
      ensures found ==> Cyclic(g) || UndefinedTwice(g)
      ensures !found ==> Valid(g) && stack == old(stack) && old(visited) <= visited
      ensures !found ==> old(finished) <= finished
      ensures !found ==> Extends(progress, old(progress)[name := i + 1])
      ensures !found && g[name][i] in g ==> g[name][i] in finished
      decreases CycleSearch.Universe(g) - visited, 2
    {
      var dep := g[name][i];
      assert dep in g[name] && ListsAt(g, name, i, dep);
      if dep !in visited {
        found := HasCycle(g, dep);
        if found { return; }
      } else if dep in recStack {
        Report(g, name, i, dep);
        return true;
      }
      MetAdvance(g, progress, met, name, i, dep);
      progress := progress[name := i + 1];
      if dep !in g { met := met[dep := (name, i)]; }
      return false;
    }

    method Push(g: Deps, name: Name)
      requires Valid(g) && name in g && name !in visited
      requires stack != [] ==> name in DepsOf(g, stack[|stack| - 1])
      modifies this
      ensures Valid(g) && stack == old(stack) + [name] && visited == old(visited) + {name}
      ensures finished == old(finished) && progress == old(progress)[name := 0] && name !in old(progress)
    {
      PushStack(g, stack, finished, name);
      PushProgress(g, visited, finished, progress, met, name);
      MetStart(g, progress, met, name);
      PushColours(visited, recStack, stack, finished, met, name);
      visited, recStack := visited + {name}, recStack + {name};
      stack := stack + [name];
      progress := progress[name := 0];
    }

    method Pop(g: Deps, name: Name, ghost below: seq<Name>)
      requires Valid(g) && stack == below + [name] && name in g
      requires name in progress && progress[name] == |g[name]|
      requires DefinedIn(g, g[name], finished)
      modifies this
      ensures Valid(g) && stack == below
      ensures visited == old(visited) && progress == old(progress) && finished == old(finished) + [name]
    {
      PostOrderExtend(g, finished, name);
      PopStack(g, below, finished, name);
      PopProgress(g, visited, finished, progress, met, name);
      PopColours(visited, recStack, below, finished, met, name);
      recStack := recStack - {name};
      stack := stack[..|stack| - 1];
      finished := finished + [name];
    }

    lemma Report(g: Deps, name: Name, i: nat, dep: Name)
      requires Valid(g) && stack != [] && name == stack[|stack| - 1] && ListsAt(g, name, i, dep)
      requires name in progress && progress[name] == i && dep in recStack
      ensures Cyclic(g) || UndefinedTwice(g)
    {
      if dep in stack {
        var bottom :| 0 <= bottom < |stack| && stack[bottom] == dep;
        CycleSearch.StackCloses(g, stack, bottom);
      } else {
        MetAgain(g, progress, met, name, i, dep);
      }
    }
  }

  lemma DefinedOnce(g: Deps)
    requires AllDefined(g)
    ensures !UndefinedTwice(g)
  {
    forall n, i: nat, d | ListsAt(g, n, i, d) ensures d in g {
      assert d in g[n];
    }
  }

  /** Go's checkCircularDependencies. It reports a cycle for a true cycle, and also for a
      configuration without one in which some undefined name is listed at two places. */
  method CheckCircularDependencies(g: Deps) returns (reported: bool)
    ensures reported <==> Cyclic(g) || UndefinedTwice(g)
    ensures AllDefined(g) ==> (reported <==> Cyclic(g))
  {
    assert AllDefined(g) ==> !UndefinedTwice(g) by { if AllDefined(g) { DefinedOnce(g); } }
    var search := new Search();
    var todo := g.Keys;
    while todo != {}
      invariant fresh(search) && search.Valid(g) && search.stack == []
      invariant todo <= g.Keys && forall n :: n in g && n !in todo ==> n in search.finished
      decreases todo
    {
      var name :| name in todo;
      todo := todo - {name};
      if name !in search.visited {
        reported := search.HasCycle(g, name);
        if reported { return true; }
      }
    }
    FinishedIsAcyclic(g, search.finished);
    MetAll(g, search.progress, search.met);
    return false;
  }

  /** Two processes that wait for the same missing one are reported as a cycle. */
  lemma FalseCycleExample() returns (g: Deps)
    ensures !Cyclic(g) && UndefinedTwice(g)
  {
    var a, b, c := Name("a"), Name("b"), Name("c");
    g := map[a := [c], b := [c]];
    assert DepsBefore(g, [a, b], 0) && DepsBefore(g, [a, b], 1);
    FinishedIsAcyclic(g, [a, b]);
    assert ListsAt(g, a, 0, c) && ListsAt(g, b, 0, c);
  }
}
