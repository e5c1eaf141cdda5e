/** The depth-first cycle search of internal/deps/graph.go. */
module CycleSearch {
  import opened Names
  import opened Digraph

  /** Every name a search can meet: the nodes and the names they depend on. */
  function Universe(g: Deps): set<Name> {
    g.Keys + set n, d | n in g && d in g[n] :: d
  }

  /** The nodes on the recursion stack, outermost first: each depends on the next,
      and `parent` leads from each back to the one before it. */
  predicate Chain(g: Deps, stack: seq<Name>, parent: map<Name, Name>) {
    && Distinct(stack)
    && Walk(g, stack)
    && (forall i :: 0 < i < |stack| ==> stack[i] in parent && parent[stack[i]] == stack[i - 1])
  }

  lemma ChainExtend(g: Deps, stack: seq<Name>, parent: map<Name, Name>, n: Name)
    requires Chain(g, stack, parent) && n !in stack
    requires stack != [] ==> n in DepsOf(g, stack[|stack| - 1])
    requires stack != [] ==> n in parent && parent[n] == stack[|stack| - 1]
    ensures Chain(g, stack + [n], parent)
  {}

  /** The part of the stack above a node that its top depends on closes to a cycle. */
  lemma StackCloses(g: Deps, stack: seq<Name>, bottom: nat)
    requires Walk(g, stack) && Distinct(stack) && bottom < |stack|
    requires stack[bottom] in DepsOf(g, stack[|stack| - 1])
    ensures IsSimpleCycle(g, stack[bottom..] + [stack[bottom]])
  {
    var p := stack[bottom..] + [stack[bottom]];
    forall i | 0 < i < |p| ensures p[i] in DepsOf(g, p[i - 1]) {
      assert p[i - 1] == stack[bottom + i - 1];
    }
  }

  /** The walk up `parent` from the top of the stack spells the stack down to the only place of `dep`. */
  method WalkUp(parent: map<Name, Name>, node: Name, dep: Name, ghost stack: seq<Name>, ghost bottom: nat)
    returns (cycle: seq<Name>)
    requires bottom < |stack| && stack[bottom] == dep && node == stack[|stack| - 1]
    requires forall i :: bottom < i < |stack| ==> stack[i] != dep
    requires forall i :: bottom < i < |stack| ==> stack[i] in parent && parent[stack[i]] == stack[i - 1]
    ensures cycle == stack[bottom + 1..] + [dep]
  {
    cycle := [dep];
    var current := node;
    ghost var m := |stack| - 1;
    while current != dep
      invariant bottom <= m < |stack| && current == stack[m]
      invariant cycle == stack[m + 1..] + [dep]
      decreases m
    {
      cycle := [current] + cycle;
      current := parent[current];
      m := m - 1;
    }
  }

  /** That walk reaches `dep`, which is on the recursion stack, and gives a cycle that starts and ends with `dep`. */
  method CyclePath(g: Deps, parent: map<Name, Name>, node: Name, dep: Name, ghost stack: seq<Name>)
    returns (cycle: seq<Name>)
    requires Chain(g, stack, parent) && stack != [] && node == stack[|stack| - 1]
    requires dep in stack && dep in DepsOf(g, node)
    ensures IsSimpleCycle(g, cycle) && cycle[0] == dep
  {
    ghost var bottom :| 0 <= bottom < |stack| && stack[bottom] == dep;
    cycle := WalkUp(parent, node, dep, stack, bottom);
    cycle := [dep] + cycle;
    assert cycle == stack[bottom..] + [dep];
    StackCloses(g, stack, bottom);
  }

  /** The maps the recursion shares; a set holds the names a boolean map sends to true. */
  class Search {
    var visited: set<Name>
    var recStack: set<Name>
    var parent: map<Name, Name>
    ghost var stack: seq<Name>
    ghost var finished: seq<Name>

    ghost predicate Valid(g: Deps)
      reads this
    {
      && Chain(g, stack, parent)
      && (forall x :: x in recStack <==> x in stack)
      && (forall x :: x in visited <==> x in stack || x in finished)
      && (forall x :: x in stack ==> x !in finished)
      && PostOrder(g, finished)
      && visited <= Universe(g)
    }

    constructor ()
      ensures visited == {} && stack == [] && finished == []
      ensures forall g :: Valid(g)
    {
      visited, recStack, parent := {}, {}, map[];
      stack, finished := [], [];
    }

    /** Go's hasCycleDFS. Without a cycle it leaves `node` finished and the stack as it was. */
    method HasCycleDFS(g: Deps, node: Name) returns (found: bool, path: seq<Name>)
      requires Valid(g) && node in Universe(g) && node !in visited
      requires stack != [] ==> node in DepsOf(g, stack[|stack| - 1])
      requires stack != [] ==> node in parent && parent[node] == stack[|stack| - 1]
      modifies this
      ensures found ==> IsSimpleCycle(g, path)
      ensures !found ==> Valid(g) && stack == old(stack) && node in finished && path == []
      ensures !found ==> old(visited) <= visited
      decreases Universe(g) - visited
    {
      Push(g, node);
      var deps := DepsOf(g, node);
      for i := 0 to |deps|
        invariant Valid(g) && stack == old(stack) + [node]
        invariant old(visited) + {node} <= visited
        invariant forall k :: 0 <= k < i ==> deps[k] in finished
      {
        var dep := deps[i];
        if dep !in visited {
          assert node in g && dep in g[node];
          parent := parent[dep := node];
          found, path := HasCycleDFS(g, dep);
          if found { return; }
        } else if dep in recStack {
          assert stack[|stack| - 1] == node;
          path := CyclePath(g, parent, node, dep, stack);
          return true, path;
        }
      }
      Pop(g, node);
      return false, [];
    }

    method Push(g: Deps, node: Name)
      requires Valid(g) && node in Universe(g) && node !in visited
      requires stack != [] ==> node in DepsOf(g, stack[|stack| - 1])
      requires stack != [] ==> node in parent && parent[node] == stack[|stack| - 1]
      modifies this
      ensures Valid(g) && stack == old(stack) + [node]
      ensures visited == old(visited) + {node} && finished == old(finished) && parent == old(parent)
    {
      ChainExtend(g, stack, parent, node);
      visited, recStack := visited + {node}, recStack + {node};
      stack := stack + [node];
    }

    method Pop(g: Deps, node: Name)
      requires Valid(g) && stack != [] && node == stack[|stack| - 1]
      requires forall d :: d in DepsOf(g, node) ==> d in finished
      modifies this
      ensures Valid(g) && stack == old(stack)[..|old(stack)| - 1]
      ensures visited == old(visited) && finished == old(finished) + [node]
    {
      PostOrderExtend(g, finished, node);
      recStack := recStack - {node};
      stack := stack[..|stack| - 1];
      finished := finished + [node];
    }
  }

  /** Go's HasCycle: a search from every node not yet visited, taken in any order. */
  method HasCycle(g: Deps) returns (found: bool, path: seq<Name>, ghost order: seq<Name>)
    ensures found <==> Cyclic(g)
    ensures found ==> IsSimpleCycle(g, path)
    ensures !found ==> path == [] && PostOrder(g, order) && forall n :: n in g ==> n in order
  {
    var search := new Search();
    var todo := g.Keys;
    while todo != {}
      invariant fresh(search) && search.Valid(g) && search.stack == []
      invariant todo <= g.Keys && forall n :: n in g && n !in todo ==> n in search.finished
      decreases todo
    {
      var node :| node in todo;
      todo := todo - {node};
      if node !in search.visited {
        found, path := search.HasCycleDFS(g, node);
        if found { return true, path, []; }
      }
    }
    order := search.finished;
    FinishedIsAcyclic(g, order);
    return false, [], order;
  }
}
