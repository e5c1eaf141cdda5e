/** The dependency graph of internal/deps/graph.go: validation and Kahn's algorithm. */
module DependencyGraph {
  import opened Names
  import opened Digraph
  import opened TopologicalOrder
  import opened Results
  import CycleSearch

  datatype SortError =
    | NonExistentDependency(name: Name, dep: Name)
    | SelfDependency(name: Name)
    | CircularDependency(cycle: seq<Name>)
    | IncompleteSort

  /** The ready queue holds exactly the ready nodes, once each, in alphabetical order. */
  predicate QueueOf(queue: seq<Name>, nodes: set<Name>) {
    Sorted(queue) && Distinct(queue) && SetOf(queue) == nodes
  }

  predicate InDegreeOf(g: Deps, inDegree: map<Name, int>, done: set<Name>) {
    inDegree.Keys == g.Keys && forall n :: n in g ==> inDegree[n] == Remaining(g, n, done)
  }

  method Enqueue(queue: seq<Name>, n: Name, ghost nodes: set<Name>) returns (r: seq<Name>)
    requires QueueOf(queue, nodes) && n !in nodes
    ensures QueueOf(r, nodes + {n})
  {
    r := SortSlice(queue + [n]);
    SortCorrect(queue + [n]);
    Appended(queue, n, nodes);
    PermutationKeeps(queue + [n], r);
  }

  lemma Appended(queue: seq<Name>, n: Name, nodes: set<Name>)
    requires Distinct(queue) && SetOf(queue) == nodes && n !in nodes
    ensures Distinct(queue + [n]) && SetOf(queue + [n]) == nodes + {n}
  {
    assert forall x :: x in queue ==> x in SetOf(queue);
  }

  /** Counting `node` off makes `n` newly ready exactly when `node` was its last open dependency. */
  lemma NewlyReady(g: Deps, done: set<Name>, node: Name, n: Name)
    requires Closed(g, done) && node in Ready(g, done) && n in g
    ensures n in Ready(g, done + {node}) - Ready(g, done) <==>
            node in g[n] && Remaining(g, n, done + {node}) == 0
  {
    RemainingZero(g, n, done + {node});
    assert node in g[n] ==> node in SetOf(g[n]);
  }

  lemma InitiallyReady(g: Deps, inDegree: map<Name, int>)
    requires InDegreeOf(g, inDegree, {})
    ensures Ready(g, {}) == set n | n in g && inDegree[n] == 0
  {
    forall n | n in g ensures inDegree[n] == 0 <==> n in Ready(g, {}) {
      RemainingZero(g, n, {});
    }
  }

  /** The nodes queued half way through the inner loop, with `todo` still to be visited. */
  function Queued(g: Deps, done: set<Name>, node: Name, todo: set<Name>): set<Name> {
    (Ready(g, done) - {node}) + (Ready(g, done + {node}) - todo)
  }

  /** Nodes that were ready stay ready until they are taken. */
  lemma QueuedEnds(g: Deps, done: set<Name>, node: Name)
    ensures Queued(g, done, node, g.Keys) == Ready(g, done) - {node}
    ensures Queued(g, done, node, {}) == Ready(g, done + {node})
  {}

  /** The counts half way through the inner loop: only the nodes outside `todo` know of `node`. */
  predicate CountedDown(g: Deps, inDegree: map<Name, int>, done: set<Name>, node: Name, todo: set<Name>)
    requires inDegree.Keys == g.Keys
  {
    forall n :: n in g ==> inDegree[n] == Remaining(g, n, if n in todo then done else done + {node})
  }

  /** Graph maps each process name to its dependencies. */
  class Graph {
    var nodes: Deps

    constructor ()
      ensures nodes == map[]
    {
      nodes := map[];
    }

    method AddNode(name: Name, deps: seq<Name>)
      modifies this
      ensures nodes == old(nodes)[name := deps]
    {
      nodes := nodes[name := deps];
    }

    /** Accepts exactly the graphs whose dependencies are other nodes; an error names an offender. */
    method Validate() returns (r: Result<(), SortError>)
      ensures r.Success? <==> ValidDeps(nodes)
      ensures r.Failure? ==> Offends(nodes, r.error)
    {
      var todo := nodes.Keys;
      while todo != {}
        invariant todo <= nodes.Keys
        invariant forall n, d :: n in nodes && n !in todo && d in nodes[n] ==> d in nodes && d != n
        decreases todo
      {
        var name :| name in todo;
        var deps := nodes[name];
        for i := 0 to |deps|
          invariant forall k :: 0 <= k < i ==> deps[k] in nodes && deps[k] != name
        {
          assert deps[i] in nodes[name];
          if deps[i] !in nodes { return Failure(NonExistentDependency(name, deps[i])); }
          if deps[i] == name { return Failure(SelfDependency(name)); }
        }
        todo := todo - {name};
      }
      return Success(());
    }

    /** The inner loop of Kahn's algorithm: `node` is done, its dependents are counted down. */
    method Release(inDegree0: map<Name, int>, queue0: seq<Name>, node: Name, ghost done: set<Name>)
      returns (inDegree: map<Name, int>, queue: seq<Name>)
      requires Closed(nodes, done) && node in Ready(nodes, done)
      requires InDegreeOf(nodes, inDegree0, done) && QueueOf(queue0, Ready(nodes, done) - {node})
      ensures InDegreeOf(nodes, inDegree, done + {node})
      ensures QueueOf(queue, Ready(nodes, done + {node}))
    {
      inDegree, queue := inDegree0, queue0;
      var g := nodes;
      QueuedEnds(g, done, node);
      var todo := g.Keys;
      while todo != {}
        invariant todo <= g.Keys && inDegree.Keys == g.Keys
        invariant CountedDown(g, inDegree, done, node, todo)
        invariant QueueOf(queue, Queued(g, done, node, todo))
        decreases todo
      {
        var dependent :| dependent in todo;
        inDegree, queue := Visit(inDegree, queue, node, dependent, done, todo);
        todo := todo - {dependent};
      }
    }

    /** One turn of that loop. */
    method Visit(inDegree0: map<Name, int>, queue0: seq<Name>, node: Name, dependent: Name,
        ghost done: set<Name>, ghost todo: set<Name>)
      returns (inDegree: map<Name, int>, queue: seq<Name>)
      requires Closed(nodes, done) && node in Ready(nodes, done)
      requires dependent in todo && dependent in nodes && dependent in inDegree0
      requires inDegree0[dependent] == Remaining(nodes, dependent, done)
      requires QueueOf(queue0, Queued(nodes, done, node, todo))
      ensures inDegree == inDegree0[dependent := Remaining(nodes, dependent, done + {node})]
      ensures QueueOf(queue, Queued(nodes, done, node, todo - {dependent}))
    {
      inDegree, queue := inDegree0, queue0;
      ghost var rest := todo - {dependent};
      RemainingStep(nodes, dependent, done, node);
      NewlyReady(nodes, done, node, dependent);
      if node in nodes[dependent] {
        inDegree := inDegree[dependent := inDegree[dependent] - 1];
        if inDegree[dependent] == 0 {
          assert Queued(nodes, done, node, rest) == Queued(nodes, done, node, todo) + {dependent};
          queue := Enqueue(queue, dependent, Queued(nodes, done, node, todo));
          return;
        }
      }
      assert Queued(nodes, done, node, rest) == Queued(nodes, done, node, todo);
    }

    /** The nodes that start with in-degree zero, sorted. */
    method InitialQueue(inDegree: map<Name, int>) returns (queue: seq<Name>)
      requires inDegree.Keys == nodes.Keys
      ensures QueueOf(queue, set n | n in nodes && inDegree[n] == 0)
    {
      queue := [];
      var todo := nodes.Keys;
      while todo != {}
        invariant todo <= nodes.Keys && Distinct(queue)
        invariant forall n :: n in queue <==> n in nodes && n !in todo && inDegree[n] == 0
        decreases todo
      {
        var node :| node in todo;
        if inDegree[node] == 0 {
          queue := queue + [node];
        }
        todo := todo - {node};
      }
      SortCorrect(queue);
      PermutationKeeps(queue, Sort(queue));
      queue := SortSlice(queue);
    }

    /** The main loop of Kahn's algorithm, run until the queue is empty. */
    method Drain() returns (result: seq<Name>)
      ensures Greedy(nodes, result) && Ready(nodes, SetOf(result)) == {}
    {
      var inDegree := map n | n in nodes :: |nodes[n]|;
      result := [];
      assert SetOf(result) == {};
      assert InDegreeOf(nodes, inDegree, {});
      InitiallyReady(nodes, inDegree);
      var queue := InitialQueue(inDegree);
      while |queue| > 0
        invariant Greedy(nodes, result)
        invariant InDegreeOf(nodes, inDegree, SetOf(result))
        invariant QueueOf(queue, Ready(nodes, SetOf(result)))
        decreases nodes.Keys - SetOf(result)
      {
        var node := queue[0];
        ghost var done := SetOf(result);
        HeadIsLeast(nodes, queue, done);
        GreedyExtend(nodes, result, node);
        GreedyFacts(nodes, result);
        result := result + [node];
        inDegree, queue := Release(inDegree, queue[1..], node, done);
      }
    }

    /** Go's TopologicalSort, with every outcome pinned down. */
    method TopologicalSort() returns (r: Result<seq<Name>, SortError>)
      ensures r.Success? <==> ValidDeps(nodes) && !Cyclic(nodes) && NoRepeats(nodes)
      ensures r.Success? ==> LeastOrder(nodes, r.value)
      ensures r.Failure? ==> Offends(nodes, r.error)
      ensures r.Failure? && r.error.CircularDependency? <==> ValidDeps(nodes) && Cyclic(nodes)
      ensures r == Failure(IncompleteSort) <==>
              ValidDeps(nodes) && !Cyclic(nodes) && !NoRepeats(nodes)
    {
      var valid := Validate();
      if valid.Failure? { return Failure(valid.error); }
      var found, cycle, order := CycleSearch.HasCycle(nodes);
      if found { return Failure(CircularDependency(cycle)); }
      var result := Drain();
      CompleteIffNoRepeats(nodes, result, order);
      if |result| != |nodes| { return Failure(IncompleteSort); }
      GreedyIsLeast(nodes, result);
      return Success(result);
    }
  }

  /** What each error message claims about the graph. */
  ghost predicate Offends(g: Deps, e: SortError) {
    match e
    case NonExistentDependency(name, dep) => name in g && dep in g[name] && dep !in g
    case SelfDependency(name) => name in g && name in g[name]
    case CircularDependency(cycle) => ValidDeps(g) && IsSimpleCycle(g, cycle)
    case IncompleteSort => ValidDeps(g) && !Cyclic(g) && !NoRepeats(g)
  }

  /** A graph that has a topological order and no cycle, and that the sort still rejects as incomplete:
      one dependency is listed twice. */
  lemma RepeatedEntryExample() returns (g: Deps, order: seq<Name>)
    ensures ValidDeps(g) && !Cyclic(g) && IsTopological(g, order)
    ensures !NoRepeats(g)
  {
    var a, b := Name("a"), Name("b");
    g := map[a := [], b := [a, a]];
    order := [a, b];
    assert order[..1] == [a] && order[..0] == [];
    assert g[b][0] == g[b][1];
    assert DepsBefore(g, order, 0) && DepsBefore(g, order, 1);
    FinishedIsAcyclic(g, order);
  }

  lemma HeadIsLeast(g: Deps, queue: seq<Name>, done: set<Name>)
    requires QueueOf(queue, Ready(g, done)) && queue != []
    ensures LeastReady(g, done, queue[0])
    ensures QueueOf(queue[1..], Ready(g, done) - {queue[0]})
  {
    forall m | m in Ready(g, done) ensures !Before(m, queue[0]) {
      assert m in SetOf(queue);
      LessIrreflexive(m.text, 0);
    }
    assert queue == [queue[0]] + queue[1..];
  }
}
