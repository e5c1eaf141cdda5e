/** The startup run of internal/process/manager_lifecycle.go. */
module Startup {
  import opened Names
  import opened Digraph
  import opened TopologicalOrder
  import opened Results
  import opened DependencyGraph
  import ProcessEquality

  datatype Readiness = NoHealthCheck | LivenessOnly | AwaitHealthy

  /** The part of a process definition the startup run looks at, and the definition as a whole. */
  datatype Process = Process(
    enabled: bool, dependsOn: seq<Name>, scheduled: bool, initiallyRunning: bool, readiness: Readiness,
    definition: ProcessEquality.Process)

  type Config = map<Name, Process>

  /** What the environment answers: does registering or starting a process succeed, and does a
      dependency become ready before the timeout when a process waits for it. */
  datatype Env = Env(registers: Name -> bool, starts: Name -> bool, ready: (Name, Name) -> bool)

  datatype Supervisor = Supervisor(config: Process, running: bool)

  datatype Event =
    | Awaited(name: Name, dep: Name)
    | Registered(name: Name)
    | Created(name: Name)
    | Started(name: Name)
    | MarkedReady(name: Name)

  datatype StartError =
    | OrderError(error: SortError)
    | DependencyNotFound(dep: Name, name: Name)
    | DependencyNotReady(dep: Name, name: Name)
    | RegisterFailed(name: Name)
    | StartFailed(name: Name)

  /** The graph of the enabled processes. */
  function GraphOf(config: Config): Deps {
    map n | n in config && config[n].enabled :: config[n].dependsOn
  }

  predicate Awaitable(config: Config, env: Env, dep: Name, name: Name)
    requires dep in config
  {
    config[dep].readiness != AwaitHealthy || env.ready(dep, name)
  }

  // ----- what stops a process, told from the configuration alone

  /** The first dependency from place `i` on that is scheduled or does not become ready. */
  function Blocked(config: Config, env: Env, name: Name, deps: seq<Name>): (r: Option<StartError>)
    requires forall d :: d in deps ==> d in config
    ensures r.Some? ==> !r.value.OrderError?
  {
    if deps == [] then None
    else if config[deps[0]].scheduled then Some(DependencyNotFound(deps[0], name))
    else if !Awaitable(config, env, deps[0], name) then Some(DependencyNotReady(deps[0], name))
    else Blocked(config, env, name, deps[1..])
  }

  function Verdict(config: Config, env: Env, name: Name): (r: Option<StartError>)
    requires name in config && forall d :: d in config[name].dependsOn ==> d in config
    ensures r.Some? ==> !r.value.OrderError?
  {
    var p := config[name];
    var blocked := Blocked(config, env, name, p.dependsOn);
    if blocked.Some? then blocked
    else if p.scheduled then if env.registers(name) then None else Some(RegisterFailed(name))
    else if p.initiallyRunning && !env.starts(name) then Some(StartFailed(name))
    else None
  }

  lemma {:induction false} BlockedByScheduled(config: Config, env: Env, name: Name, deps: seq<Name>)
    requires forall d :: d in deps ==> d in config
    ensures forall e :: Blocked(config, env, name, deps) == Some(e) && e.DependencyNotFound? ==>
            e.name == name && e.dep in deps && config[e.dep].scheduled
  {
    if deps != [] { BlockedByScheduled(config, env, name, deps[1..]); }
  }

  /** What an error other than one of the order claims about an enabled process and its environment. */
  predicate Blames(config: Config, env: Env, e: StartError) {
    match e
    case OrderError(_) => false
    case DependencyNotFound(d, n) =>
      n in config && config[n].enabled && d in config[n].dependsOn && d in config && config[d].scheduled
    case DependencyNotReady(d, n) =>
      && n in config && config[n].enabled && d in config[n].dependsOn && d in config
      && config[d].readiness == AwaitHealthy && !env.ready(d, n)
    case RegisterFailed(n) => n in config && config[n].enabled && config[n].scheduled && !env.registers(n)
    case StartFailed(n) =>
      && n in config && config[n].enabled && !config[n].scheduled && config[n].initiallyRunning && !env.starts(n)
  }

  /** Nothing stands in the way of an enabled process. */
  predicate GoesWell(config: Config, env: Env, n: Name)
    requires n in config
  {
    && (forall d :: d in config[n].dependsOn ==>
          d in config && !config[d].scheduled && (config[d].readiness == AwaitHealthy ==> env.ready(d, n)))
    && (config[n].scheduled ==> env.registers(n))
    && (!config[n].scheduled && config[n].initiallyRunning ==> env.starts(n))
  }

  lemma {:induction false} BlockedBlames(config: Config, env: Env, name: Name, deps: seq<Name>)
    requires name in config && config[name].enabled
    requires forall d :: d in deps ==> d in config && d in config[name].dependsOn
    ensures Blocked(config, env, name, deps) == None <==>
      forall d :: d in deps ==> !config[d].scheduled && (config[d].readiness == AwaitHealthy ==> env.ready(d, name))
    ensures Blocked(config, env, name, deps).Some? ==> Blames(config, env, Blocked(config, env, name, deps).value)
  {
    if deps != [] {
      BlockedBlames(config, env, name, deps[1..]);
      assert deps == [deps[0]] + deps[1..];
    }
  }

  /** The dependency that blocks a process is the first in its list that can. */
  lemma {:induction false} FirstBlocks(config: Config, env: Env, name: Name, deps: seq<Name>) returns (i: nat)
    requires (forall d :: d in deps ==> d in config) && Blocked(config, env, name, deps).Some?
    ensures i < |deps|
    ensures Blocked(config, env, name, deps).value ==
      if config[deps[i]].scheduled then DependencyNotFound(deps[i], name) else DependencyNotReady(deps[i], name)
    ensures forall j :: 0 <= j < i ==>
      !config[deps[j]].scheduled && (config[deps[j]].readiness == AwaitHealthy ==> env.ready(deps[j], name))
  {
    i := 0;
    if !config[deps[0]].scheduled && Awaitable(config, env, deps[0], name) {
      i := FirstBlocks(config, env, name, deps[1..]);
      i := i + 1;
    }
  }

  lemma VerdictBlames(config: Config, env: Env, n: Name)
    requires n in config && config[n].enabled && forall d :: d in config[n].dependsOn ==> d in config
    ensures Verdict(config, env, n) == None <==> GoesWell(config, env, n)
    ensures Verdict(config, env, n).Some? ==> Blames(config, env, Verdict(config, env, n).value)
  {
    BlockedBlames(config, env, n, config[n].dependsOn);
  }

  // ----- the discipline of the run

  /** `dep` has a supervisor that was started or marked ready. */
  predicate Up(past: set<Event>, dep: Name) {
    Created(dep) in past && (Started(dep) in past || MarkedReady(dep) in past)
  }

  /** Everything done to a process comes after each of its dependencies is up and was awaited. */
  predicate InOrder(config: Config, past: set<Event>, e: Event) {
    if e.Awaited? then Up(past, e.dep) else DependenciesAwaited(config, past, e.name)
  }

  predicate DependenciesAwaited(config: Config, past: set<Event>, name: Name) {
    name in config && forall d :: d in config[name].dependsOn ==> Up(past, d) && Awaited(name, d) in past
  }

  function Past(log: seq<Event>): set<Event> {
    set e | e in log
  }

  predicate Disciplined(config: Config, log: seq<Event>) {
    forall k :: 0 <= k < |log| ==> InOrder(config, Past(log[..k]), log[k])
  }

  lemma Append(config: Config, log: seq<Event>, e: Event)
    requires Disciplined(config, log) && InOrder(config, Past(log), e)
    ensures Disciplined(config, log + [e]) && Past(log + [e]) == Past(log) + {e}
  {
    var longer := log + [e];
    forall k | 0 <= k < |longer| ensures InOrder(config, Past(longer[..k]), longer[k]) {
      if k < |log| { assert longer[..k] == log[..k]; } else { assert longer[..k] == log; }
    }
  }

  /** After the processes in `done` have been handled: the regular ones have a supervisor and are up. */
  ghost predicate Handled(config: Config, processes: map<Name, Supervisor>, past: set<Event>, done: set<Name>) {
    && (forall n :: n in processes <==> n in done && n in config && !config[n].scheduled)
    && (forall n :: n in processes ==> Up(past, n) && processes[n].config == config[n])
  }

  lemma HandledStep(config: Config, before: map<Name, Supervisor>, past: set<Event>,
      processes: map<Name, Supervisor>, now: set<Event>, done: set<Name>, name: Name)
    requires Handled(config, before, past, done) && name in config && past <= now
    requires if config[name].scheduled then processes == before
             else exists running :: processes == before[name := Supervisor(config[name], running)] && Up(now, name)
    ensures Handled(config, processes, now, done + {name})
  {}

  class Manager {
    const config: Config
    var processes: map<Name, Supervisor>
    ghost var log: seq<Event>   // everything the run did, in order
    ghost var past: set<Event>  // the events of the log

    ghost predicate Valid()
      reads this
    {
      past == Past(log) && Disciplined(config, log)
    }

    constructor (config: Config)
      ensures this.config == config && processes == map[] && log == [] && Valid()
    {
      this.config, processes, log, past := config, map[], [], {};
    }

    ghost method Record(e: Event)
      requires Valid() && InOrder(config, past, e)
      modifies `log, `past
      ensures Valid() && past == old(past) + {e}
    {
      Append(config, log, e);
      log, past := log + [e], past + {e};
    }

    /** The enabled processes in the order of the dependency graph. */
    method GetStartupOrder() returns (r: Result<seq<Name>, SortError>)
      ensures r.Success? <==>
              ValidDeps(GraphOf(config)) && !Cyclic(GraphOf(config)) && NoRepeats(GraphOf(config))
      ensures r.Success? ==> LeastOrder(GraphOf(config), r.value)
      ensures r.Failure? ==> Offends(GraphOf(config), r.error)
    {
      var graph := new Graph();
      var todo := config.Keys;
      while todo != {}
        invariant fresh(graph) && todo <= config.Keys
        invariant graph.nodes == map n | n in config && n !in todo && config[n].enabled :: config[n].dependsOn
        decreases todo
      {
        var name :| name in todo;
        if config[name].enabled {
          graph.AddNode(name, config[name].dependsOn);
        }
        todo := todo - {name};
      }
      assert graph.nodes == GraphOf(config);
      var valid := graph.Validate();
      if valid.Failure? { return Failure(valid.error); }
      r := graph.TopologicalSort();
    }

    /** Waits for the dependencies of `name` one after the other. */
    method WaitForDependencies(env: Env, name: Name, ghost done: set<Name>)
      returns (r: Option<StartError>)
      requires Valid() && Handled(config, processes, past, done) && name in config
      requires forall d :: d in config[name].dependsOn ==> d in config && d in done
      modifies `log, `past
      ensures Valid() && old(past) <= past
      ensures r == Blocked(config, env, name, config[name].dependsOn)
      ensures r == None ==> DependenciesAwaited(config, past, name)
    {
      var deps := config[name].dependsOn;
      assert deps[0..] == deps;
      for i := 0 to |deps|
        invariant Valid() && old(past) <= past
        invariant Blocked(config, env, name, deps[i..]) == Blocked(config, env, name, deps)
        invariant forall k :: 0 <= k < i ==> deps[k] in processes && Awaited(name, deps[k]) in past
      {
        var dep := deps[i];
        assert dep in deps && deps[i..][0] == dep && deps[i..][1..] == deps[i + 1..];
        if dep !in processes {
          return Some(DependencyNotFound(dep, name));
        }
        if !Awaitable(config, env, dep, name) {
          return Some(DependencyNotReady(dep, name));
        }
        Record(Awaited(name, dep));
      }
      return None;
    }

    method RegisterScheduledProcess(env: Env, name: Name) returns (r: Option<StartError>)
      requires Valid() && DependenciesAwaited(config, past, name)
      modifies `log, `past
      ensures Valid()
      ensures r == if env.registers(name) then None else Some(RegisterFailed(name))
      ensures past == if r == None then old(past) + {Registered(name)} else old(past)
    {
      if !env.registers(name) { return Some(RegisterFailed(name)); }
      Record(Registered(name));
      return None;
    }

    method StartRegularProcess(env: Env, name: Name) returns (r: Option<StartError>)
      requires Valid() && DependenciesAwaited(config, past, name)
      modifies this
      ensures Valid() && old(past) <= past
      ensures r == if config[name].initiallyRunning && !env.starts(name) then Some(StartFailed(name)) else None
      ensures processes == old(processes)[name := Supervisor(config[name], config[name].initiallyRunning && r == None)]
      ensures r == None ==> Up(past, name)
    {
      processes := processes[name := Supervisor(config[name], false)];
      Record(Created(name));
      if config[name].initiallyRunning {
        if !env.starts(name) { return Some(StartFailed(name)); }
        processes := processes[name := Supervisor(config[name], true)];
        Record(Started(name));
      } else {
        Record(MarkedReady(name));
      }
      return None;
    }

    /** Handles one process of the startup order. */
    method Handle(env: Env, name: Name, ghost done: set<Name>) returns (r: Option<StartError>)
      requires Valid() && Handled(config, processes, past, done) && name in config && name !in done
      requires forall d :: d in config[name].dependsOn ==> d in config && d in done
      modifies this
      ensures Valid() && old(past) <= past
      ensures r == Verdict(config, env, name)
      ensures r == None ==> Handled(config, processes, past, done + {name})
      ensures r == None && config[name].scheduled ==> Registered(name) in past
    {
      ghost var before := past;
      r := WaitForDependencies(env, name, done);
      if r.Some? { return; }
      if config[name].scheduled {
        r := RegisterScheduledProcess(env, name);
      } else {
        r := StartRegularProcess(env, name);
      }
      if r == None {
        HandledStep(config, old(processes), before, processes, past, done, name);
      }
    }

    /** Handles the processes of an order until one of them fails. */
    method HandleAll(env: Env, order: seq<Name>) returns (r: Result<(), StartError>)
      requires Valid() && processes == map[] && IsTopological(GraphOf(config), order)
      requires ValidDeps(GraphOf(config))
      modifies this
      ensures Valid() && FirstError(config, env, order, r)
      ensures r.Success? ==> Handled(config, processes, past, SetOf(order))
      ensures r.Success? ==> forall n :: n in order && config[n].scheduled ==> Registered(n) in past
    {
      for i := 0 to |order|
        invariant Valid() && Handled(config, processes, past, SetOf(order[..i]))
        invariant forall k :: 0 <= k < i ==> Clear(config, env, order[k])
        invariant forall k :: 0 <= k < i && config[order[k]].scheduled ==> Registered(order[k]) in past
      {
        var failed := HandleNext(env, order, i);
        if failed.Some? {
          assert Stops(config, env, order, i, failed.value);
          return Failure(failed.value);
        }
      }
      assert order[..|order|] == order;
      return Success(());
    }

    /** One turn of that loop. */
    method HandleNext(env: Env, order: seq<Name>, i: nat) returns (r: Option<StartError>)
      requires Valid() && i < |order| && IsTopological(GraphOf(config), order) && ValidDeps(GraphOf(config))
      requires Handled(config, processes, past, SetOf(order[..i]))
      modifies this
      ensures Valid() && old(past) <= past && order[i] in config
      ensures forall d :: d in config[order[i]].dependsOn ==> d in config
      ensures r == Verdict(config, env, order[i])
      ensures r == None ==> Handled(config, processes, past, SetOf(order[..i + 1]))
      ensures r == None && config[order[i]].scheduled ==> Registered(order[i]) in past
    {
      NextIsFree(config, order, i);
      r := Handle(env, order[i], SetOf(order[..i]));
    }

    /** Go's Start, without the hooks. The run stops at the first process of the least order whose
        verdict is an error, and that verdict is the error returned. */
    method Start(env: Env) returns (r: Result<(), StartError>)
      requires Valid() && processes == map[] && log == []
      modifies this
      ensures Valid()
      ensures r.Failure? && r.error.OrderError? <==> !Sortable(GraphOf(config))
      ensures Sortable(GraphOf(config)) ==> exists order ::
        LeastOrder(GraphOf(config), order) && FirstError(config, env, order, r)
      ensures r.Success? <==>
        Sortable(GraphOf(config)) && forall n :: n in config && config[n].enabled ==> GoesWell(config, env, n)
      ensures r.Failure? && !r.error.OrderError? ==> Blames(config, env, r.error)
      ensures r.Success? ==> Handled(config, processes, past, GraphOf(config).Keys)
      ensures r.Success? ==> forall n :: n in GraphOf(config) && config[n].scheduled ==> Registered(n) in past
    {
      var sorted := GetStartupOrder();
      if sorted.Failure? { return Failure(OrderError(sorted.error)); }
      var order := sorted.value;
      r := HandleAll(env, order);
      assert SetOf(order) == GraphOf(config).Keys;
      FirstErrorBlames(config, env, order, r);
    }
  }

  /** The dependencies of the next process of a topological order have all been handled. */
  lemma NextIsFree(config: Config, order: seq<Name>, i: nat)
    requires IsTopological(GraphOf(config), order) && ValidDeps(GraphOf(config)) && i < |order|
    ensures order[i] in config && order[i] !in SetOf(order[..i])
    ensures forall d :: d in config[order[i]].dependsOn ==> d in config && d in SetOf(order[..i])
    ensures SetOf(order[..i + 1]) == SetOf(order[..i]) + {order[i]}
  {
    assert order[i] in order;
    assert order[..i + 1] == order[..i] + [order[i]];
    forall d | d in config[order[i]].dependsOn ensures d in config && d in SetOf(order[..i]) {
      var g := GraphOf(config);
      assert order[i] in g && d in g[order[i]];
      assert d in g && d in order[..i];
    }
  }

  ghost predicate Sortable(g: Deps) {
    ValidDeps(g) && !Cyclic(g) && NoRepeats(g)
  }

  predicate Clear(config: Config, env: Env, name: Name) {
    && name in config && (forall d :: d in config[name].dependsOn ==> d in config)
    && Verdict(config, env, name) == None
  }

  predicate Stops(config: Config, env: Env, order: seq<Name>, k: nat, e: StartError) {
    && k < |order| && order[k] in config && (forall d :: d in config[order[k]].dependsOn ==> d in config)
    && Verdict(config, env, order[k]) == Some(e)
    && forall j :: 0 <= j < k ==> Clear(config, env, order[j])
  }

  ghost predicate FirstError(config: Config, env: Env, order: seq<Name>, r: Result<(), StartError>) {
    match r
    case Success(_) => forall n :: n in order ==> Clear(config, env, n)
    case Failure(e) => exists k: nat :: Stops(config, env, order, k, e)
  }

  lemma FailsIff(config: Config, env: Env, order: seq<Name>, r: Result<(), StartError>)
    requires FirstError(config, env, order, r)
    ensures r.Failure? <==> exists n :: n in order && !Clear(config, env, n)
  {
    if r.Failure? {
      var k: nat :| Stops(config, env, order, k, r.error);
      assert order[k] in order && !Clear(config, env, order[k]);
    }
  }

  /** The processes are handled in one order and the first error ends the run: the outcome is determined by the
    * configuration and the answers of the environment. */
  lemma OneOutcome(config: Config, env: Env, order: seq<Name>, other: seq<Name>,
                   r: Result<(), StartError>, q: Result<(), StartError>)
    requires LeastOrder(GraphOf(config), order) && FirstError(config, env, order, r)
    requires LeastOrder(GraphOf(config), other) && FirstError(config, env, other, q)
    ensures r == q
  {
    LeastOrderUnique(GraphOf(config), order, other);
    FailsIff(config, env, order, r);
    FailsIff(config, env, order, q);
    if r.Failure? {
      var k: nat :| Stops(config, env, order, k, r.error);
      var j: nat :| Stops(config, env, order, j, q.error);
      assert j == k;
    } else {
      assert r.value == () && q.value == ();
    }
  }

  /** What the outcome of a run says, without the order in which the processes were handled. */
  lemma FirstErrorBlames(config: Config, env: Env, order: seq<Name>, r: Result<(), StartError>)
    requires ValidDeps(GraphOf(config)) && IsTopological(GraphOf(config), order)
    requires FirstError(config, env, order, r)
    ensures r.Success? <==> forall n :: n in config && config[n].enabled ==> GoesWell(config, env, n)
    ensures r.Failure? ==> Blames(config, env, r.error)
  {
    forall n | n in config && config[n].enabled
      ensures n in order && forall d :: d in config[n].dependsOn ==> d in config
      ensures Verdict(config, env, n) == None <==> GoesWell(config, env, n)
    {
      AllDefined(config, n);
      VerdictBlames(config, env, n);
    }
    if r.Failure? {
      var k: nat :| Stops(config, env, order, k, r.error);
      assert order[k] in order && order[k] in GraphOf(config);
      VerdictBlames(config, env, order[k]);
      assert !GoesWell(config, env, order[k]);
    }
  }

  lemma AllDefined(config: Config, n: Name)
    requires ValidDeps(GraphOf(config)) && n in GraphOf(config)
    ensures forall d :: d in config[n].dependsOn ==> d in config
  {
    forall d | d in config[n].dependsOn ensures d in config {
      assert d in GraphOf(config)[n] && d in GraphOf(config);
    }
  }

  /** In a disciplined log, whatever is done to a process was preceded by waiting for each of its dependencies, and that
    * by creating the dependency and starting it or marking it ready. */
  lemma DependenciesFirst(config: Config, log: seq<Event>, k: nat, d: Name) returns (c: nat, i: nat, j: nat)
    requires Disciplined(config, log) && k < |log| && !log[k].Awaited?
    requires log[k].name in config && d in config[log[k].name].dependsOn
    ensures i < j < k && log[j] == Awaited(log[k].name, d) && (log[i] == Started(d) || log[i] == MarkedReady(d))
    ensures c < j && log[c] == Created(d)
  {
    assert InOrder(config, Past(log[..k]), log[k]);
    assert Awaited(log[k].name, d) in Past(log[..k]);
    j :| 0 <= j < k && log[..k][j] == Awaited(log[k].name, d);
    assert InOrder(config, Past(log[..j]), log[j]);
    var e := if Started(d) in Past(log[..j]) then Started(d) else MarkedReady(d);
    i :| 0 <= i < j && log[..j][i] == e;
    assert Created(d) in Past(log[..j]);
    c :| 0 <= c < j && log[..j][c] == Created(d);
  }

  // ----- what the outcome says about the configuration

  /** An enabled process waits for a scheduled one, which never gets a supervisor. */
  ghost predicate WaitsForScheduled(config: Config) {
    exists n, d :: n in GraphOf(config) && d in config[n].dependsOn && d in config && config[d].scheduled
  }

  /** Every call the run makes to its environment goes well. */
  ghost predicate Friendly(config: Config, env: Env) {
    && (forall n :: n in GraphOf(config) && config[n].scheduled ==> env.registers(n))
    && (forall n :: n in GraphOf(config) && !config[n].scheduled && config[n].initiallyRunning ==> env.starts(n))
    && (forall n, d | n in GraphOf(config) && d in config[n].dependsOn && d in config ::
          config[d].readiness == AwaitHealthy ==> env.ready(d, n))
  }

  lemma VerdictNone(config: Config, env: Env, n: Name)
    requires ValidDeps(GraphOf(config)) && n in GraphOf(config) && Friendly(config, env)
    ensures forall d :: d in config[n].dependsOn ==> d in config
    ensures Verdict(config, env, n) == None <==>
            forall d :: d in config[n].dependsOn ==> !config[d].scheduled
    ensures Verdict(config, env, n) != None ==> Verdict(config, env, n).value.DependencyNotFound?
  {
    AllDefined(config, n);
    VerdictBlames(config, env, n);
  }

  /** With a friendly environment the run succeeds unless some process waits for a scheduled one,
      and then it always fails with "dependency not found". */
  lemma FriendlyOutcome(config: Config, env: Env, order: seq<Name>, r: Result<(), StartError>)
    requires Sortable(GraphOf(config)) && LeastOrder(GraphOf(config), order)
    requires FirstError(config, env, order, r) && Friendly(config, env)
    ensures r.Failure? <==> WaitsForScheduled(config)
    ensures r.Failure? ==> r.error.DependencyNotFound?
  {
    forall n | n in order
      ensures n in config && (forall d :: d in config[n].dependsOn ==> d in config)
      ensures Verdict(config, env, n) == None <==> forall d :: d in config[n].dependsOn ==> !config[d].scheduled
      ensures Verdict(config, env, n) != None ==> Verdict(config, env, n).value.DependencyNotFound?
    {
      VerdictNone(config, env, n);
    }
    if r.Failure? {
      var k: nat :| Stops(config, env, order, k, r.error);
      assert order[k] in order;
    }
  }

  /** Whatever the environment does, "dependency not found" names a scheduled dependency. */
  lemma NotFoundIsScheduled(config: Config, env: Env, order: seq<Name>, dep: Name, name: Name)
    requires FirstError(config, env, order, Failure(DependencyNotFound(dep, name)))
    ensures name in order && name in config && dep in config[name].dependsOn
    ensures dep in config && config[dep].scheduled
  {
    var k: nat :| Stops(config, env, order, k, DependencyNotFound(dep, name));
    BlockedByScheduled(config, env, order[k], config[order[k]].dependsOn);
  }

  lemma TwoInOrder(a: Name, b: Name)
    requires a != b
    ensures Sortable(map[a := [], b := [a]])
  {
    var g: Deps := map[a := [], b := [a]];
    assert DepsBefore(g, [a, b], 0) && DepsBefore(g, [a, b], 1) by { assert [a, b][..1] == [a]; }
    FinishedIsAcyclic(g, [a, b]);
  }

  /** A process that waits for a scheduled one: everything goes well, and the run fails. */
  method ScheduledDependencyExample(job: Name, app: Name, definition: ProcessEquality.Process, env: Env)
    returns (r: Result<(), StartError>)
    requires job != app
    requires (forall n: Name :: env.registers(n) && env.starts(n)) && (forall d: Name, n: Name :: env.ready(d, n))
    ensures r.Failure? && r.error.DependencyNotFound?
  {
    var config: Config := map[job := Process(true, [], true, true, NoHealthCheck, definition),
                              app := Process(true, [job], false, true, NoHealthCheck, definition)];
    assert GraphOf(config) == map[job := [], app := [job]];
    TwoInOrder(job, app);
    var m := new Manager(config);
    r := m.Start(env);
    Fails(config, env, app, job, r);
  }

  lemma Fails(config: Config, env: Env, n: Name, d: Name, r: Result<(), StartError>)
    requires Sortable(GraphOf(config)) && Friendly(config, env)
    requires exists order :: LeastOrder(GraphOf(config), order) && FirstError(config, env, order, r)
    requires n in GraphOf(config) && d in config[n].dependsOn && d in config && config[d].scheduled
    ensures r.Failure? && r.error.DependencyNotFound?
  {
    var order :| LeastOrder(GraphOf(config), order) && FirstError(config, env, order, r);
    FriendlyOutcome(config, env, order, r);
  }
}
