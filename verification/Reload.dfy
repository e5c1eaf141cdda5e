/** Reloading the configuration, internal/process/manager_config.go. */
module Reload {
  import opened Names
  import opened ProcessEquality
  import opened Results

  type Config = map<Name, Process>

  /** Which supervisors return an error when they are stopped, and which fail to start. */
  datatype Env = Env(stopFails: set<Name>, startFails: set<Name>)

  /** A reload that meets no failure. */
  const SMOOTH := Env({}, {})

  class Supervisor {
    const config: Process
    var running: bool

    constructor (config: Process)
      ensures this.config == config && !running
    {
      this.config := config;
      running := false;
    }

    method Start(ok: bool)
      modifies this
      ensures running == ok
    {
      running := ok;
    }

    /** Whatever error it collects, Stop ends by marking the supervisor stopped and forgetting its instances. */
    method Stop()
      modifies this
      ensures !running
    {
      running := false;
    }
  }

  type Table = map<Name, Supervisor>

  // What a reload does to one name, told from the two configurations and from whether it has a supervisor.

  datatype Fate = Kept | Removed | Replaced

  predicate IsRemoved(before: Config, after: Config, n: Name) { n in before && n !in after }

  predicate IsNew(before: Config, after: Config, n: Name) { n !in before && n in after }

  predicate IsChanged(before: Config, after: Config, n: Name) {
    n in before && n in after && !Same(before[n], after[n])
  }

  /** A supervisor whose Stop returns an error, or that has no successor able to start, keeps its place. */
  function FateOf(before: Config, after: Config, n: Name, present: bool, env: Env): Fate {
    if IsRemoved(before, after, n) then Removed
    else if IsNew(before, after, n) then
      if after[n].enabled && n !in env.startFails then Replaced else Kept
    else if IsChanged(before, after, n) then UpdateFate(after, n, present, env)
    else Kept
  }

  /** A changed process keeps its supervisor if stopping it returns an error, or if its successor does not start. */
  function UpdateFate(after: Config, n: Name, present: bool, env: Env): Fate
    requires n in after
  {
    if present && n in env.stopFails then Kept
    else if !after[n].enabled then Removed
    else if n in env.startFails then Kept
    else Replaced
  }

  /** The supervisors of removed and changed processes are stopped, and no others. */
  predicate Stopped(before: Config, after: Config, n: Name) {
    IsRemoved(before, after, n) || IsChanged(before, after, n)
  }

  /** `t` has, for the name `n`, what the fate says: the same object, none, or a new object with the new definition. */
  predicate Met(s: Table, t: Table, n: Name, fate: Fate, after: Config) {
    match fate
    case Kept => (n in s <==> n in t) && (n in s ==> t[n] == s[n])
    case Removed => n !in t
    case Replaced => n in t && n in after && t[n].config == after[n] && t[n] !in s.Values
  }

  /** The table before and after one reload. */
  ghost predicate Reloaded(before: Config, after: Config, s: Table, t: Table, env: Env) {
    forall n :: Met(s, t, n, FateOf(before, after, n, n in s, env), after)
  }

  /** The table before and after the processes in `done` have been updated. */
  ghost predicate Updated(after: Config, s: Table, t: Table, done: seq<Name>, env: Env) {
    forall n :: Met(s, t, n, if n in done && n in after then UpdateFate(after, n, n in s, env) else Kept, after)
  }

  lemma OneMoreUpdated(after: Config, s: Table, t: Table, u: Table, done: seq<Name>, name: Name, env: Env)
    requires Updated(after, s, t, done, env) && name in after && name !in done
    requires forall n | n != name :: Met(t, u, n, Kept, after)
    requires Met(t, u, name, UpdateFate(after, name, name in t, env), after)
    requires UpdateFate(after, name, name in t, env) == Replaced ==> u[name] !in s.Values
    ensures Updated(after, s, u, done + [name], env)
  {
    assert Met(s, t, name, Kept, after);
    forall n
      ensures Met(s, u, n, if n in done + [name] && n in after then UpdateFate(after, n, n in s, env) else Kept, after)
    {
      assert Met(s, t, n, if n in done && n in after then UpdateFate(after, n, n in s, env) else Kept, after);
      if n != name { assert Met(t, u, n, Kept, after); }
    }
  }

  /** The table before and after the enabled ones among `done`, all of them new, have been started. */
  function BeginFate(after: Config, n: Name, done: seq<Name>, env: Env): Fate {
    if n in done && n in after && after[n].enabled && n !in env.startFails then Replaced else Kept
  }

  ghost predicate Begun(after: Config, s: Table, t: Table, done: seq<Name>, env: Env) {
    forall n :: Met(s, t, n, BeginFate(after, n, done, env), after)
  }

  lemma OneMoreBegun(after: Config, s: Table, t: Table, u: Table, done: seq<Name>, name: Name, env: Env)
    requires Begun(after, s, t, done, env) && name in after
    requires forall n | n != name :: Met(t, u, n, Kept, after)
    requires !(after[name].enabled && name !in env.startFails) ==> u == t
    requires after[name].enabled && name !in env.startFails ==>
      name in u && u[name].config == after[name] && u[name] !in s.Values
    ensures Begun(after, s, u, done + [name], env)
  {
    forall n
      ensures Met(s, u, n, BeginFate(after, n, done + [name], env), after)
    {
      assert Met(s, t, n, BeginFate(after, n, done, env), after);
      if n != name { assert Met(t, u, n, Kept, after); }
    }
  }

  /** The three steps of a reload, one after the other. */
  lemma StepsReload(before: Config, after: Config, s: Table, t: Table, u: Table, v: Table,
                    toStop: seq<Name>, toStart: seq<Name>, toUpdate: seq<Name>, env: Env)
    requires forall n :: n in toStop <==> IsRemoved(before, after, n)
    requires forall n :: n in toStart <==> IsNew(before, after, n)
    requires forall n :: n in toUpdate <==> IsChanged(before, after, n)
    requires t == map n | n in s && n !in toStop :: s[n]
    requires Begun(after, t, u, toStart, env)
    requires forall n | IsFresh(t, u, n) :: u[n] !in s.Values
    requires Updated(after, u, v, toUpdate, env)
    requires forall n | IsFresh(u, v, n) :: v[n] !in s.Values
    ensures Reloaded(before, after, s, v, env)
  {
    forall n ensures Met(s, v, n, FateOf(before, after, n, n in s, env), after) {
      assert Met(t, u, n, BeginFate(after, n, toStart, env), after);
      assert Met(u, v, n, if n in toUpdate && n in after then UpdateFate(after, n, n in u, env) else Kept, after);
      assert n in toStop <==> IsRemoved(before, after, n);
      assert n in toStart <==> IsNew(before, after, n);
      assert n in toUpdate <==> IsChanged(before, after, n);
    }
  }

  /** `t` has another supervisor for the name than `s`. */
  predicate IsFresh(s: Table, t: Table, n: Name) {
    n in t && !(n in s && t[n] == s[n])
  }

  /** Different names have different supervisors. */
  predicate Injective(s: Table) {
    forall m, n | m in s && n in s && m != n :: s[m] != s[n]
  }

  /** Whatever is in `t` and was not in `s` is none of the objects known before, and running. */
  ghost predicate NewOnesRun(known: set<Supervisor>, s: Table, t: Table)
    reads t.Values
  {
    forall n | IsFresh(s, t, n) :: t[n] !in known && t[n].running
  }

  /** What runs in the table. */
  ghost function Running(s: Table): map<Name, bool>
    reads s.Values
  {
    map n | n in s :: s[n].running
  }

  /** The supervisors of `s` run as they did in `ran`, except those of the names in `halted`. */
  ghost predicate Ran(s: Table, ran: map<Name, bool>, halted: seq<Name>)
    reads s.Values
  {
    ran.Keys == s.Keys && forall n | n in s :: s[n].running == (ran[n] && n !in halted)
  }

  /** Up to the updates, a supervisor of the old table is in the new one only under its own name. */
  lemma SameOwner(after: Config, s: Table, t: Table, u: Table, toStop: seq<Name>, toStart: seq<Name>, env: Env, n: Name)
    requires Injective(s) && n in s && t == map x | x in s && x !in toStop :: s[x]
    requires Begun(after, t, u, toStart, env)
    requires forall x | IsFresh(t, u, x) :: u[x] !in s.Values
    ensures s[n] in u.Values ==> n in u && u[n] == s[n]
  {
    if s[n] in u.Values {
      var m :| m in u && u[m] == s[n];
      assert s[n] in s.Values;
      assert m in t && u[m] == t[m] == s[m];
    }
  }

  /** A supervisor that was not in the table before comes from the updates, or from the starts before them. */
  lemma WhoIsNew(after: Config, s: Table, t: Table, u: Table, v: Table, toStop: seq<Name>, toUpdate: seq<Name>, n: Name)
    requires t == map x | x in s && x !in toStop :: s[x]
    requires forall x | x in toUpdate :: Met(s, u, x, Kept, after)
    requires IsFresh(s, v, n)
    ensures IsFresh(u, v, n) || (n in u && v[n] == u[n] && IsFresh(t, u, n) && n !in toUpdate)
  {}

  class Manager {
    var config: Config
    var processes: Table

    constructor (config: Config)
      ensures this.config == config && processes == map[]
    {
      this.config := config;
      processes := map[];
    }

    /** The names to stop, to start and to update, in the arbitrary order of the map iteration. */
    method Plan(newCfg: Config) returns (toStop: seq<Name>, toStart: seq<Name>, toUpdate: seq<Name>)
      ensures forall n :: n in toStop <==> IsRemoved(config, newCfg, n)
      ensures forall n :: n in toStart <==> IsNew(config, newCfg, n)
      ensures forall n :: n in toUpdate <==> IsChanged(config, newCfg, n)
      ensures forall i, j | 0 <= i < j < |toUpdate| :: toUpdate[i] != toUpdate[j]
    {
      toStop := [];
      toStart := [];
      toUpdate := [];
      var names := config.Keys;
      while names != {}
        invariant names <= config.Keys
        invariant forall n :: n in toStop <==> n !in names && IsRemoved(config, newCfg, n)
        decreases names
      {
        var name :| name in names;
        names := names - {name};
        if name !in newCfg {
          toStop := toStop + [name];
        }
      }
      names := newCfg.Keys;
      while names != {}
        invariant names <= newCfg.Keys
        invariant forall n :: n in toStart <==> n !in names && IsNew(config, newCfg, n)
        invariant forall n :: n in toUpdate <==> n !in names && IsChanged(config, newCfg, n)
        invariant forall i, j | 0 <= i < j < |toUpdate| :: toUpdate[i] != toUpdate[j]
        decreases names
      {
        var name :| name in names;
        names := names - {name};
        if name in config {
          var equal := Equal(Some(config[name]), Some(newCfg[name]));
          if !equal {
            toUpdate := toUpdate + [name];
          }
        } else {
          toStart := toStart + [name];
        }
      }
    }

    /** A removed process leaves the table, and its supervisor is stopped; an error that Stop returns is only logged. */
    method StopRemovedProcesses(names: seq<Name>)
      requires Injective(processes)
      modifies `processes, processes.Values
      ensures processes == map n | n in old(processes) && n !in names :: old(processes)[n]
      ensures Ran(old(processes), old(Running(processes)), names)
    {
      ghost var before, ran := processes, Running(processes);
      var i := 0;
      while i < |names|
        invariant 0 <= i <= |names|
        invariant processes == map n | n in before && n !in names[..i] :: before[n]
        invariant Ran(before, ran, names[..i])
        modifies `processes, before.Values
      {
        StopNext(names, i, before, ran);
        i := i + 1;
      }
      assert names[..i] == names;
    }

    /** One turn of that loop; `s` is the table and `ran` what was running at its start. */
    method StopNext(names: seq<Name>, i: nat, ghost s: Table, ghost ran: map<Name, bool>)
      requires Injective(s) && i < |names| && processes == map n | n in s && n !in names[..i] :: s[n]
      requires Ran(s, ran, names[..i])
      modifies `processes, if names[i] in processes then {processes[names[i]]} else {}
      ensures processes == map n | n in s && n !in names[..i + 1] :: s[n]
      ensures Ran(s, ran, names[..i + 1])
    {
      var name := names[i];
      assert names[..i + 1] == names[..i] + [name];
      if name in processes {
        processes[name].Stop();
        processes := processes - {name};
      }
    }

    /** Starts a supervisor for `name`; only if it starts does it take the place of whatever was there. */
    method StartSupervisor(name: Name, definition: Process, ok: bool)
      modifies `processes
      ensures !ok ==> processes == old(processes)
      ensures ok ==> name in processes && processes == old(processes)[name := processes[name]]
      ensures ok ==> fresh(processes[name]) && processes[name].config == definition && processes[name].running
    {
      var supervisor := new Supervisor(definition);
      supervisor.Start(ok);
      if !ok {
        return;
      }
      processes := processes[name := supervisor];
    }

    /** The names of `names` that are enabled and start have new supervisors; nothing else changes. */
    method StartNewProcesses(cfg: Config, names: seq<Name>, env: Env)
      requires Injective(processes)
      requires forall n | n in names :: n in cfg
      modifies `processes
      ensures Injective(processes) && Begun(cfg, old(processes), processes, names, env)
      ensures forall n | IsFresh(old(processes), processes, n) ::
                fresh(processes[n]) && processes[n].running
    {
      ghost var before := processes;
      var i := 0;
      while i < |names|
        invariant 0 <= i <= |names| && Injective(processes)
        invariant Begun(cfg, before, processes, names[..i], env)
        invariant forall n | IsFresh(before, processes, n) ::
                    fresh(processes[n]) && processes[n].running
      {
        var name := names[i];
        ghost var mid := processes;
        if cfg[name].enabled {
          StartSupervisor(name, cfg[name], name !in env.startFails);
        }
        OneMoreBegun(cfg, before, mid, processes, names[..i], name, env);
        assert names[..i + 1] == names[..i] + [name];
        i := i + 1;
      }
      assert names[..i] == names;
    }

    /** One turn of the loop over the changed processes. */
    method UpdateProcess(cfg: Config, name: Name, env: Env)
      requires name in cfg && Injective(processes)
      modifies `processes, if name in processes then {processes[name]} else {}
      ensures Injective(processes)
      ensures forall n | n != name :: Met(old(processes), processes, n, Kept, cfg)
      ensures Met(old(processes), processes, name, UpdateFate(cfg, name, name in old(processes), env), cfg)
      ensures name in old(processes) ==> !old(processes)[name].running
      ensures IsFresh(old(processes), processes, name) ==>
                fresh(processes[name]) && processes[name].running
      ensures forall n | n in old(processes) && n != name :: old(processes)[n].running == old(processes[n].running)
    {
      var procCfg := cfg[name];
      if name in processes {
        processes[name].Stop();
        if name in env.stopFails {
          return;
        }
        if procCfg.enabled {
          StartSupervisor(name, procCfg, name !in env.startFails);
        } else {
          processes := processes - {name};
        }
      } else if procCfg.enabled {
        StartSupervisor(name, procCfg, name !in env.startFails);
      }
    }

    /** That turn, seen from the start of the loop: `s` is the table and `ran` what was running then. */
    method UpdateNext(cfg: Config, names: seq<Name>, i: nat, env: Env, ghost s: Table, ghost ran: map<Name, bool>,
                      ghost known: set<Supervisor>)
      requires Injective(processes) && Injective(s) && s.Values <= known
      requires i < |names| && names[i] in cfg && names[i] !in names[..i]
      requires Updated(cfg, s, processes, names[..i], env) && NewOnesRun(known, s, processes)
      requires Ran(s, ran, names[..i])
      modifies `processes, s.Values
      ensures Injective(processes)
      ensures Updated(cfg, s, processes, names[..i + 1], env) && NewOnesRun(known, s, processes)
      ensures Ran(s, ran, names[..i + 1])
    {
      ghost var mid := processes;
      var name := names[i];
      assert Met(s, mid, name, Kept, cfg);
      UpdateProcess(cfg, name, env);
      assert names[..i + 1] == names[..i] + [name];
      OneMoreUpdated(cfg, s, mid, processes, names[..i], name, env);
      forall n | IsFresh(s, processes, n) && n != name
        ensures processes[n] !in known && processes[n].running
      {
        assert Met(mid, processes, n, Kept, cfg);
      }
    }

    method UpdateChangedProcesses(cfg: Config, names: seq<Name>, env: Env, ghost known: set<Supervisor>)
      requires Injective(processes) && processes.Values <= known
      requires forall n | n in names :: n in cfg
      requires forall i, j | 0 <= i < j < |names| :: names[i] != names[j]
      modifies `processes, processes.Values
      ensures Injective(processes)
      ensures Updated(cfg, old(processes), processes, names, env) && NewOnesRun(known, old(processes), processes)
      ensures Ran(old(processes), old(Running(processes)), names)
    {
      ghost var before, ran := processes, Running(processes);
      var i := 0;
      while i < |names|
        invariant 0 <= i <= |names| && Injective(processes)
        invariant Updated(cfg, before, processes, names[..i], env) && NewOnesRun(known, before, processes)
        invariant Ran(before, ran, names[..i])
        modifies `processes, before.Values
      {
        assert names[i] !in names[..i];
        UpdateNext(cfg, names, i, env, before, ran, known);
        i := i + 1;
      }
      assert names[..i] == names;
    }

    /** One reload. `loaded` is what reading the file gives; without a path or a readable file nothing changes. */
    method ReloadConfig(hasPath: bool, loaded: Option<Config>, env: Env) returns (ok: bool)
      requires Injective(processes)
      modifies this, processes.Values
      ensures ok <==> hasPath && loaded.Some?
      ensures !ok ==> config == old(config) && processes == old(processes)
      ensures ok ==> config == loaded.value
      ensures ok ==> Reloaded(old(config), config, old(processes), processes, env)
      ensures Injective(processes)
      ensures forall n | n in old(processes) ::
                old(processes)[n].running == (old(processes[n].running) && !(ok && Stopped(old(config), config, n)))
      ensures forall n | IsFresh(old(processes), processes, n) :: processes[n].running
    {
      if !hasPath || loaded.None? {
        return false;
      }
      ok := true;
      var toStop, toStart, toUpdate := Plan(loaded.value);
      Apply(loaded.value, toStop, toStart, toUpdate, env);
    }

    /** The plan carried out: stop, switch to the new configuration, start, update. */
    method Apply(newCfg: Config, toStop: seq<Name>, toStart: seq<Name>, toUpdate: seq<Name>, env: Env)
      requires Injective(processes)
      requires forall n :: n in toStop <==> IsRemoved(config, newCfg, n)
      requires forall n :: n in toStart <==> IsNew(config, newCfg, n)
      requires forall n :: n in toUpdate <==> IsChanged(config, newCfg, n)
      requires forall i, j | 0 <= i < j < |toUpdate| :: toUpdate[i] != toUpdate[j]
      modifies this, processes.Values
      ensures config == newCfg && Injective(processes)
      ensures Reloaded(old(config), newCfg, old(processes), processes, env)
      ensures forall n | n in old(processes) ::
                old(processes)[n].running == (old(processes[n].running) && !Stopped(old(config), newCfg, n))
      ensures forall n | IsFresh(old(processes), processes, n) :: processes[n].running
    {
      ghost var s := processes;
      ghost var t := StopAndStart(newCfg, toStop, toStart, env);
      ghost var u := processes;
      forall n | n in toUpdate ensures Met(s, u, n, Kept, newCfg) {
        assert n !in toStop && n !in toStart && Met(t, u, n, BeginFate(newCfg, n, toStart, env), newCfg);
      }
      UpdateChangedProcesses(newCfg, toUpdate, env, s.Values + u.Values);
      StepsReload(old(config), newCfg, s, t, u, processes, toStop, toStart, toUpdate, env);
      forall n | IsFresh(s, processes, n) ensures processes[n].running {
        WhoIsNew(newCfg, s, t, u, processes, toStop, toUpdate, n);
      }
    }

    /** The first two steps; `t` is the table between them. */
    method StopAndStart(newCfg: Config, toStop: seq<Name>, toStart: seq<Name>, env: Env) returns (ghost t: Table)
      requires Injective(processes) && forall n | n in toStart :: n in newCfg
      modifies this, processes.Values
      ensures config == newCfg && Injective(processes)
      ensures t == map n | n in old(processes) && n !in toStop :: old(processes)[n]
      ensures Begun(newCfg, t, processes, toStart, env) && Ran(old(processes), old(Running(processes)), toStop)
      ensures forall n | IsFresh(t, processes, n) :: fresh(processes[n]) && processes[n].running
      ensures forall n | n in old(processes) && old(processes)[n] in processes.Values ::
                n in processes && processes[n] == old(processes)[n]
    {
      ghost var s := processes;
      StopRemovedProcesses(toStop);
      t := processes;
      config := newCfg;
      StartNewProcesses(newCfg, toStart, env);
      forall n | n in s && s[n] in processes.Values ensures n in processes && processes[n] == s[n] {
        SameOwner(newCfg, s, t, processes, toStop, toStart, env, n);
      }
    }
  }
}
