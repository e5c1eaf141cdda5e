/** What reloads amount to: the table of supervisors follows the newest configuration. */
module ReloadConvergence {
  import opened Names
  import opened ProcessEquality
  import opened Reload
  import opened Results
  import Startup

  /** The name has a supervisor exactly when it is enabled, and the supervisor runs an equal definition. */
  predicate ConvergedAt(cfg: Config, t: Table, n: Name) {
    && (n in t <==> n in cfg && cfg[n].enabled)
    && (n in t ==> Same(t[n].config, cfg[n]))
  }

  ghost predicate Converged(cfg: Config, t: Table) {
    forall n :: ConvergedAt(cfg, t, n)
  }

  /** No failure of the environment touches this name in this reload. A process that is merely removed needs nothing. */
  predicate Untroubled(before: Config, after: Config, n: Name, env: Env) {
    && (IsChanged(before, after, n) && before[n].enabled ==> n !in env.stopFails)
    && ((IsNew(before, after, n) || IsChanged(before, after, n)) && after[n].enabled ==> n !in env.startFails)
  }

  /** Definitions that are the same are enabled alike. */
  lemma SameEnabled(p: Process, q: Process)
    ensures Same(p, q) ==> p.enabled == q.enabled
  {}

  /** From a table that agrees with the old configuration, a reload reaches one that agrees with the new configuration
    * for exactly the names that no failure touches. */
  lemma ConvergedAtIff(before: Config, after: Config, s: Table, t: Table, n: Name, env: Env)
    requires ConvergedAt(before, s, n)
    requires Met(s, t, n, FateOf(before, after, n, n in s, env), after)
    ensures ConvergedAt(after, t, n) <==> Untroubled(before, after, n, env)
  {
    if n in before && n in after {
      SameEnabled(before[n], after[n]);
      if n in s {
        SameIsEquivalence(s[n].config, before[n], after[n]);
        SameIsEquivalence(before[n], s[n].config, after[n]);
      }
      SameIsEquivalence(after[n], after[n], after[n]);
    } else if n in after {
      SameIsEquivalence(after[n], after[n], after[n]);
    }
  }

  lemma ConvergedIff(before: Config, after: Config, s: Table, t: Table, env: Env)
    requires Converged(before, s) && Reloaded(before, after, s, t, env)
    ensures Converged(after, t) <==> forall n :: Untroubled(before, after, n, env)
  {
    forall n ensures ConvergedAt(after, t, n) <==> Untroubled(before, after, n, env) {
      assert ConvergedAt(before, s, n);
      assert Met(s, t, n, FateOf(before, after, n, n in s, env), after);
      ConvergedAtIff(before, after, s, t, n, env);
    }
  }

  /** A run of reloads without failures: `cfgs[i]` is the configuration, `tables[i]` the table after `i` reloads. */
  ghost predicate IsRun(cfgs: seq<Config>, tables: seq<Table>) {
    |cfgs| == |tables| >= 1 &&
    forall i | 0 <= i < |cfgs| - 1 :: Reloaded(cfgs[i], cfgs[i + 1], tables[i], tables[i + 1], SMOOTH)
  }

  /** Reloads converge, however many there have been. */
  lemma {:induction false} RunConverges(cfgs: seq<Config>, tables: seq<Table>, k: nat)
    requires IsRun(cfgs, tables) && Converged(cfgs[0], tables[0]) && k < |cfgs|
    ensures Converged(cfgs[k], tables[k])
  {
    if k > 0 {
      RunConverges(cfgs, tables, k - 1);
      var before, after := cfgs[k - 1], cfgs[k - 1 + 1];
      assert Reloaded(before, after, tables[k - 1], tables[k - 1 + 1], SMOOTH);
      assert forall n :: Untroubled(before, after, n, SMOOTH);
      ConvergedIff(before, after, tables[k - 1], tables[k], SMOOTH);
    }
  }

  /** The definition of `n` has stayed the same, up to what `Equal` ignores, from configuration `i` to `j`. */
  predicate StayedSame(cfgs: seq<Config>, n: Name, i: nat, j: nat) {
    i <= j < |cfgs| && n in cfgs[i] &&
    forall k | i <= k <= j :: n in cfgs[k] && Same(cfgs[i][n], cfgs[k][n])
  }

  /** While its definition stays the same, a process keeps its supervisor: the same object, not an equal one. */
  lemma {:induction false} UnchangedKeepsObject(cfgs: seq<Config>, tables: seq<Table>, n: Name, i: nat, j: nat)
    requires IsRun(cfgs, tables) && StayedSame(cfgs, n, i, j) && n in tables[i]
    ensures n in tables[j] && tables[j][n] == tables[i][n]
    decreases j
  {
    if i < j {
      UnchangedKeepsObject(cfgs, tables, n, i, j - 1);
      var before, after := cfgs[j - 1], cfgs[j - 1 + 1];
      SameIsEquivalence(cfgs[i][n], before[n], after[n]);
      SameIsEquivalence(before[n], cfgs[i][n], after[n]);
      assert Reloaded(before, after, tables[j - 1], tables[j - 1 + 1], SMOOTH);
      assert Met(tables[j - 1], tables[j], n, FateOf(before, after, n, n in tables[j - 1], SMOOTH), after);
    }
  }

  /** A process that is not changed is not restarted, and a changed one always is: in one reload without failures
    * a supervisor stays exactly when the definition does. */
  lemma ObjectStaysIff(before: Config, after: Config, s: Table, t: Table, n: Name)
    requires Converged(before, s) && Reloaded(before, after, s, t, SMOOTH) && n in s
    ensures (n in t && t[n] == s[n]) <==> (n in before && n in after && Same(before[n], after[n]))
  {
    assert ConvergedAt(before, s, n);
    assert Met(s, t, n, FateOf(before, after, n, n in s, SMOOTH), after);
    assert s[n] in s.Values;
  }

  /** A failure is not retried: a name that does not agree with its configuration stays so, whatever the environment
    * does, until a reload changes its definition. */
  lemma DivergenceStays(before: Config, after: Config, s: Table, t: Table, n: Name, env: Env)
    requires Reloaded(before, after, s, t, env)
    requires n in before && n in after && Same(before[n], after[n])
    requires !ConvergedAt(before, s, n)
    ensures !ConvergedAt(after, t, n)
  {
    assert Met(s, t, n, FateOf(before, after, n, n in s, env), after);
    SameEnabled(before[n], after[n]);
    if n in s {
      SameIsEquivalence(s[n].config, after[n], before[n]);
      SameIsEquivalence(before[n], after[n], before[n]);
    }
  }

  /** And a changed definition that meets no failure puts it right, whatever the table held. */
  lemma ChangeRepairs(before: Config, after: Config, s: Table, t: Table, n: Name, env: Env)
    requires Reloaded(before, after, s, t, env)
    requires IsChanged(before, after, n) && n !in env.stopFails && n !in env.startFails
    ensures ConvergedAt(after, t, n)
  {
    assert Met(s, t, n, FateOf(before, after, n, n in s, env), after);
    SameIsEquivalence(after[n], after[n], after[n]);
  }

  /** A stopped supervisor stays in the table in two cases: stopping it returned an error, or its successor failed to
    * start. */
  lemma KeptButStopped(before: Config, after: Config, n: Name, env: Env)
    ensures FateOf(before, after, n, true, env) == Kept && Stopped(before, after, n) <==>
      (IsChanged(before, after, n) && (n in env.stopFails || (after[n].enabled && n in env.startFails)))
  {}

  /** The configuration as the startup run sees it. */
  predicate Describes(config: Startup.Config, cfg: Config) {
    config.Keys == cfg.Keys &&
    forall n | n in cfg ::
      && config[n].definition == cfg[n] && config[n].enabled == cfg[n].enabled
      && (config[n].scheduled <==> cfg[n].schedule != "")
  }

  /** The table a startup run leaves: a supervisor was made for each of these with its definition. */
  predicate Represents(t: Table, processes: map<Name, Startup.Supervisor>) {
    t.Keys == processes.Keys && forall n | n in t :: t[n].config == processes[n].config.definition
  }

  /** A successful startup with nothing scheduled is where convergence begins: `past` is what the run did. */
  lemma StartupConverges(config: Startup.Config, cfg: Config, processes: map<Name, Startup.Supervisor>,
                         past: set<Startup.Event>, t: Table)
    requires Describes(config, cfg) && Represents(t, processes)
    requires Startup.Handled(config, processes, past, Startup.GraphOf(config).Keys)
    requires forall n | n in cfg && cfg[n].enabled :: cfg[n].schedule == ""
    ensures Converged(cfg, t)
  {
    forall n ensures ConvergedAt(cfg, t, n) {
      assert n in Startup.GraphOf(config) <==> n in cfg && cfg[n].enabled;
      if n in t { SameIsEquivalence(cfg[n], cfg[n], cfg[n]); }
    }
  }

  /** A process that is enabled before and after a reload without failures has a new supervisor, with the new definition
    * and running, exactly when one of the fields that count is different; the old supervisor is stopped then. */
  method RestartsWhenDifferent(m: Manager, after: Config, n: Name)
    requires Converged(m.config, m.processes) && Injective(m.processes)
    requires n in m.config && n in after && m.config[n].enabled && after[n].enabled
    modifies m, m.processes.Values
    ensures m.config == after && n in old(m.processes) && n in m.processes
    ensures m.processes[n] == old(m.processes[n]) <==> !Differ(old(m.config)[n], after[n])
    ensures Differ(old(m.config)[n], after[n]) ==>
      m.processes[n].config == after[n] && m.processes[n].running && !old(m.processes[n]).running
    ensures !Differ(old(m.config)[n], after[n]) ==> m.processes[n].running == old(m.processes[n].running)
  {
    ghost var before, s := m.config, m.processes;
    assert ConvergedAt(before, s, n);
    SameMeans(before[n], after[n]);
    var ok := m.ReloadConfig(true, Some(after), SMOOTH);
    assert Met(s, m.processes, n, FateOf(before, after, n, n in s, SMOOTH), after);
    assert s[n] in s.Values;
  }

  /** A changed definition whose successor fails to start, or whose supervisor returns an error when it is stopped: the
    * table keeps the old supervisor, which is stopped. */
  method StoppedExample(m: Manager, n: Name, p: Process, env: Env)
    requires p.enabled && m.config == map[n := p] && m.processes.Keys == {n} && m.processes[n].config == p
    requires env == Env({}, {n}) || env == Env({n}, {})
    modifies m, m.processes.Values
    ensures n in m.processes && m.processes[n] == old(m.processes[n]) && !m.processes[n].running
    ensures n in m.config && !ConvergedAt(m.config, m.processes, n)
  {
    var q := p.(scale := p.scale + 1);
    ghost var s := m.processes;
    assert !Same(p, q) by { assert p.(uncompared := q.uncompared).scale != q.scale; }
    assert IsChanged(map[n := p], map[n := q], n);
    var ok := m.ReloadConfig(true, Some(map[n := q]), env);
    assert Met(s, m.processes, n, Kept, map[n := q]);
  }
}
