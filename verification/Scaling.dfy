/** The control calls of internal/process/manager_scaling.go, one at a time. A restart replaces an
    instance by one with the same number, so the list of numbers is all these calls can see. */
module Scaling {
  import opened Integers
  import opened Names
  import opened Results

  datatype ProcessConfig = ProcessConfig(oneshot: bool, scale: int, maxScale: int)

  datatype ScaleError =
    | EmptyName
    | ExceedsMaximum
    | NotFound
    | ExceedsMaxScale
    | OneshotCannotScale
    | StopFailed
    | StartFailed
    | ScaleUpFailed
    | ScaleDownFailed

  /** Which instance starts and stops succeed. */
  datatype Env = Env(starts: nat -> bool, stops: nat -> bool)

  /** Every start and every stop succeeds. */
  ghost predicate Smooth(env: Env) {
    forall k: nat :: env.starts(k) && env.stops(k)
  }

  /** The number of instances that scaling from `current` to `desired` ends with, when Start reads `scale`. */
  function Ends(desired: int, current: nat, scale: int): nat {
    if desired <= 0 || current > 0 then Max0(desired)
    else if desired == 1 || Max0(scale) > desired then Max0(scale)
    else desired
  }

  /** 0, 1, ..., n - 1. */
  function Numbers(n: nat): (r: seq<nat>)
    ensures |r| == n && forall i :: 0 <= i < n ==> r[i] == i
  {
    seq(n, i => i)
  }

  class Supervisor {
    var list: seq<nat>       // the numbers of s.instances
    var scale: int           // Scale in the config object the supervisor holds
    const sharesConfig: bool // that object is the one in the manager's configuration

    constructor (scale: int, sharesConfig: bool)
      ensures list == [] && this.scale == scale && this.sharesConfig == sharesConfig
    {
      list, this.scale, this.sharesConfig := [], scale, sharesConfig;
    }

    /** Adds `scale` instances numbered from zero to whatever the list holds; a failure leaves the ones already
        started in the list. */
    method Start(env: Env) returns (ok: bool)
      modifies `list
      ensures |old(list)| <= |list| <= |old(list)| + Max0(scale)
      ensures list == old(list) + Numbers(|list| - |old(list)|)
      ensures ok <==> |list| == |old(list)| + Max0(scale)
      ensures ok <==> forall i :: 0 <= i < Max0(scale) ==> env.starts(i)
    {
      var i := 0;
      while i < scale
        invariant 0 <= i <= Max0(scale) && list == old(list) + Numbers(i)
        invariant forall k :: 0 <= k < i ==> env.starts(k)
      {
        if !env.starts(i) { return false; }
        list := list + [i];
        i := i + 1;
      }
      return true;
    }

    /** All of the new instances or none of them. */
    method ScaleUp(target: int, env: Env) returns (ok: bool)
      modifies `list
      ensures ok <==> target > |old(list)| && forall k :: |old(list)| <= k < target ==> env.starts(k)
      ensures ok && old(list) == Numbers(|old(list)|) ==> list == Numbers(target)
      ensures !ok ==> list == old(list)
    {
      var current := |list|;
      if target <= current { return false; }
      var added: seq<nat> := [];
      for i := 0 to target - current
        invariant |added| == i && forall k :: 0 <= k < i ==> added[k] == current + k
        invariant forall k :: current <= k < current + i ==> env.starts(k)
      {
        if !env.starts(current + i) { return false; }
        added := added + [current + i];
      }
      list := list + added;
      return true;
    }

    /** The list is cut even when an instance could not be stopped. */
    method ScaleDown(target: nat, env: Env) returns (ok: bool)
      modifies `list
      ensures target >= |old(list)| ==> !ok && list == old(list)
      ensures target < |old(list)| ==> list == old(list)[..target]
      ensures target < |old(list)| ==>
        (ok <==> forall k :: target <= k < |old(list)| ==> env.stops(old(list)[k]))
    {
      if target >= |list| { return false; }
      ok := true;
      for i := target to |list|
        invariant ok <==> forall k :: target <= k < i ==> env.stops(list[k])
      {
        if !env.stops(list[i]) { ok := false; }
      }
      list := list[..target];
    }

    method Stop(env: Env) returns (ok: bool)
      modifies `list
      ensures list == []
      ensures ok <==> forall k :: 0 <= k < |old(list)| ==> env.stops(old(list)[k])
    {
      ok := true;
      for i := 0 to |list|
        invariant ok <==> forall k :: 0 <= k < i ==> env.stops(list[k])
      {
        if !env.stops(list[i]) { ok := false; }
      }
      list := [];
    }
  }

  class Manager {
    var config: map<Name, ProcessConfig>
    const processes: map<Name, Supervisor>
    const maxProcessScale: int

    constructor (config: map<Name, ProcessConfig>, processes: map<Name, Supervisor>, maxProcessScale: int)
      ensures this.config == config && this.processes == processes && this.maxProcessScale == maxProcessScale
    {
      this.config, this.processes, this.maxProcessScale := config, processes, maxProcessScale;
    }

    /** Writes Scale into the manager's config object, which the supervisor may share. */
    method SetScale(name: Name, scale: int)
      requires name in config && name in processes
      modifies this`config, processes[name]
      ensures processes[name].list == old(processes[name].list)
      ensures config == old(config)[name := old(config)[name].(scale := scale)]
      ensures processes[name].scale == if processes[name].sharesConfig then scale else old(processes[name].scale)
    {
      config := config[name := config[name].(scale := scale)];
      if processes[name].sharesConfig {
        processes[name].scale := scale;
      }
    }

    /** The checks that come before anything is changed, in their order. */
    function Refusal(name: Name, desired: int): Option<ScaleError>
      reads this
    {
      if name.text == "" then Some(EmptyName)
      else if desired > maxProcessScale then Some(ExceedsMaximum)
      else if name !in config || name !in processes then Some(NotFound)
      else if config[name].maxScale > 0 && desired > config[name].maxScale then Some(ExceedsMaxScale)
      else if config[name].oneshot then Some(OneshotCannotScale)
      else None
    }

    /** Each refusal has one cause, and nothing else is refused. */
    lemma RefusalMeans(name: Name, desired: int)
      ensures Refusal(name, desired).None? <==>
        && name.text != "" && desired <= maxProcessScale && name in config && name in processes
        && (config[name].maxScale <= 0 || desired <= config[name].maxScale) && !config[name].oneshot
      ensures Refusal(name, desired) == Some(OneshotCannotScale) ==> name in config && config[name].oneshot
      ensures Refusal(name, desired) == Some(ExceedsMaxScale) ==>
        name in config && 0 < config[name].maxScale < desired
      ensures Refusal(name, desired) == Some(NotFound) ==> name !in config || name !in processes
      ensures Refusal(name, desired) == Some(ExceedsMaximum) ==> desired > maxProcessScale
      ensures Refusal(name, desired) == Some(EmptyName) ==> name.text == ""
    {}

    /** The length of the list after a successful call. Only a supervisor that was stopped and holds a
        config object of its own can end elsewhere than at the number asked for. */
    function Outcome(name: Name, desired: int, current: nat): (n: nat)
      requires name in processes
      reads processes[name]
      ensures n == Max0(desired) <==>
              (desired <= 0 || current > 0 || processes[name].sharesConfig
               || Max0(processes[name].scale) == desired
               || (desired > 1 && processes[name].scale < desired))
    {
      Ends(desired, current, if processes[name].sharesConfig then desired else processes[name].scale)
    }

    /** `n` instances of the process are within both maxima. */
    predicate Fits(name: Name, n: nat)
      requires name in config
      reads this
    {
      n <= Max0(maxProcessScale) && (config[name].maxScale > 0 ==> n <= config[name].maxScale)
    }

    /** Everything a scaling call starts from is bounded: either the number asked for is what results, or the scale in
        the object the supervisor holds is itself within the maxima. */
    predicate Bounded(name: Name, desired: int)
      requires name in config && name in processes
      reads this, processes[name]
    {
      || desired <= 0 || processes[name].list != [] || processes[name].sharesConfig
      || Fits(name, Max0(processes[name].scale))
    }

    /** A shared config object has one scale, whoever reads it. */
    predicate InStep(name: Name)
      requires name in processes
      reads this, processes[name]
    {
      name in config && processes[name].sharesConfig ==> processes[name].scale == config[name].scale
    }

    method ScaleFromZero(name: Name, desired: int, env: Env) returns (r: Result<(), ScaleError>)
      requires name in config && name in processes && processes[name].list == [] && desired >= 1
      modifies this`config, processes[name]
      ensures processes[name].list == Numbers(|processes[name].list|)
      ensures r.Success? ==> |processes[name].list| == old(Outcome(name, desired, 0))
      ensures r.Failure? ==> r.error == StartFailed || r.error == ScaleUpFailed
      ensures Smooth(env) ==> r.Success?
      ensures config == old(config)[name := old(config)[name].(scale := desired)]
      ensures processes[name].scale == if processes[name].sharesConfig then desired else old(processes[name].scale)
    {
      var sup := processes[name];
      SetScale(name, desired);
      var started := sup.Start(env);
      assert [] + Numbers(|sup.list|) == Numbers(|sup.list|);
      if !started { return Failure(StartFailed); }
      if desired == 1 { return Success(()); }
      if |sup.list| < desired {
        var ok := sup.ScaleUp(desired, env);
        if !ok { return Failure(ScaleUpFailed); }
      }
      return Success(());
    }

    /** Go's ScaleProcess. */
    method ScaleProcess(name: Name, desired: int, env: Env) returns (r: Result<(), ScaleError>)
      requires name in processes ==> processes[name].list == Numbers(|processes[name].list|)
      modifies this`config, if name in processes then {processes[name]} else {}
      ensures name in processes ==> processes[name].list == Numbers(|processes[name].list|)
      ensures old(Refusal(name, desired)).Some? ==> r == Failure(old(Refusal(name, desired)).value)
      ensures old(Refusal(name, desired)).Some? ==> config == old(config)
      ensures old(Refusal(name, desired)).Some? && name in processes ==>
        processes[name].list == old(processes[name].list)
      ensures r.Success? ==> name in processes && name in old(config) && name in config
      ensures name in old(config) && old(config)[name].oneshot ==> r.Failure?
      ensures r.Success? ==> (Fits(name, |processes[name].list|) <==> old(Bounded(name, desired)))
      ensures r.Success? && old(Bounded(name, desired)) ==>
        && |processes[name].list| <= Max0(maxProcessScale)
        && (config[name].maxScale > 0 ==> |processes[name].list| <= config[name].maxScale)
      ensures r.Success? ==>
        |processes[name].list| == old(Outcome(name, desired, |processes[name].list|))
      ensures r.Success? && |old(processes[name].list)| != Max0(desired) ==>
        config == old(config)[name := old(config)[name].(scale := Max0(desired))]
      ensures r.Success? && |old(processes[name].list)| == Max0(desired) ==> config == old(config)
      ensures old(Refusal(name, desired)).None? && Smooth(env) ==> r.Success?
      ensures name in processes && !processes[name].sharesConfig ==> processes[name].scale == old(processes[name].scale)
      ensures name in processes && old(InStep(name)) ==> InStep(name)
      ensures r == Failure(StopFailed) ==> name in processes && processes[name].list == [] && config == old(config)
      ensures r == Failure(ScaleUpFailed) && old(processes[name].list) != [] ==>
        name in processes && processes[name].list == old(processes[name].list) && config == old(config)
      ensures r == Failure(ScaleDownFailed) ==>
        name in processes && processes[name].list == Numbers(Max0(desired)) && config == old(config)
    {
      if name.text == "" { return Failure(EmptyName); }
      if desired > maxProcessScale { return Failure(ExceedsMaximum); }
      if name !in config || name !in processes { return Failure(NotFound); }
      var cfg, sup := config[name], processes[name];
      if cfg.maxScale > 0 && desired > cfg.maxScale { return Failure(ExceedsMaxScale); }
      if cfg.oneshot { return Failure(OneshotCannotScale); }
      var current := |sup.list|;
      if desired <= 0 {
        if current == 0 { return Success(()); }
        var stopped := sup.Stop(env);
        if !stopped { return Failure(StopFailed); }
        SetScale(name, 0);
        return Success(());
      }
      if current == 0 {
        r := ScaleFromZero(name, desired, env);
        return;
      }
      if current == desired { return Success(()); }
      if desired > current {
        var up := sup.ScaleUp(desired, env);
        if !up { return Failure(ScaleUpFailed); }
      } else {
        var down := sup.ScaleDown(desired, env);
        if !down { return Failure(ScaleDownFailed); }
      }
      SetScale(name, desired);
      return Success(());
    }

    function Adjusted(name: Name, current: nat, delta: int): nat
      requires name in processes
      reads processes[name]
    {
      if Max0(current + delta) == current then current else Outcome(name, Max0(current + delta), current)
    }

    /** Go's AdjustScale: relative to the present number of instances, never below zero. */
    method AdjustScale(name: Name, delta: int, env: Env) returns (r: Result<(), ScaleError>)
      requires name in processes ==> processes[name].list == Numbers(|processes[name].list|)
      modifies this`config, if name in processes then {processes[name]} else {}
      ensures name in processes ==> processes[name].list == Numbers(|processes[name].list|)
      ensures r.Success? && delta != 0 ==> name in processes && name in old(config)
      ensures r.Success? && delta != 0 ==>
        |processes[name].list| == old(Adjusted(name, |processes[name].list|, delta))
      ensures r.Success? && delta != 0 ==> name in config
      ensures r.Success? && delta != 0 ==>
        (Fits(name, |processes[name].list|) <==> old(Bounded(name, Max0(|processes[name].list| + delta))))
      ensures delta == 0 ==> r.Success? && config == old(config)
      ensures delta != 0 && (name !in old(config) || name !in processes) ==> r == Failure(NotFound)
      ensures delta != 0 && name in processes && name in old(config) ==>
        (0 < old(config)[name].maxScale < Max0(|old(processes[name].list)| + delta) ==> r == Failure(ExceedsMaxScale))
      ensures name in processes && Smooth(env) ==>
        (old(Refusal(name, Max0(|processes[name].list| + delta))).None? ==> r.Success?)
    {
      if delta == 0 { return Success(()); }
      if name !in config || name !in processes { return Failure(NotFound); }
      var cfg, sup := config[name], processes[name];
      var current := |sup.list|;
      var target := current + delta;
      if target < 0 { target := 0; }
      if cfg.maxScale > 0 && target > cfg.maxScale { return Failure(ExceedsMaxScale); }
      if target == current { return Success(()); }
      r := ScaleProcess(name, target, env);
    }
  }

  /** A process with 150 instances, a maximum of 100, and a supervisor left with a config object of its own by a reload
      that changed nothing: scaling to zero and then to one brings all 150 back. */
  method StaleScaleExample(name: Name, env: Env) returns (m: Manager)
    requires name.text != "" && Smooth(env)
    ensures name in m.processes && m.maxProcessScale == 100 && |m.processes[name].list| == 150
  {
    var sup := new Supervisor(150, false);
    var started := sup.Start(env);
    assert [] + Numbers(|sup.list|) == Numbers(|sup.list|);
    m := new Manager(map[name := ProcessConfig(false, 150, 0)], map[name := sup], 100);
    assert m.processes[name].list == Numbers(150);
    var down := m.ScaleProcess(name, 0, env);
    assert down.Success? && m.processes[name].list == [];
    assert m.Outcome(name, 1, 0) == 150;
    var up := m.ScaleProcess(name, 1, env);
    assert up.Success?;
  }
}
