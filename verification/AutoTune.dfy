/** Sizing a PHP-FPM pool from container limits, internal/autotune/calculator.go.
  * Floating-point arithmetic is modelled by real arithmetic. */
module AutoTune {
  import opened Integers
  import opened Results

  datatype Profile = Profile(
    processManagerType: string, avgMemoryPerWorker: int, opcacheMemoryMB: int, reservedMemoryMB: int,
    minWorkers: int, maxWorkers: int, spareMinRatio: real, spareMaxRatio: real, startServersRatio: real,
    maxMemoryUsage: real)

  datatype Calculator = Calculator(profile: Profile, memoryLimitMB: int, cpuLimit: int, memoryThreshold: real)

  datatype PoolConfig = PoolConfig(
    processManager: string, maxChildren: int, startServers: int, minSpare: int, maxSpare: int,
    memoryAllocated: int, memoryOPcache: int, memoryReserved: int, memoryTotal: int)

  datatype TuneError =
    | InsufficientMemory
    | InsufficientMemoryForWorkers
    | WouldExceedMemory
    | MinSpareAboveMaxChildren
    | MaxSpareAboveMaxChildren
    | StartServersAboveMaxChildren
    | MinSpareAboveMaxSpare

  /** What every profile of the program satisfies: workers use memory, and ratios are ratios. */
  predicate Sane(p: Profile) {
    && p.avgMemoryPerWorker > 0 && p.opcacheMemoryMB >= 0 && p.reservedMemoryMB >= 0
    && 0.0 <= p.spareMinRatio <= 1.0 && 0.0 <= p.spareMaxRatio <= 1.0 && 0.0 <= p.startServersRatio <= 1.0
    && p.maxMemoryUsage > 0.0
  }

  function Reserve(p: Profile): int { p.reservedMemoryMB + p.opcacheMemoryMB }

  /** A positive override replaces the threshold of the profile. */
  function Threshold(c: Calculator): real {
    if c.memoryThreshold > 0.0 then c.memoryThreshold else c.profile.maxMemoryUsage
  }

  /** A positive override acts like a profile with that threshold; any other changes nothing. */
  lemma OverrideReplaces(c: Calculator)
    requires Sane(c.profile)
    ensures BoundsOf(c) ==
      if c.memoryThreshold > 0.0
      then BoundsOf(c.(profile := c.profile.(maxMemoryUsage := c.memoryThreshold), memoryThreshold := 0.0))
      else BoundsOf(c.(memoryThreshold := 0.0))
  {}

  /** Memory for `n` workers, the OPcache and the system. */
  function Total(p: Profile, n: int): int { n * p.avgMemoryPerWorker + Reserve(p) }

  /** The whole workers that fit into `memory` beside the reserve. */
  function Count(p: Profile, memory: int): int
    requires p.avgMemoryPerWorker > 0
  {
    (memory - Reserve(p)) / p.avgMemoryPerWorker
  }

  /** What bounds a pool, each as a number of workers. */
  datatype Bounds = Bounds(threshold: int, limit: int, cpu: int, profile: int, smallest: int)

  /** The memory that the threshold leaves, in whole megabytes. */
  function Available(limit: int, threshold: real): int { (limit as real * threshold).Floor }

  function BoundsOf(c: Calculator): Bounds
    requires Sane(c.profile)
  {
    BoundsWith(c.profile, Available(c.memoryLimitMB, Threshold(c)), c.memoryLimitMB, c.cpuLimit)
  }

  function BoundsWith(p: Profile, available: int, limit: int, cpus: int): Bounds
    requires Sane(p)
  {
    Bounds(Count(p, available), Count(p, limit), cpus * 4, p.maxWorkers, Max(p.minWorkers, 1))
  }

  lemma CountMeans(p: Profile, memory: int, n: int)
    requires Sane(p)
    ensures n <= Count(p, memory) <==> Total(p, n) <= memory
  {
    Division(memory - Reserve(p), p.avgMemoryPerWorker, n);
  }

  lemma AvailableMeans(limit: int, threshold: real, n: int)
    ensures n <= Available(limit, threshold) <==> n as real <= limit as real * threshold
  {}

  /** The first two bounds say that the memory in use stays below the threshold, and below the limit. */
  lemma BoundsMean(c: Calculator, n: int)
    requires Sane(c.profile)
    ensures n <= BoundsOf(c).threshold <==> Total(c.profile, n) as real <= c.memoryLimitMB as real * Threshold(c)
    ensures n <= BoundsOf(c).limit <==> Total(c.profile, n) <= c.memoryLimitMB
  {
    CountMeans(c.profile, Available(c.memoryLimitMB, Threshold(c)), n);
    CountMeans(c.profile, c.memoryLimitMB, n);
    AvailableMeans(c.memoryLimitMB, Threshold(c), Total(c.profile, n));
  }

  lemma Division(m: int, d: int, k: int)
    requires d > 0
    ensures k * d <= m <==> k <= m / d
  {
    if k <= m / d {
      assert k * d <= m / d * d;
    } else {
      assert k * d >= (m / d + 1) * d;
    }
  }

  /** `n` workers are within the memory threshold, four per CPU, and the maximum of the profile. */
  predicate Allowed(b: Bounds, n: int) {
    n <= b.threshold && n <= b.cpu && (b.profile > 0 ==> n <= b.profile)
  }

  /** The pool size asked for: as many workers as are allowed, but never fewer than the minimum. */
  ghost predicate IsPoolSize(b: Bounds, n: int) {
    && n >= b.smallest
    && (forall k | k > n :: !Allowed(b, k))
    && (n > b.smallest ==> Allowed(b, n))
  }

  /** The smallest integer that is at least `lo` and at least `x`. */
  predicate IsLeast(n: int, lo: int, x: real) {
    n >= lo && n as real >= x && (n == lo || (n - 1) as real < x)
  }

  function Ceil(x: real): (n: int)
    ensures n as real >= x && (n - 1) as real < x
  {
    -((-x).Floor)
  }

  lemma LeastUnique(m: int, n: int, lo: int, x: real)
    requires IsLeast(m, lo, x) && IsLeast(n, lo, x)
    ensures m == n
  {}

  predicate Dynamic(p: Profile) { p.processManagerType == "dynamic" }

  function ValidateConfig(cfg: PoolConfig): Option<TuneError> {
    if cfg.memoryAllocated + cfg.memoryOPcache + cfg.memoryReserved > cfg.memoryTotal then Some(WouldExceedMemory)
    else if cfg.processManager != "dynamic" then None
    else if cfg.minSpare > cfg.maxChildren then Some(MinSpareAboveMaxChildren)
    else if cfg.maxSpare > cfg.maxChildren then Some(MaxSpareAboveMaxChildren)
    else if cfg.startServers > cfg.maxChildren then Some(StartServersAboveMaxChildren)
    else if cfg.minSpare > cfg.maxSpare then Some(MinSpareAboveMaxSpare)
    else None
  }

  /** What the validation lets through. */
  lemma ValidateMeans(cfg: PoolConfig)
    ensures ValidateConfig(cfg) == None <==>
      && cfg.memoryAllocated + cfg.memoryOPcache + cfg.memoryReserved <= cfg.memoryTotal
      && (cfg.processManager == "dynamic" ==>
            cfg.minSpare <= cfg.maxSpare <= cfg.maxChildren && cfg.startServers <= cfg.maxChildren)
  {}

  lemma Scale(x: real, ratio: real)
    requires x >= 0.0 && 0.0 <= ratio <= 1.0
    ensures 0.0 <= x * ratio <= x
  {
    assert x * (1.0 - ratio) >= 0.0;
  }

  /** A ratio of `n` workers, as a sum. */
  function Share(n: nat, ratio: real): real {
    if n == 0 then 0.0 else Share(n - 1, ratio) + ratio
  }

  lemma {:induction false} ShareIsProduct(n: nat, ratio: real)
    ensures Share(n, ratio) == n as real * ratio
  {
    if n > 0 {
      ShareIsProduct(n - 1, ratio);
      assert n as real * ratio == (n - 1) as real * ratio + ratio;
    }
  }

  lemma {:induction false} ShareWithin(n: nat, ratio: real)
    requires 0.0 <= ratio <= 1.0
    ensures 0.0 <= Share(n, ratio) <= n as real
  {
    if n > 0 { ShareWithin(n - 1, ratio); }
  }

  method ShareOf(n: nat, ratio: real) returns (share: real)
    requires 0.0 <= ratio <= 1.0
    ensures share == Share(n, ratio) && 0.0 <= share <= n as real
  {
    share := n as real * ratio;
    ShareIsProduct(n, ratio);
    ShareWithin(n, ratio);
  }

  /** The spare settings of dynamic mode: in order, and no larger than their ratios ask for. */
  predicate SpareSettings(p: Profile, n: nat, startServers: int, minSpare: int, maxSpare: int) {
    && 1 <= minSpare <= startServers <= maxSpare <= n
    && IsLeast(minSpare, 1, Share(n, p.spareMinRatio))
    && IsLeast(startServers, minSpare, Share(n, p.startServersRatio))
    && IsLeast(maxSpare, startServers, Share(n, p.spareMaxRatio))
  }

  /** A configuration that is safe to run in the container of `c`. */
  predicate Configured(c: Calculator, cfg: PoolConfig) {
    && cfg.processManager == c.profile.processManagerType && cfg.maxChildren >= 1
    && cfg.memoryOPcache == c.profile.opcacheMemoryMB && cfg.memoryReserved == c.profile.reservedMemoryMB
    && cfg.memoryTotal == c.memoryLimitMB
    && cfg.memoryAllocated == cfg.maxChildren * c.profile.avgMemoryPerWorker
    && cfg.memoryAllocated + cfg.memoryOPcache + cfg.memoryReserved <= cfg.memoryTotal
    && (Dynamic(c.profile) ==> SpareSettings(c.profile, cfg.maxChildren, cfg.startServers, cfg.minSpare, cfg.maxSpare))
    && (!Dynamic(c.profile) ==> cfg.minSpare == 0 && cfg.maxSpare == 0)
    && (c.profile.processManagerType == "static" ==> cfg.startServers == cfg.maxChildren)
    && (!Dynamic(c.profile) && c.profile.processManagerType != "static" ==> cfg.startServers == 0)
  }

  /** A container has one configuration of a given size: nothing in it is left open. */
  lemma ConfiguredUnique(c: Calculator, a: PoolConfig, b: PoolConfig)
    requires Configured(c, a) && Configured(c, b) && a.maxChildren == b.maxChildren
    ensures a == b
  {
    var p, n := c.profile, a.maxChildren;
    if Dynamic(p) {
      LeastUnique(a.minSpare, b.minSpare, 1, Share(n, p.spareMinRatio));
      LeastUnique(a.startServers, b.startServers, a.minSpare, Share(n, p.startServersRatio));
      LeastUnique(a.maxSpare, b.maxSpare, a.startServers, Share(n, p.spareMaxRatio));
    }
  }

  /** And it fits, with its spare settings in order and at least what its ratios ask for. */
  lemma ConfiguredIsSafe(c: Calculator, cfg: PoolConfig)
    requires Configured(c, cfg)
    ensures cfg.maxChildren >= 1 && Total(c.profile, cfg.maxChildren) <= c.memoryLimitMB
    ensures Dynamic(c.profile) ==> 1 <= cfg.minSpare <= cfg.startServers <= cfg.maxSpare <= cfg.maxChildren
    ensures Dynamic(c.profile) ==>
      && cfg.minSpare as real >= cfg.maxChildren as real * c.profile.spareMinRatio
      && cfg.startServers as real >= cfg.maxChildren as real * c.profile.startServersRatio
      && cfg.maxSpare as real >= cfg.maxChildren as real * c.profile.spareMaxRatio
  {
    ShareIsProduct(cfg.maxChildren, c.profile.spareMinRatio);
    ShareIsProduct(cfg.maxChildren, c.profile.startServersRatio);
    ShareIsProduct(cfg.maxChildren, c.profile.spareMaxRatio);
  }

  /** The three settings of a pool in dynamic mode. */
  method SpareServers(p: Profile, maxChildren: int) returns (startServers: int, minSpare: int, maxSpare: int)
    requires Sane(p) && maxChildren >= 1
    ensures SpareSettings(p, maxChildren, startServers, minSpare, maxSpare)
  {
    var startShare := ShareOf(maxChildren, p.startServersRatio);
    var minShare := ShareOf(maxChildren, p.spareMinRatio);
    var maxShare := ShareOf(maxChildren, p.spareMaxRatio);
    startServers, minSpare, maxSpare := Clamped(maxChildren, startShare, minShare, maxShare);
  }

  /** The settings from the shares of the pool that the ratios ask for. */
  method Clamped(maxChildren: int, startShare: real, minShare: real, maxShare: real)
      returns (startServers: int, minSpare: int, maxSpare: int)
    requires maxChildren >= 1
    requires 0.0 <= startShare <= maxChildren as real && 0.0 <= minShare <= maxChildren as real
    requires 0.0 <= maxShare <= maxChildren as real
    ensures 1 <= minSpare <= startServers <= maxSpare <= maxChildren
    ensures IsLeast(minSpare, 1, minShare)
    ensures IsLeast(startServers, minSpare, startShare)
    ensures IsLeast(maxSpare, startServers, maxShare)
  {
    startServers := Ceil(startShare);
    minSpare := Ceil(minShare);
    maxSpare := Ceil(maxShare);
    if minSpare < 1 {
      minSpare := 1;
    }
    if startServers < minSpare {
      startServers := minSpare;
    }
    if maxSpare < startServers {
      maxSpare := startServers;
    }
    if maxSpare > maxChildren {
      maxSpare := maxChildren;
    }
  }

  method MaxChildren(p: Profile, workerMemory: int, cpuLimit: int, ghost limit: int) returns (maxChildren: int)
    requires Sane(p) && workerMemory >= p.avgMemoryPerWorker
    ensures IsPoolSize(BoundsWith(p, workerMemory + Reserve(p), limit, cpuLimit), maxChildren)
  {
    maxChildren := workerMemory / p.avgMemoryPerWorker;
    var cpuBasedMax := cpuLimit * 4;
    if maxChildren > cpuBasedMax {
      maxChildren := cpuBasedMax;
    }
    if p.maxWorkers > 0 && maxChildren > p.maxWorkers {
      maxChildren := p.maxWorkers;
    }
    if maxChildren < p.minWorkers {
      maxChildren := p.minWorkers;
    }
    if maxChildren < 1 {
      maxChildren := 1;
    }
  }

  /** The configuration, or the error. It is safe, its pool is as large as allowed, and its spare settings are in order;
    * each error has exactly one cause, and the spare checks never fail. */
  method Calculate(c: Calculator) returns (r: Result<PoolConfig, TuneError>)
    requires Sane(c.profile)
    ensures r == Failure(InsufficientMemory) <==> BoundsOf(c).limit < 1
    ensures r == Failure(InsufficientMemoryForWorkers) <==> BoundsOf(c).threshold < 1 <= BoundsOf(c).limit
    ensures r.Failure? ==> r.error in {InsufficientMemory, InsufficientMemoryForWorkers, WouldExceedMemory}
    ensures r == Failure(WouldExceedMemory) ==> exists n :: IsPoolSize(BoundsOf(c), n) && n > BoundsOf(c).limit
    ensures r.Success? ==> IsPoolSize(BoundsOf(c), r.value.maxChildren) && r.value.maxChildren <= BoundsOf(c).limit
    ensures r.Success? ==> Configured(c, r.value)
  {
    var p := c.profile;
    var minRequired := p.reservedMemoryMB + p.opcacheMemoryMB + p.avgMemoryPerWorker;
    CountMeans(p, c.memoryLimitMB, 1);
    if c.memoryLimitMB < minRequired {
      return Failure(InsufficientMemory);
    }
    var threshold := p.maxMemoryUsage;
    if c.memoryThreshold > 0.0 {
      threshold := c.memoryThreshold;
    }
    var availableMemory := Available(c.memoryLimitMB, threshold);
    var workerMemory := availableMemory - (p.reservedMemoryMB + p.opcacheMemoryMB);
    CountMeans(p, availableMemory, 1);
    if workerMemory < p.avgMemoryPerWorker {
      return Failure(InsufficientMemoryForWorkers);
    }
    var maxChildren := MaxChildren(p, workerMemory, c.cpuLimit, c.memoryLimitMB);
    CountMeans(p, c.memoryLimitMB, maxChildren);
    r := Configure(c, maxChildren);
  }

  /** The rest of `Calculate`: the settings of a pool of the given size, and their validation. */
  method Configure(c: Calculator, maxChildren: int) returns (r: Result<PoolConfig, TuneError>)
    requires Sane(c.profile) && maxChildren >= 1
    ensures r.Failure? <==> Total(c.profile, maxChildren) > c.memoryLimitMB
    ensures r.Failure? ==> r.error == WouldExceedMemory
    ensures r.Success? ==> r.value.maxChildren == maxChildren && Configured(c, r.value)
  {
    var p := c.profile;
    var startServers, minSpare, maxSpare := 0, 0, 0;
    if p.processManagerType == "dynamic" {
      startServers, minSpare, maxSpare := SpareServers(p, maxChildren);
    } else if p.processManagerType == "static" {
      startServers := maxChildren;
    }
    var cfg := PoolConfig(p.processManagerType, maxChildren, startServers, minSpare, maxSpare,
                          maxChildren * p.avgMemoryPerWorker, p.opcacheMemoryMB, p.reservedMemoryMB, c.memoryLimitMB);
    var error := ValidateConfig(cfg);
    if error.Some? {
      return Failure(error.value);
    }
    return Success(cfg);
  }

  // What follows from that.

  lemma PoolSizeUnique(b: Bounds, m: int, n: int)
    requires IsPoolSize(b, m) && IsPoolSize(b, n)
    ensures m == n
  {}

  /** The condition under which `Calculate` succeeds: one worker fits, and so does the pool asked for. */
  ghost predicate Succeeds(b: Bounds) {
    b.limit >= 1 && b.threshold >= 1 && exists n :: IsPoolSize(b, n) && n <= b.limit
  }

  /** `Succeeds` is what `Calculate` does. */
  method CalculateSucceeds(c: Calculator) returns (ok: bool)
    requires Sane(c.profile)
    ensures ok <==> Succeeds(BoundsOf(c))
  {
    var r := Calculate(c);
    ok := r.Success?;
    if r == Failure(WouldExceedMemory) {
      ghost var m :| IsPoolSize(BoundsOf(c), m) && m > BoundsOf(c).limit;
      forall n | IsPoolSize(BoundsOf(c), n) ensures n > BoundsOf(c).limit { PoolSizeUnique(BoundsOf(c), m, n); }
    }
  }

  /** There always is a pool size: search downwards from the CPU bound. */
  lemma {:induction false} PoolSizeBelow(b: Bounds, hi: int) returns (n: int)
    requires hi >= b.smallest && forall k | k > hi :: !Allowed(b, k)
    ensures IsPoolSize(b, n)
    decreases hi - b.smallest
  {
    n := hi;
    if hi > b.smallest && !Allowed(b, hi) {
      n := PoolSizeBelow(b, hi - 1);
    }
  }

  lemma PoolSizeExists(b: Bounds) returns (n: int)
    ensures IsPoolSize(b, n)
  {
    n := PoolSizeBelow(b, Max(b.smallest, b.cpu));
  }

  /** One of the three caps on the pool keeps it within the container. */
  predicate Capped(b: Bounds) {
    b.threshold <= b.limit || b.cpu <= b.limit || 0 < b.profile <= b.limit
  }

  /** Success with any threshold, told from the bounds alone: one worker fits, the smallest pool fits the container, and
    * one of the caps does. */
  lemma SucceedsWhen(b: Bounds)
    requires b.smallest >= 1
    ensures Succeeds(b) <==> b.threshold >= 1 && b.smallest <= b.limit && Capped(b)
  {
    var n := PoolSizeExists(b);
    if n > b.smallest { assert Allowed(b, n); }
    if Succeeds(b) && !Capped(b) {
      assert Allowed(b, b.limit + 1);
    }
  }

  /** Without oversubscription the threshold is the tighter bound. */
  lemma ThresholdWithinLimit(c: Calculator)
    requires Sane(c.profile) && Threshold(c) <= 1.0 && c.memoryLimitMB >= 0
    ensures BoundsOf(c).threshold <= BoundsOf(c).limit
  {
    AvailableWithin(c.memoryLimitMB, Threshold(c));
    CountGrows(c.profile, Available(c.memoryLimitMB, Threshold(c)), c.memoryLimitMB);
  }

  lemma AvailableWithin(limit: int, threshold: real)
    requires limit >= 0 && 0.0 <= threshold <= 1.0
    ensures Available(limit, threshold) <= limit
  {
    Scale(limit as real, threshold);
    FloorAtMost(limit as real * threshold, limit);
  }

  lemma FloorAtMost(x: real, n: int)
    requires x <= n as real
    ensures x.Floor <= n
  {}

  lemma CountGrows(p: Profile, m: int, n: int)
    requires Sane(p) && m <= n
    ensures Count(p, m) <= Count(p, n)
  {
    CountMeans(p, m, Count(p, m));
    CountMeans(p, n, Count(p, m));
  }

  /** Without oversubscription the outcome depends on two things only: one worker must fit below the threshold,
    * and the smallest pool of the profile must fit the container. */
  lemma SucceedsIff(c: Calculator)
    requires Sane(c.profile) && Threshold(c) <= 1.0 && c.memoryLimitMB >= 0
    ensures Succeeds(BoundsOf(c)) <==>
      (Total(c.profile, 1) as real <= c.memoryLimitMB as real * Threshold(c) &&
       Total(c.profile, Max(c.profile.minWorkers, 1)) <= c.memoryLimitMB)
  {
    ThresholdWithinLimit(c);
    SucceedsWhen(BoundsOf(c));
    BoundsMean(c, 1);
    BoundsMean(c, Max(c.profile.minWorkers, 1));
  }

  /** `d` is the same pool in a container with at least as much memory and as many CPUs. */
  predicate NoSmaller(c: Calculator, d: Calculator) {
    && d.profile == c.profile && d.memoryThreshold == c.memoryThreshold
    && c.memoryLimitMB <= d.memoryLimitMB && c.cpuLimit <= d.cpuLimit
  }

  predicate NoTighter(a: Bounds, b: Bounds) {
    && a.threshold <= b.threshold && a.limit <= b.limit && a.cpu <= b.cpu
    && a.profile == b.profile && a.smallest == b.smallest
  }

  lemma BoundsGrow(c: Calculator, d: Calculator)
    requires Sane(c.profile) && NoSmaller(c, d)
    ensures NoTighter(BoundsOf(c), BoundsOf(d))
  {
    ScaleGrows(c.memoryLimitMB as real, d.memoryLimitMB as real, Threshold(c));
    var m, n := Available(c.memoryLimitMB, Threshold(c)), Available(d.memoryLimitMB, Threshold(c));
    AvailableMeans(c.memoryLimitMB, Threshold(c), m);
    AvailableMeans(d.memoryLimitMB, Threshold(c), m);
    CountGrows(c.profile, m, n);
    CountGrows(c.profile, c.memoryLimitMB, d.memoryLimitMB);
  }

  lemma ScaleGrows(x: real, y: real, t: real)
    requires x <= y && t > 0.0
    ensures x * t <= y * t
  {
    assert (y - x) * t >= 0.0;
  }

  /** A larger container never gets a smaller pool, whatever the threshold. */
  lemma PoolGrows(c: Calculator, d: Calculator, m: int, n: int)
    requires Sane(c.profile) && NoSmaller(c, d) && IsPoolSize(BoundsOf(c), m) && IsPoolSize(BoundsOf(d), n)
    ensures m <= n
  {
    BoundsGrow(c, d);
    PoolGrowsWith(BoundsOf(c), BoundsOf(d), m, n);
  }

  lemma PoolGrowsWith(a: Bounds, b: Bounds, m: int, n: int)
    requires NoTighter(a, b) && IsPoolSize(a, m) && IsPoolSize(b, n)
    ensures m <= n
  {
    if m > a.smallest { assert Allowed(b, m); }
  }

  /** With any threshold: success carries over to a larger container exactly if one of the caps of the larger one
    * stays within its memory. */
  lemma SuccessCarriesOver(c: Calculator, d: Calculator)
    requires Sane(c.profile) && NoSmaller(c, d) && Succeeds(BoundsOf(c))
    ensures Succeeds(BoundsOf(d)) <==> Capped(BoundsOf(d))
  {
    BoundsGrow(c, d);
    SucceedsWhen(BoundsOf(c));
    SucceedsWhen(BoundsOf(d));
  }

  /** Without oversubscription a larger container never turns success into failure. */
  lemma SuccessGrows(c: Calculator, d: Calculator)
    requires Sane(c.profile) && NoSmaller(c, d) && Threshold(c) <= 1.0 && c.memoryLimitMB >= 0
    requires Succeeds(BoundsOf(c))
    ensures Succeeds(BoundsOf(d))
  {
    SuccessCarriesOver(c, d);
    ThresholdWithinLimit(d);
  }

  /** A cap holds if the memory of the capped pool does: this a caller can check. */
  lemma CappedMeans(c: Calculator)
    requires Sane(c.profile)
    ensures Capped(BoundsOf(c)) <==>
      (|| Total(c.profile, BoundsOf(c).threshold) <= c.memoryLimitMB
       || Total(c.profile, c.cpuLimit * 4) <= c.memoryLimitMB
       || (c.profile.maxWorkers > 0 && Total(c.profile, c.profile.maxWorkers) <= c.memoryLimitMB))
  {
    CountMeans(c.profile, c.memoryLimitMB, BoundsOf(c).threshold);
    CountMeans(c.profile, c.memoryLimitMB, c.cpuLimit * 4);
    CountMeans(c.profile, c.memoryLimitMB, c.profile.maxWorkers);
  }

  /** No pool that fits the threshold and the maximum of the profile exceeds the container. */
  predicate NeverOversubscribes(b: Bounds) {
    b.threshold <= b.limit || (0 < b.profile <= b.limit)
  }

  /** With any threshold: no number of CPUs leads to failure exactly when one worker fits, the smallest pool fits,
    * and the memory limit is no tighter than the threshold or than the maximum of the profile. */
  lemma EveryCpuCountSucceeds(b: Bounds)
    requires b.smallest >= 1
    ensures (forall cpus: int :: Succeeds(b.(cpu := cpus * 4))) <==>
      (b.threshold >= 1 && b.smallest <= b.limit && NeverOversubscribes(b))
  {
    forall cpus: int ensures Succeeds(b.(cpu := cpus * 4)) <==>
      b.threshold >= 1 && b.smallest <= b.limit && (NeverOversubscribes(b) || cpus * 4 <= b.limit)
    {
      SucceedsWhen(b.(cpu := cpus * 4));
    }
    if forall cpus: int :: Succeeds(b.(cpu := cpus * 4)) {
      assert Succeeds(b.(cpu := Max(b.limit + 1, 1) * 4));
    }
  }

  /** The profile for small applications. */
  const LIGHT := Profile("dynamic", 36, 96, 128, 2, 0, 0.25, 0.5, 0.25, 0.7)

  /** With oversubscription, a second CPU turns success into failure. */
  lemma MoreCpusCanFail()
    ensures Succeeds(BoundsOf(Calculator(LIGHT, 400, 1, 1.3))) && !Succeeds(BoundsOf(Calculator(LIGHT, 400, 2, 1.3)))
  {
    assert BoundsOf(Calculator(LIGHT, 400, 1, 1.3)) == Bounds(8, 4, 4, 0, 2);
    SucceedsWhen(Bounds(8, 4, 4, 0, 2));
    SucceedsWhen(BoundsOf(Calculator(LIGHT, 400, 2, 1.3)));
  }

  /** And so does more memory. */
  lemma MoreMemoryCanFail()
    ensures Succeeds(BoundsOf(Calculator(LIGHT, 300, 4, 1.1))) && !Succeeds(BoundsOf(Calculator(LIGHT, 320, 4, 1.1)))
  {
    assert BoundsOf(Calculator(LIGHT, 300, 4, 1.1)) == Bounds(2, 2, 16, 0, 2);
    SucceedsWhen(Bounds(2, 2, 16, 0, 2));
    SucceedsWhen(BoundsOf(Calculator(LIGHT, 320, 4, 1.1)));
  }
}
