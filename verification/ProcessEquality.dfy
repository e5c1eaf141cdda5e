/** When a reload takes two process definitions to be the same, internal/config/types.go.
  * A nil pointer is `None`; nil and empty slices and maps compare equal and are both empty here. */
module ProcessEquality {
  import opened Results

  datatype Hook = Hook(
    name: string, command: seq<string>, timeout: int, retry: int, retryDelay: int, continueOnError: bool,
    env: map<string, string>, workingDir: string)

  datatype Shutdown = Shutdown(
    signal: string, timeout: int, killSignal: string, graceful: bool, preStopHook: Option<Hook>)

  datatype HealthCheck = HealthCheck(
    kind: string, address: string, url: string, command: seq<string>, initialDelay: int, period: int, timeout: int,
    failureThreshold: int, successThreshold: int, expectedStatus: int, mode: string)

  /** What `Equal` does not look at. */
  datatype Uncompared = Uncompared(
    user: string, group: string, stdout: Option<bool>, stderr: Option<bool>, scheduleTimeout: string,
    scheduleMaxConcurrent: int)

  datatype Process = Process(
    enabled: bool, kind: string, initialState: string, command: seq<string>, workingDir: string, restart: string,
    scale: int, maxScale: int, dependsOn: seq<string>, env: map<string, string>, healthCheck: Option<HealthCheck>,
    shutdown: Option<Shutdown>, schedule: string, scheduleTimezone: string, uncompared: Uncompared)

  /** The two definitions differ at most in what `Equal` does not look at. */
  predicate Same(p: Process, q: Process) {
    p.(uncompared := q.uncompared) == q
  }

  /** Some field that a reload has to react to is different. */
  predicate Differ(p: Process, q: Process) {
    || p.enabled != q.enabled || p.kind != q.kind || p.initialState != q.initialState || p.command != q.command
    || p.workingDir != q.workingDir || p.restart != q.restart || p.scale != q.scale || p.maxScale != q.maxScale
    || p.dependsOn != q.dependsOn || p.env != q.env || p.healthCheck != q.healthCheck || p.shutdown != q.shutdown
    || p.schedule != q.schedule || p.scheduleTimezone != q.scheduleTimezone
  }

  lemma SameMeans(p: Process, q: Process)
    ensures Same(p, q) <==> !Differ(p, q)
  {
    assert p.(uncompared := q.uncompared).uncompared == q.uncompared;
  }

  lemma SameIsEquivalence(p: Process, q: Process, r: Process)
    ensures Same(p, p)
    ensures Same(p, q) <==> Same(q, p)
    ensures Same(p, q) && Same(q, r) ==> Same(p, r)
  {}

  method StringSliceEqual<T(==)>(a: seq<T>, b: seq<T>) returns (r: bool)
    ensures r <==> a == b
  {
    if |a| != |b| {
      return false;
    }
    var i := 0;
    while i < |a|
      invariant 0 <= i <= |a| && a[..i] == b[..i]
    {
      if a[i] != b[i] {
        return false;
      }
      i := i + 1;
    }
    return true;
  }

  /** A set of keys that has all of another's and is no larger is that other. */
  lemma SameSize<T>(a: set<T>, b: set<T>)
    requires a <= b && |a| == |b|
    ensures a == b
  {
    assert b == a + (b - a);
    assert |b - a| == 0;
  }

  /** Only the entries of `a` are visited, in any order: entries that `b` has beyond them would show in its size. */
  method StringMapEqual<K(==), V(==)>(a: map<K, V>, b: map<K, V>) returns (r: bool)
    ensures r <==> a == b
  {
    if |a| != |b| {
      return false;
    }
    var remaining := a.Keys;
    while remaining != {}
      invariant remaining <= a.Keys
      invariant forall k | k in a.Keys - remaining :: k in b && b[k] == a[k]
      decreases remaining
    {
      var k :| k in remaining;
      if k !in b || b[k] != a[k] {
        return false;
      }
      remaining := remaining - {k};
    }
    assert a.Keys <= b.Keys;
    assert |a.Keys| == |a| && |b.Keys| == |b|;
    SameSize(a.Keys, b.Keys);
    return true;
  }

  method HealthCheckEqual(a: Option<HealthCheck>, b: Option<HealthCheck>) returns (r: bool)
    ensures r <==> a == b
  {
    if a.None? && b.None? {
      return true;
    }
    if a.None? || b.None? {
      return false;
    }
    var x, y := a.value, b.value;
    var commands := StringSliceEqual(x.command, y.command);
    return x.kind == y.kind && x.address == y.address && x.url == y.url && x.initialDelay == y.initialDelay
        && x.period == y.period && x.timeout == y.timeout && x.failureThreshold == y.failureThreshold
        && x.successThreshold == y.successThreshold && x.expectedStatus == y.expectedStatus && x.mode == y.mode
        && commands;
  }

  method HookEqual(a: Option<Hook>, b: Option<Hook>) returns (r: bool)
    ensures r <==> a == b
  {
    if a.None? && b.None? {
      return true;
    }
    if a.None? || b.None? {
      return false;
    }
    var x, y := a.value, b.value;
    var commands := StringSliceEqual(x.command, y.command);
    var envs := StringMapEqual(x.env, y.env);
    return x.name == y.name && x.timeout == y.timeout && x.retry == y.retry && x.retryDelay == y.retryDelay
        && x.continueOnError == y.continueOnError && x.workingDir == y.workingDir && commands && envs;
  }

  method ShutdownConfigEqual(a: Option<Shutdown>, b: Option<Shutdown>) returns (r: bool)
    ensures r <==> a == b
  {
    if a.None? && b.None? {
      return true;
    }
    if a.None? || b.None? {
      return false;
    }
    var x, y := a.value, b.value;
    if x.signal != y.signal || x.timeout != y.timeout || x.killSignal != y.killSignal || x.graceful != y.graceful {
      return false;
    }
    r := HookEqual(x.preStopHook, y.preStopHook);
  }

  method Equal(p: Option<Process>, other: Option<Process>) returns (r: bool)
    ensures r <==> (p.None? && other.None?) || (p.Some? && other.Some? && Same(p.value, other.value))
    ensures p.Some? && other.Some? ==> (r <==> !Differ(p.value, other.value))
  {
    if p.Some? && other.Some? { SameMeans(p.value, other.value); }
    if p.None? || other.None? {
      return p == other;
    }
    var x, y := p.value, other.value;
    if x.enabled != y.enabled || x.kind != y.kind || x.initialState != y.initialState || x.scale != y.scale ||
       x.maxScale != y.maxScale || x.restart != y.restart || x.workingDir != y.workingDir || x.schedule != y.schedule ||
       x.scheduleTimezone != y.scheduleTimezone {
      return false;
    }
    var commands := StringSliceEqual(x.command, y.command);
    if !commands {
      return false;
    }
    var dependencies := StringSliceEqual(x.dependsOn, y.dependsOn);
    if !dependencies {
      return false;
    }
    var envs := StringMapEqual(x.env, y.env);
    if !envs {
      return false;
    }
    var healthChecks := HealthCheckEqual(x.healthCheck, y.healthCheck);
    if !healthChecks {
      return false;
    }
    r := ShutdownConfigEqual(x.shutdown, y.shutdown);
  }
}
