/** How a live process comes to be missing from the supervisor's list, in every run of the machine. */
module SupervisorStrays {
  import opened SupervisorMachine
  import opened SupervisorSafety

  // ----- which instances somebody still answers for

  /** The monitor of the instance can still start a successor. */
  predicate CanRespawn(x: Instance) {
    || x.phase.Backoff? || x.phase.Checking? || x.phase.Respawning?
    || (x.allowRestart && (x.phase.Waiting? || x.phase.Exited? || (x.phase.Unborn? && x.phase.owner.ByMonitor?)))
  }

  predicate MayLive(x: Instance) {
    x.live || CanRespawn(x)
  }

  /** Instances in the hands of the operation under way: started but not yet listed, or being cleaned up. */
  function Held(s: State): set<Handle> {
    match s.op
    case StartSpawned(_, _, child) => {child}
    case ScalingUp(_, _, added) => set h | h in added
    case UpSpawned(_, _, added, child) => (set h | h in added) + {child}
    case CleaningUp(todo) => (set h | h in todo) + s.stops.Keys
    case _ => {}
  }

  function Kept(s: State): set<Handle> {
    (set h | h in s.list) + Held(s)
  }

  /** The monitor of `m` has started `h` and has not yet put it into the list. */
  predicate PendingOn(s: State, m: Handle, h: Handle) {
    m < |s.all| && (s.all[m].phase == Spawned(h) || s.all[m].phase == Replacing(h))
  }

  /** `h` is in the list, in the hands of the operation, or about to take the place of an instance that is. */
  predicate Placed(s: State, h: Handle)
    decreases h
  {
    h in Kept(s) || exists m: nat | m < h :: PendingOn(s, m, h) && Placed(s, m)
  }

  predicate Stray(s: State, h: Handle) {
    h < |s.all| && MayLive(s.all[h]) && !Placed(s, h)
  }

  /** `h`, or a successor already started and still pending, may live and is not listed. */
  predicate MayComeBack(s: State, h: Handle)
    decreases |s.all| - h
  {
    h < |s.all| && h !in s.list &&
    (MayLive(s.all[h]) || exists c: nat | h < c < |s.all| :: PendingOn(s, h, c) && MayComeBack(s, c))
  }

  // ----- the steps that let an instance go

  /** What an operation drops: the end of the list in ScaleDown, all of it in Stop, what a failed ScaleUp has added. */
  function Cut(s: State, step: Step): set<Handle>
    requires Enabled(s, step)
  {
    match step
    case Operate(DownDone) => set h | h in s.list[s.op.keep..]
    case Operate(StopDone) => set h | h in s.list
    case Operate(CleanupNext) => s.stops.Keys
    case Operate(CleanupDone) => s.stops.Keys
    case _ => {}
  }

  /** A restart that puts its new instance into the place of another with the same number. */
  predicate Displaces(s: State, step: Step, h: Handle)
    requires Enabled(s, step)
  {
    step.Monitor? && step.m == Replace && h in s.list && h !in Do(s, step).list
  }

  /** A restart that finds no instance with its number, so that its new instance is not listed at all. */
  predicate Misses(s: State, step: Step, h: Handle)
    requires Enabled(s, step)
  {
    step.Monitor? && step.m == Replace && s.all[step.h].phase == Replacing(h) && h !in Do(s, step).list
  }

  /** The step lets go of `g` although `g` may come back. */
  predicate LetsGo(s: State, step: Step, g: Handle) {
    Enabled(s, step) && MayComeBack(Do(s, step), g) &&
    (g in Cut(s, step) || Displaces(s, step, g) || Misses(s, step, g))
  }

  // ----- descent

  predicate Born(states: seq<State>, steps: seq<Step>, i: nat, m: Handle, h: Handle) {
    i < |steps| && i < |states| && steps[i] == Monitor(Respawn, m) && h == |states[i].all|
  }

  /** `h` is `g` or was started by the monitor of a descendant of `g`. */
  ghost predicate Descends(states: seq<State>, steps: seq<Step>, g: Handle, h: Handle)
    decreases h
  {
    h == g || exists i: nat, m: nat :: m < h && Born(states, steps, i, m, h) && Descends(states, steps, g, m)
  }

  // An operation changes the phase of the instance it adds only, which is not a monitor that has a successor pending.

  lemma PendingThroughOperate(s: State, o: OpStep, m: Handle, h: Handle)
    requires OpEnabled(s, o) && AllLinked(s)
    ensures PendingOn(Operated(s, o), m, h) <==> PendingOn(s, m, h)
  {}

  lemma PendingThroughStop(s: State, c: StopStep, k: Handle, m: Handle, h: Handle)
    requires StopEnabled(s, c, k)
    ensures PendingOn(StopAdvanced(s, c, k), m, h) <==> PendingOn(s, m, h)
  {}

  lemma PendingThroughMonitor(s: State, step: MonitorStep, k: Handle, m: Handle, h: Handle)
    requires MonitorEnabled(s, step, k) && AllLinked(s)
    ensures PendingOn(Monitored(s, step, k), m, h) && !PendingOn(s, m, h) ==> step == Respawn && k == m && h == |s.all|
    ensures PendingOn(s, m, h) && !PendingOn(Monitored(s, step, k), m, h) ==>
              step == Replace && k == m && s.all[m].phase == Replacing(h)
  {
    assert Linked(s, k);
  }

  lemma PendingStep(s: State, step: Step, m: Handle, h: Handle)
    requires Enabled(s, step) && AllLinked(s)
    ensures PendingOn(Do(s, step), m, h) && !PendingOn(s, m, h) ==> step == Monitor(Respawn, m) && h == |s.all|
    ensures PendingOn(s, m, h) && !PendingOn(Do(s, step), m, h) ==>
              step == Monitor(Replace, m) && s.all[m].phase == Replacing(h)
  {
    match step
    case Operate(o) => PendingThroughOperate(s, o, m, h);
    case StopInstance(c, k) => PendingThroughStop(s, c, k, m, h);
    case Monitor(x, k) => PendingThroughMonitor(s, x, k, m, h);
    case HelperLeaves =>
  }

  /** Whoever is pending was started by the monitor it is pending on. */
  lemma {:induction false} PendingIsChild(states: seq<State>, steps: seq<Step>, k: nat, m: Handle, h: Handle)
      returns (i: nat)
    requires IsRun(states, steps) && k < |states| && PendingOn(states[k], m, h)
    ensures i < k && Born(states, steps, i, m, h)
  {
    assert Follows(states[k - 1], steps[k - 1], states[k]);
    RunKeepsInv(states, steps, k - 1);
    PendingStep(states[k - 1], steps[k - 1], m, h);
    if PendingOn(states[k - 1], m, h) {
      i := PendingIsChild(states, steps, k - 1, m, h);
    } else {
      i := k - 1;
    }
  }

  // ----- every stray was let go

  /** Whether an instance may live is settled once and for all when it no longer may, unless it is being added. */
  lemma MayLiveThroughOperate(s: State, o: OpStep, h: Handle)
    requires OpEnabled(s, o) && h < |s.all| && MayLive(Operated(s, o).all[h]) && !MayLive(s.all[h])
    ensures h in Kept(Operated(s, o))
  {}

  lemma MayLiveThroughMonitor(s: State, step: MonitorStep, k: Handle, h: Handle)
    requires MonitorEnabled(s, step, k) && AllLinked(s) && h < |s.all| && MayLive(Monitored(s, step, k).all[h])
    ensures MayLive(s.all[h])
  {
    assert Linked(s, k) && Linked(s, h);
  }

  lemma StaysDead(s: State, step: Step, h: Handle)
    requires Enabled(s, step) && AllLinked(s) && h < |s.all|
    requires MayLive(Do(s, step).all[h]) && !Placed(Do(s, step), h)
    ensures MayLive(s.all[h])
  {
    match step
    case Operate(o) => if !MayLive(s.all[h]) { MayLiveThroughOperate(s, o, h); }
    case Monitor(x, k) => MayLiveThroughMonitor(s, x, k, h);
    case _ =>
  }

  /** Whoever is kept before a step and not after it was let go, if it may come back. */
  lemma KeptOrCut(s: State, step: Step, h: Handle)
    requires Enabled(s, step) && h in Kept(s) && h !in Kept(Do(s, step))
    ensures h in Cut(s, step) || Displaces(s, step, h)
  {
    match step
    case Operate(o) => KeptThroughOperate(s, o, h);
    case _ =>
  }

  lemma KeptThroughOperate(s: State, o: OpStep, h: Handle)
    requires OpEnabled(s, o) && h in Kept(s) && h !in Kept(Operated(s, o))
    ensures h in Cut(s, Operate(o))
  {
    match o
    case StartAdd => assert s.op.child in Operated(s, o).list;
    case CleanupNext => assert s.op.todo == [s.op.todo[0]] + s.op.todo[1..];
    case DownDone => assert s.list == s.list[..s.op.keep] + s.list[s.op.keep..];
    case _ =>
  }

  /** Whoever loses its place in a step descends from an instance the step let go. */
  lemma {:induction false} PlacedOrLetGo(states: seq<State>, steps: seq<Step>, k: nat, h: Handle) returns (g: Handle)
    requires IsRun(states, steps) && k < |steps|
    requires Placed(states[k], h) && !Placed(states[k + 1], h) && MayComeBack(states[k + 1], h)
    ensures LetsGo(states[k], steps[k], g) && Descends(states, steps, g, h)
    decreases h
  {
    var s, step, t := states[k], steps[k], states[k + 1];
    assert Follows(s, step, t);
    RunKeepsInv(states, steps, k);
    g := h;
    if h in Kept(s) {
      KeptOrCut(s, step, h);
    } else {
      var m: nat :| m < h && PendingOn(s, m, h) && Placed(s, m);
      PendingStep(s, step, m, h);
      if PendingOn(t, m, h) {
        g := PlacedOrLetGo(states, steps, k, m);
        var i := PendingIsChild(states, steps, k, m, h);
      }
    }
  }

  lemma NewbornByOperate(s: State, o: OpStep, h: Handle)
    requires OpEnabled(s, o) && |s.all| <= h < |Operated(s, o).all|
    ensures h == |s.all| && h in Held(Operated(s, o))
  {}

  lemma NewbornByMonitor(s: State, m: MonitorStep, k: Handle, h: Handle)
    requires MonitorEnabled(s, m, k) && |s.all| <= h < |Monitored(s, m, k).all|
    ensures h == |s.all| && m == Respawn
  {}

  /** New instances are started by an operation, which holds them, or by a monitor. */
  lemma NewbornStep(s: State, step: Step, h: Handle)
    requires Enabled(s, step) && |s.all| <= h < |Do(s, step).all|
    ensures h == |s.all|
    ensures h in Kept(Do(s, step)) || (step.Monitor? && step.m == Respawn)
  {
    match step
    case Operate(o) => NewbornByOperate(s, o, h);
    case Monitor(m, k) => NewbornByMonitor(s, m, k, h);
    case _ =>
  }

  lemma {:induction false} PlacedThroughRespawn(s: State, m: Handle, x: Handle)
    requires MonitorEnabled(s, Respawn, m) && Placed(s, x)
    ensures Placed(Monitored(s, Respawn, m), x)
    decreases x
  {
    var t := Monitored(s, Respawn, m);
    if x !in Kept(s) {
      var n: nat :| n < x && PendingOn(s, n, x) && Placed(s, n);
      PlacedThroughRespawn(s, m, n);
      assert PendingOn(t, n, x);
    }
  }

  /** In every run, an instance that may live and for which nobody answers descends from one that some step let go. */
  lemma {:induction false} StrayWasLetGo(states: seq<State>, steps: seq<Step>, k: nat, h: Handle)
      returns (j: nat, g: Handle)
    requires IsRun(states, steps) && k < |states| && Stray(states[k], h)
    ensures j < k && LetsGo(states[j], steps[j], g) && Descends(states, steps, g, h)
  {
    assert k > 0;
    var s, step, t := states[k - 1], steps[k - 1], states[k - 1 + 1];
    assert Follows(s, step, t);
    RunKeepsInv(states, steps, k - 1);
    j := k - 1;
    if h < |s.all| {
      StaysDead(s, step, h);
      if Placed(s, h) {
        g := PlacedOrLetGo(states, steps, k - 1, h);
      } else {
        j, g := StrayWasLetGo(states, steps, k - 1, h);
      }
    } else {
      NewbornStep(s, step, h);
      var m := step.h;
      assert PendingOn(t, m, h);
      if Placed(s, m) { PlacedThroughRespawn(s, m, m); }
      j, g := StrayWasLetGo(states, steps, k - 1, m);
      assert Born(states, steps, k - 1, m, h);
    }
  }

  /** In every run, between two operations: a live process that is not in the list is either about to be put there by a
      restart, or descends from an instance that some earlier step let go. */
  lemma UnlistedWasLetGo(states: seq<State>, steps: seq<Step>, k: nat, h: Handle) returns (j: nat, g: Handle)
    requires IsRun(states, steps) && k < |states| && states[k].op == Idle
    requires h < |states[k].all| && states[k].all[h].live && h !in states[k].list
    ensures (exists m: nat | m < h :: PendingOn(states[k], m, h) && Placed(states[k], m)) ||
      (j < k && LetsGo(states[j], steps[j], g) && Descends(states, steps, g, h))
  {
    j, g := 0, 0;
    if !Placed(states[k], h) {
      j, g := StrayWasLetGo(states, steps, k, h);
    }
  }

  // ----- whoever was let go can come back

  /** `u` can be reached from `s`. */
  ghost predicate Leads(s: State, u: State) {
    exists states, steps :: IsPath(states, steps, s) && states[|steps|] == u
  }

  predicate IsPath(states: seq<State>, steps: seq<Step>, s: State) {
    && |states| == |steps| + 1
    && states[0] == s
    && forall k :: 0 <= k < |steps| ==> Follows(states[k], steps[k], states[k + 1])
  }

  lemma LeadsNowhere(s: State)
    ensures Leads(s, s)
  {
    assert IsPath([s], [], s);
  }

  lemma LeadsBy(s: State, step: Step, u: State)
    requires Enabled(s, step) && Leads(Do(s, step), u)
    ensures Leads(s, u)
  {
    var states, steps :| IsPath(states, steps, Do(s, step)) && states[|steps|] == u;
    var longer, more := [s] + states, [step] + steps;
    forall k | 0 <= k < |more| ensures Follows(longer[k], more[k], longer[k + 1]) {
      if k > 0 { assert Follows(states[k - 1], steps[k - 1], states[k]); }
    }
    assert IsPath(longer, more, s);
  }

  /** `u` follows from `s` by steps of monitors only, and in it `h` or a successor of `h` lives and is not listed. */
  ghost predicate Revived(s: State, h: Handle, u: State, c: Handle) {
    && Leads(s, u) && u.list == s.list && u.op == s.op
    && c < |u.all| && u.all[c].live && c !in u.list
    && (c == h || u.all[c].phase == Unborn(ByMonitor(h)))
  }

  predicate InRange(s: State) {
    forall h | h in s.list :: h < |s.all|
  }

  lemma ReviveBy(s: State, m: MonitorStep, k: Handle, h: Handle, u: State, c: Handle)
    requires MonitorEnabled(s, m, k) && Revived(Monitored(s, m, k), h, u, c)
    requires Monitored(s, m, k).list == s.list
    ensures Revived(s, h, u, c)
  {
    LeadsBy(s, Monitor(m, k), u);
  }

  lemma ReviveFromRespawning(s: State, h: Handle) returns (u: State, c: Handle)
    requires InRange(s) && h < |s.all| && h !in s.list && s.all[h].phase.Respawning?
    ensures Revived(s, h, u, c)
  {
    u, c := Monitored(s, Respawn, h), |s.all|;
    LeadsNowhere(u);
    LeadsBy(s, Monitor(Respawn, h), u);
  }

  lemma ReviveFromExited(s: State, h: Handle) returns (u: State, c: Handle)
    requires InRange(s) && h < |s.all| && h !in s.list && s.context == Active
    requires (s.all[h].phase.Exited? && s.all[h].allowRestart) || s.all[h].phase.Backoff? || s.all[h].phase.Checking?
    ensures Revived(s, h, u, c)
    decreases if s.all[h].phase.Exited? then 2 else if s.all[h].phase.Backoff? then 1 else 0
  {
    var p := s.all[h].phase;
    var m := if p.Exited? then Decide(true) else if p.Backoff? then BackoffOver else CheckContext;
    var t := Monitored(s, m, h);
    if s.all[h].phase.Checking? {
      u, c := ReviveFromRespawning(t, h);
    } else {
      u, c := ReviveFromExited(t, h);
    }
    ReviveBy(s, m, h, h, u, c);
  }

  /** With an active context, an instance that may live can come to live, or have a successor live, unlisted. */
  lemma Revive(s: State, h: Handle) returns (u: State, c: Handle)
    requires InRange(s) && AllLinked(s) && h < |s.all| && h !in s.list && s.context == Active && MayLive(s.all[h])
    ensures Revived(s, h, u, c)
  {
    var x := s.all[h];
    if x.live {
      LeadsNowhere(s);
      u, c := s, h;
    } else if x.phase.Respawning? {
      u, c := ReviveFromRespawning(s, h);
    } else if x.phase.Waiting? {
      u, c := ReviveFromExited(Monitored(s, Reap, h), h);
      ReviveBy(s, Reap, h, h, u, c);
    } else if x.phase.Unborn? {
      assert Linked(s, h);
      var m := x.phase.owner.parent;
      var t := Monitored(s, AddChild, m);
      u, c := ReviveFromExited(Monitored(t, Reap, h), h);
      ReviveBy(t, Reap, h, h, u, c);
      ReviveBy(s, AddChild, m, h, u, c);
    } else {
      u, c := ReviveFromExited(s, h);
    }
  }

  // ----- handles stay within the instances created

  ghost predicate Ranged(s: State) {
    && (forall h: nat | h in Kept(s) :: h < |s.all|)
    && (forall m: nat, h: nat | PendingOn(s, m, h) :: h < |s.all|)
  }

  lemma ListInRange(s: State)
    requires Ranged(s)
    ensures InRange(s)
  {
    forall h: nat | h in s.list ensures h < |s.all| { assert h in Kept(s); }
  }

  lemma KeptGrows(s: State, step: Step, h: Handle)
    requires Enabled(s, step) && Ranged(s) && h in Kept(Do(s, step))
    ensures h < |Do(s, step).all|
  {
    match step
    case Operate(o) => KeptGrowsByOperate(s, o, h);
    case Monitor(m, k) =>
      if m == Replace && h in Do(s, step).list {
        ReplacedFrom(s.all, s.list, s.all[k].id, s.all[k].phase.child, h);
        assert PendingOn(s, k, s.all[k].phase.child);
      }
      assert h in s.list || h in Held(s) ==> h in Kept(s);
    case StopInstance(c, k) => assert Kept(Do(s, step)) == Kept(s);
    case HelperLeaves => assert Kept(Do(s, step)) == Kept(s);
  }

  lemma {:induction false} ReplacedFrom(all: seq<Instance>, list: seq<Handle>, id: nat, child: Handle, h: Handle)
    requires h in Replaced(all, list, id, child)
    ensures h in list || h == child
  {
    if list != [] && h != list[0] && !(list[0] < |all| && all[list[0]].id == id) {
      ReplacedFrom(all, list[1..], id, child, h);
    }
  }

  lemma KeptGrowsByOperate(s: State, o: OpStep, h: Handle)
    requires OpEnabled(s, o) && Ranged(s) && h in Kept(Operated(s, o))
    ensures h < |Operated(s, o).all|
  {
    assert h in s.list || h in Held(s) ==> h in Kept(s);
    match o
    case StartAdd => assert h in s.list || h == s.op.child;
    case UpSpawnFails => assert h in s.list || h in s.op.added;
    case UpAdd => assert h in s.list || h in s.op.added || h == s.op.child;
    case UpDone => assert h in s.list || h in s.op.added;
    case CleanupNext => assert h in s.list || h in s.op.todo;
    case DownDone => assert s.list == s.list[..s.op.keep] + s.list[s.op.keep..];
    case UpSpawn => assert h in Kept(s) || h == |s.all|;
    case _ =>
  }

  lemma RangedStep(s: State, step: Step)
    requires Enabled(s, step) && Ranged(s) && AllLinked(s)
    ensures Ranged(Do(s, step))
  {
    var t := Do(s, step);
    forall h: nat | h in Kept(t) ensures h < |t.all| { KeptGrows(s, step, h); }
    forall m: nat, h: nat | PendingOn(t, m, h) ensures h < |t.all| { PendingStep(s, step, m, h); }
  }

  lemma {:induction false} RunIsRanged(states: seq<State>, steps: seq<Step>, k: nat)
    requires IsRun(states, steps) && k < |states|
    ensures Ranged(states[k])
  {
    if k > 0 {
      RunIsRanged(states, steps, k - 1);
      RunKeepsInv(states, steps, k - 1);
      assert Follows(states[k - 1], steps[k - 1], states[k]);
      RangedStep(states[k - 1], steps[k - 1]);
    }
  }

  /** Among an instance that may come back and its pending successors there is one that may live. */
  lemma {:induction false} SomeoneMayLive(states: seq<State>, steps: seq<Step>, k: nat, g: Handle) returns (h: Handle)
    requires IsRun(states, steps) && k < |states| && MayComeBack(states[k], g)
    ensures h < |states[k].all| && h !in states[k].list && MayLive(states[k].all[h])
    ensures Descends(states, steps, g, h) && (h == g || exists m: nat :: PendingOn(states[k], m, h))
    decreases |states[k].all| - g
  {
    h := g;
    if !MayLive(states[k].all[g]) {
      var c: nat :| g < c < |states[k].all| && PendingOn(states[k], g, c) && MayComeBack(states[k], c);
      h := SomeoneMayLive(states, steps, k, c);
      var i := PendingIsChild(states, steps, k, g, c);
      assert Descends(states, steps, g, g);
      DescendsThrough(states, steps, g, c, h);
    }
  }

  lemma {:induction false} DescendsThrough(states: seq<State>, steps: seq<Step>, g: Handle, c: Handle, h: Handle)
    requires Descends(states, steps, g, c) && Descends(states, steps, c, h)
    ensures Descends(states, steps, g, h)
    decreases h
  {
    if h != c {
      var i: nat, m: nat :| m < h && Born(states, steps, i, m, h) && Descends(states, steps, c, m);
      DescendsThrough(states, steps, g, c, m);
    }
  }

  /** The converse, in every run: whenever a step lets go of an instance while the context is active, the run can go on,
      by steps of monitors only, until that instance or a descendant lives without being listed. */
  lemma LetGoComesBack(states: seq<State>, steps: seq<Step>, k: nat, g: Handle) returns (h: Handle, u: State, c: Handle)
    requires IsRun(states, steps) && k < |steps| && LetsGo(states[k], steps[k], g)
    requires states[k + 1].context == Active
    ensures Descends(states, steps, g, h) && Revived(states[k + 1], h, u, c)
  {
    assert Follows(states[k], steps[k], states[k + 1]);
    RunIsRanged(states, steps, k + 1);
    ListInRange(states[k + 1]);
    RunKeepsInv(states, steps, k + 1);
    h := SomeoneMayLive(states, steps, k + 1, g);
    u, c := Revive(states[k + 1], h);
  }
}
