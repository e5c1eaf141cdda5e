/** The numbering of a supervisor's instance list, in every run of its machine. */
module SupervisorScale {
  import opened Integers
  import opened SupervisorMachine

  /** The handles are instances numbered from `first` on. */
  predicate NumberedFrom(all: seq<Instance>, list: seq<Handle>, first: nat) {
    forall i :: 0 <= i < |list| ==> list[i] < |all| && all[list[i]].id == first + i
  }

  /** What the operation under way knows about the list. */
  predicate OpNumbered(s: State) {
    match s.op
    case Starting(scale, next) => next <= Max0(scale) && (next > 0 ==> |s.list| == next)
    case StartSpawned(scale, next, child) =>
      next < Max0(scale) && (next > 0 ==> |s.list| == next) && child < |s.all| && s.all[child].id == next
    case ScalingUp(target, base, added) =>
      |s.list| == base && base + |added| <= target && NumberedFrom(s.all, added, base)
    case UpSpawned(target, base, added, child) =>
      && |s.list| == base && base + |added| < target && NumberedFrom(s.all, added, base)
      && child < |s.all| && s.all[child].id == base + |added|
    case ScalingDown(keep) => keep < |s.list|
    case _ => true
  }

  /** A restarted instance keeps the number of the one it replaces. */
  predicate ChildNumbered(all: seq<Instance>, h: Handle)
    requires h < |all|
  {
    var p := all[h].phase;
    p.Spawned? || p.Replacing? ==> p.child < |all| && all[p.child].id == all[h].id
  }

  predicate Numbered(s: State) {
    && NumberedFrom(s.all, s.list, 0)
    && OpNumbered(s)
    && (forall h :: 0 <= h < |s.all| ==> ChildNumbered(s.all, h))
  }

  /** If the step is Start adding an instance, the number of the instance is the next one of the list. */
  predicate InOrder(s: State, step: Step) {
    step == Operate(StartAdd) && s.op.StartSpawned? ==> |s.list| == s.op.next
  }

  lemma {:induction false} ReplacedKeepsNumbers(all: seq<Instance>, list: seq<Handle>, first: nat, id: nat,
                                                child: Handle)
    requires NumberedFrom(all, list, first) && child < |all| && all[child].id == id
    ensures NumberedFrom(all, Replaced(all, list, id, child), first)
    ensures |Replaced(all, list, id, child)| == |list|
  {
    if list != [] && all[list[0]].id != id {
      assert NumberedFrom(all, list[1..], first + 1) by {
        forall i | 0 <= i < |list[1..]| ensures list[1..][i] < |all| && all[list[1..][i]].id == first + 1 + i {
          assert list[1..][i] == list[i + 1];
        }
      }
      ReplacedKeepsNumbers(all, list[1..], first + 1, id, child);
    }
  }

  /** Instances only ever gain company: nobody's number changes. */
  predicate SameIds(before: seq<Instance>, after: seq<Instance>) {
    |before| <= |after| && forall h :: 0 <= h < |before| ==> after[h].id == before[h].id
  }

  lemma NumberedLater(before: seq<Instance>, after: seq<Instance>, list: seq<Handle>, first: nat)
    requires NumberedFrom(before, list, first) && SameIds(before, after)
    ensures NumberedFrom(after, list, first)
  {}

  lemma IdsKeptByMonitor(s: State, m: MonitorStep, h: Handle)
    requires MonitorEnabled(s, m, h)
    ensures SameIds(s.all, Monitored(s, m, h).all)
  {}

  lemma ChildAfterRespawn(s: State, h: Handle, k: Handle)
    requires MonitorEnabled(s, Respawn, h) && k <= |s.all| && (k < |s.all| ==> ChildNumbered(s.all, k))
    ensures ChildNumbered(Monitored(s, Respawn, h).all, k)
  {
    var next := Monitored(s, Respawn, h).all;
    if k < |s.all| && k != h { assert next[k] == s.all[k]; }
  }

  lemma ChildAfterAdd(s: State, h: Handle, k: Handle)
    requires MonitorEnabled(s, AddChild, h) && ChildNumbered(s.all, h) && k < |s.all| && ChildNumbered(s.all, k)
    ensures ChildNumbered(Monitored(s, AddChild, h).all, k)
  {
    var next := Monitored(s, AddChild, h).all;
    if k != h && k != s.all[h].phase.child { assert next[k] == s.all[k]; }
  }

  /** No other step of a monitor starts a successor or knows of one afterwards. */
  lemma ChildAfterOther(s: State, m: MonitorStep, h: Handle, k: Handle)
    requires MonitorEnabled(s, m, h) && m != Respawn && m != AddChild && k < |s.all| && ChildNumbered(s.all, k)
    ensures |Monitored(s, m, h).all| == |s.all| && ChildNumbered(Monitored(s, m, h).all, k)
  {
    var next := Monitored(s, m, h).all;
    IdsKeptByMonitor(s, m, h);
    if k != h { assert next[k] == s.all[k]; }
  }

  lemma ChildKeptByMonitor(s: State, m: MonitorStep, h: Handle, k: Handle)
    requires MonitorEnabled(s, m, h) && ChildNumbered(s.all, h)
    requires k < |Monitored(s, m, h).all| && (k < |s.all| ==> ChildNumbered(s.all, k))
    ensures ChildNumbered(Monitored(s, m, h).all, k)
  {
    if m == Respawn {
      ChildAfterRespawn(s, h, k);
    } else if m == AddChild {
      ChildAfterAdd(s, h, k);
    } else {
      ChildAfterOther(s, m, h, h);
      ChildAfterOther(s, m, h, k);
    }
  }

  lemma ChildrenKeptByMonitor(s: State, m: MonitorStep, h: Handle)
    requires MonitorEnabled(s, m, h)
    requires forall k :: 0 <= k < |s.all| ==> ChildNumbered(s.all, k)
    ensures forall k :: 0 <= k < |Monitored(s, m, h).all| ==> ChildNumbered(Monitored(s, m, h).all, k)
  {
    forall k: nat | k < |Monitored(s, m, h).all| ensures ChildNumbered(Monitored(s, m, h).all, k) {
      ChildKeptByMonitor(s, m, h, k);
    }
  }

  /** A monitor leaves the operation alone and touches the list only to replace an instance. */
  lemma MonitorFrame(s: State, m: MonitorStep, h: Handle)
    requires MonitorEnabled(s, m, h)
    ensures Monitored(s, m, h).op == s.op
    ensures Monitored(s, m, h).list ==
      if m == Replace then Replaced(s.all, s.list, s.all[h].id, s.all[h].phase.child) else s.list
  {}

  /** What the operation knows depends on the numbers and on the length of the list only. */
  lemma OpNumberedKept(s: State, next: State)
    requires OpNumbered(s) && next.op == s.op && |next.list| == |s.list| && SameIds(s.all, next.all)
    ensures OpNumbered(next)
  {
    if s.op.ScalingUp? || s.op.UpSpawned? { NumberedLater(s.all, next.all, s.op.added, s.op.base); }
  }

  lemma ListKeptByMonitor(s: State, m: MonitorStep, h: Handle)
    requires NumberedFrom(s.all, s.list, 0) && h < |s.all| && ChildNumbered(s.all, h) && MonitorEnabled(s, m, h)
    ensures NumberedFrom(s.all, Monitored(s, m, h).list, 0) && |Monitored(s, m, h).list| == |s.list|
  {
    MonitorFrame(s, m, h);
    if m == Replace {
      ReplacedKeepsNumbers(s.all, s.list, 0, s.all[h].id, s.all[h].phase.child);
    }
  }

  /** Crashes, restarts and exits leave the numbering and the length of the list as they are. */
  lemma MonitorKeepsNumbers(s: State, m: MonitorStep, h: Handle)
    requires Numbered(s) && MonitorEnabled(s, m, h)
    ensures Numbered(Monitored(s, m, h))
    ensures |Monitored(s, m, h).list| == |s.list|
  {
    IdsKeptByMonitor(s, m, h);
    ChildrenKeptByMonitor(s, m, h);
    ListKeptByMonitor(s, m, h);
    MonitorFrame(s, m, h);
    Reassembled(s, Monitored(s, m, h));
  }

  lemma Reassembled(s: State, next: State)
    requires OpNumbered(s) && next.op == s.op && |next.list| == |s.list| && SameIds(s.all, next.all)
    requires NumberedFrom(s.all, next.list, 0)
    requires forall k :: 0 <= k < |next.all| ==> ChildNumbered(next.all, k)
    ensures Numbered(next)
  {
    OpNumberedKept(s, next);
    NumberedLater(s.all, next.all, next.list, 0);
  }

  lemma IdsKeptByOperate(s: State, o: OpStep)
    requires OpEnabled(s, o)
    ensures SameIds(s.all, Operated(s, o).all)
  {}

  lemma ChildrenKeptByOperate(s: State, o: OpStep)
    requires OpEnabled(s, o) && forall k :: 0 <= k < |s.all| ==> ChildNumbered(s.all, k)
    ensures forall k :: 0 <= k < |Operated(s, o).all| ==> ChildNumbered(Operated(s, o).all, k)
  {
    var next := Operated(s, o).all;
    forall k: nat | k < |next| ensures ChildNumbered(next, k) {
      if k < |s.all| { assert ChildNumbered(s.all, k); }
    }
  }

  lemma ListKeptByOperate(s: State, o: OpStep)
    requires NumberedFrom(s.all, s.list, 0) && OpNumbered(s) && OpEnabled(s, o) && InOrder(s, Operate(o))
    ensures NumberedFrom(Operated(s, o).all, Operated(s, o).list, 0)
  {
    IdsKeptByOperate(s, o);
    NumberedLater(s.all, Operated(s, o).all, s.list, 0);
  }

  lemma OpKeptByOperate(s: State, o: OpStep)
    requires OpNumbered(s) && OpEnabled(s, o) && InOrder(s, Operate(o))
    ensures OpNumbered(Operated(s, o))
  {
    if s.op.ScalingUp? || s.op.UpSpawned? {
      IdsKeptByOperate(s, o);
      NumberedLater(s.all, Operated(s, o).all, s.op.added, s.op.base);
    }
  }

  lemma OperateKeepsNumbers(s: State, o: OpStep)
    requires Numbered(s) && OpEnabled(s, o) && InOrder(s, Operate(o))
    ensures Numbered(Operated(s, o))
  {
    ListKeptByOperate(s, o);
    OpKeptByOperate(s, o);
    ChildrenKeptByOperate(s, o);
  }

  lemma StopKeepsNumbers(s: State, c: StopStep, h: Handle)
    requires Numbered(s) && StopEnabled(s, c, h)
    ensures Numbered(StopAdvanced(s, c, h))
  {
    var next := StopAdvanced(s, c, h);
    forall k: nat | k < |next.all| ensures ChildNumbered(next.all, k) { assert ChildNumbered(s.all, k); }
    Reassembled(s, next);
  }

  lemma StepKeepsNumbers(s: State, step: Step)
    requires Numbered(s) && Enabled(s, step) && InOrder(s, step)
    ensures Numbered(Do(s, step))
  {
    match step
    case Operate(o) => OperateKeepsNumbers(s, o);
    case Monitor(m, h) => MonitorKeepsNumbers(s, m, h);
    case StopInstance(c, h) => StopKeepsNumbers(s, c, h);
    case HelperLeaves => Reassembled(s, Do(s, step));
  }

  lemma {:induction false} RunIsNumbered(states: seq<State>, steps: seq<Step>, k: nat)
    requires IsRun(states, steps) && k < |states|
    requires forall j :: 0 <= j < |steps| ==> InOrder(states[j], steps[j])
    ensures Numbered(states[k])
  {
    if k > 0 {
      RunIsNumbered(states, steps, k - 1);
      assert Follows(states[k - 1], steps[k - 1], states[k]);
      StepKeepsNumbers(states[k - 1], steps[k - 1]);
    }
  }

  // ----- a Start numbers from zero, whatever the list holds

  /** The instance Start has just created carries the number Start has come to. */
  predicate ChildHasNext(s: State) {
    s.op.StartSpawned? ==> s.op.child < |s.all| && s.all[s.op.child].id == s.op.next
  }

  lemma ChildHasNextStep(s: State, step: Step)
    requires ChildHasNext(s) && Enabled(s, step)
    ensures ChildHasNext(Do(s, step))
  {
    match step
    case Monitor(m, h) => IdsKeptByMonitor(s, m, h);
    case _ =>
  }

  lemma {:induction false} RunChildHasNext(states: seq<State>, steps: seq<Step>, k: nat)
    requires IsRun(states, steps) && k < |states|
    ensures ChildHasNext(states[k])
  {
    if k > 0 {
      RunChildHasNext(states, steps, k - 1);
      assert Follows(states[k - 1], steps[k - 1], states[k]);
      ChildHasNextStep(states[k - 1], steps[k - 1]);
    }
  }

  predicate InStart(s: State) {
    s.op.Starting? || s.op.StartSpawned?
  }

  /** Step `i` begins the Start that is under way in state `k`. */
  predicate StartedBy(states: seq<State>, steps: seq<Step>, i: nat, k: nat) {
    && i < k < |states| && i < |steps| && steps[i].Operate? && steps[i].o.BeginStart?
    && forall j | i < j <= k :: InStart(states[j])
  }

  /** With step `k`, the Start that step `i` began adds an instance. */
  predicate Adds(states: seq<State>, steps: seq<Step>, i: nat, k: nat) {
    k < |steps| && StartedBy(states, steps, i, k) && steps[k] == Operate(StartAdd)
  }

  lemma StartByOperate(s: State, o: OpStep)
    requires OpEnabled(s, o) && InStart(Operated(s, o))
    ensures var t := Operated(s, o);
            if InStart(s) then |t.list| - t.op.next == |s.list| - s.op.next
            else o.BeginStart? && t.list == s.list && t.op.next == 0
  {}

  lemma ListLockedStays(s: State, step: Step)
    requires Enabled(s, step) && !step.Operate? && ListLocked(s)
    ensures Do(s, step).list == s.list
  {
    if step.Monitor? { MonitorFrame(s, step.m, step.h); }
  }

  /** Start holds the lock on the list: while it runs, only its own additions change the list. */
  lemma StartStep(s: State, step: Step, t: State)
    requires Follows(s, step, t) && InStart(t)
    ensures InStart(s) ==> |t.list| - t.op.next == |s.list| - s.op.next
    ensures !InStart(s) ==> step.Operate? && step.o.BeginStart? && t.list == s.list && t.op.next == 0
  {
    if step.Operate? {
      StartByOperate(s, step.o);
    } else {
      OthersKeepOperation(s, step);
      ListLockedStays(s, step);
    }
  }

  lemma {:induction false} StartLength(states: seq<State>, steps: seq<Step>, i: nat, k: nat)
    requires IsRun(states, steps) && StartedBy(states, steps, i, k)
    ensures |states[k].list| == |states[i].list| + states[k].op.next
    decreases k
  {
    var j := k - 1;
    assert Follows(states[j], steps[j], states[j + 1]);
    StartStep(states[j], steps[j], states[k]);
    if i < j {
      assert InStart(states[j]);
      StartLength(states, steps, i, j);
    }
  }

  lemma {:induction false} StartBegan(states: seq<State>, steps: seq<Step>, k: nat) returns (i: nat)
    requires IsRun(states, steps) && k < |states| && InStart(states[k])
    ensures StartedBy(states, steps, i, k)
    decreases k
  {
    assert k > 0;
    assert Follows(states[k - 1], steps[k - 1], states[k]);
    StartStep(states[k - 1], steps[k - 1], states[k]);
    i := k - 1;
    if InStart(states[k - 1]) {
      i := StartBegan(states, steps, k - 1);
    }
  }

  /** The instance a Start adds fits the numbering exactly if that Start began from an empty list. */
  lemma StartAddIff(states: seq<State>, steps: seq<Step>, i: nat, k: nat)
    requires IsRun(states, steps) && Adds(states, steps, i, k)
    ensures states[i].list == [] <==> InOrder(states[k], steps[k])
    ensures states[i].list != [] ==> !NumberedFrom(states[k + 1].all, states[k + 1].list, 0)
  {
    assert Follows(states[k], steps[k], states[k + 1]);
    StartLength(states, steps, i, k);
    RunChildHasNext(states, steps, k);
    assert states[k + 1].list[|states[k].list|] == states[k].op.child;
  }

  /** In every run: the list holds name-0, name-1, ... in order in all its states if and only if every Start that adds
      an instance begins from an empty list. */
  lemma ListIsNumbered(states: seq<State>, steps: seq<Step>)
    requires IsRun(states, steps)
    ensures (forall k | 0 <= k < |states| :: NumberedFrom(states[k].all, states[k].list, 0)) <==>
      (forall i: nat, k: nat | Adds(states, steps, i, k) :: states[i].list == [])
  {
    if forall i: nat, k: nat | Adds(states, steps, i, k) :: states[i].list == [] {
      forall k: nat | k < |steps| ensures InOrder(states[k], steps[k]) {
        assert Follows(states[k], steps[k], states[k + 1]);
        if steps[k] == Operate(StartAdd) {
          var i := StartBegan(states, steps, k);
          assert Adds(states, steps, i, k);
          StartAddIff(states, steps, i, k);
        }
      }
      forall k: nat | k < |states| ensures NumberedFrom(states[k].all, states[k].list, 0) {
        RunIsNumbered(states, steps, k);
      }
    } else {
      var i: nat, k: nat :| Adds(states, steps, i, k) && states[i].list != [];
      StartAddIff(states, steps, i, k);
      assert !NumberedFrom(states[k + 1].all, states[k + 1].list, 0);
    }
  }

  // ----- what an operation leaves behind, while restarts interleave with it

  lemma {:induction false} ReplacedLength(all: seq<Instance>, list: seq<Handle>, id: nat, child: Handle)
    ensures |Replaced(all, list, id, child)| == |list|
  {
    if list != [] { ReplacedLength(all, list[1..], id, child); }
  }

  /** Only operations change the length of the list. */
  lemma LengthStep(s: State, step: Step)
    requires Enabled(s, step) && !step.Operate?
    ensures |Do(s, step).list| == |s.list|
  {
    if step.Monitor? && step.m == Replace {
      ReplacedLength(s.all, s.list, s.all[step.h].id, s.all[step.h].phase.child);
    }
  }

  /** The length an operation aims at, given the length of the list it began from. */
  function Aim(op: Operation, base: nat): int {
    match op
    case Starting(scale, _) => base + Max0(scale)
    case StartSpawned(scale, _, _) => base + Max0(scale)
    case ScalingUp(target, _, _) => target
    case UpSpawned(target, _, _, _) => target
    case ScalingDown(keep) => keep
    case _ => 0
  }

  /** What is known of the length half way. */
  predicate OnCourse(s: State, base: nat) {
    match s.op
    case Starting(scale, next) => next <= Max0(scale) && |s.list| == base + next
    case StartSpawned(scale, next, _) => next < Max0(scale) && |s.list| == base + next
    case ScalingUp(target, b, added) => |s.list| == b == base && base + |added| <= target
    case UpSpawned(target, b, added, _) => |s.list| == b == base && base + |added| < target
    case ScalingDown(keep) => keep < |s.list| == base
    case _ => true
  }

  /** The steps with which an operation succeeds. */
  predicate Succeeds(o: OpStep) {
    o.StartDone? || o.UpDone? || o.DownDone? || o.StopDone?
  }

  lemma CourseByOperate(s: State, o: OpStep, base: nat)
    requires OpEnabled(s, o) && s.op != Idle && OnCourse(s, base)
    ensures OnCourse(Operated(s, o), base)
    ensures var op := Operated(s, o).op; op != Idle ==> Aim(op, base) == Aim(s.op, base) || op.CleaningUp?
    ensures Succeeds(o) ==> |Operated(s, o).list| == Aim(s.op, base) && !s.op.CleaningUp?
    ensures s.op.CleaningUp? ==> Operated(s, o).op.CleaningUp? || Operated(s, o).op == Idle
  {}

  lemma OthersKeepOperation(s: State, step: Step)
    requires Enabled(s, step) && !step.Operate?
    ensures Do(s, step).op == s.op
  {}

  lemma CourseStep(s: State, step: Step, base: nat)
    requires Enabled(s, step) && s.op != Idle && OnCourse(s, base)
    ensures OnCourse(Do(s, step), base)
    ensures Do(s, step).op != Idle ==> Aim(Do(s, step).op, base) == Aim(s.op, base) || Do(s, step).op.CleaningUp?
    ensures step.Operate? && Succeeds(step.o) ==> |Do(s, step).list| == Aim(s.op, base) && !s.op.CleaningUp?
    ensures s.op.CleaningUp? ==> Do(s, step).op.CleaningUp? || Do(s, step).op == Idle
  {
    if step.Operate? {
      CourseByOperate(s, step.o, base);
    } else {
      LengthStep(s, step);
      OthersKeepOperation(s, step);
    }
  }

  lemma CourseBegins(s: State, step: Step, t: State)
    requires Follows(s, step, t) && s.op == Idle && t.op != Idle
    ensures OnCourse(t, |s.list|)
  {}

  /** One more step of an operation that does not end it. */
  lemma CourseGoesOn(s: State, step: Step, t: State, base: nat, aim: int)
    requires Follows(s, step, t) && s.op != Idle && t.op != Idle
    requires OnCourse(s, base) && (s.op.CleaningUp? || Aim(s.op, base) == aim)
    ensures OnCourse(t, base) && (t.op.CleaningUp? || Aim(t.op, base) == aim)
  {
    CourseStep(s, step, base);
  }

  lemma {:induction false} OnCourseUntil(states: seq<State>, steps: seq<Step>, i: nat, k: nat)
    requires IsRun(states, steps) && i < k < |states| && states[i].op == Idle
    requires forall j | i < j <= k :: states[j].op != Idle
    ensures OnCourse(states[k], |states[i].list|)
    ensures states[k].op.CleaningUp? || Aim(states[k].op, |states[i].list|) == Aim(states[i + 1].op, |states[i].list|)
    decreases k
  {
    var base, j := |states[i].list|, k - 1;
    assert Follows(states[j], steps[j], states[j + 1]);
    if i == j {
      CourseBegins(states[i], steps[i], states[i + 1]);
    } else {
      assert states[j].op != Idle;
      OnCourseUntil(states, steps, i, j);
      CourseGoesOn(states[j], steps[j], states[k], base, Aim(states[i + 1].op, base));
    }
  }

  /** In every run: an operation that succeeds leaves a list of the length it was asked for, whatever crashes, restarts
      and exits happen while it is under way. */
  lemma OperationResult(states: seq<State>, steps: seq<Step>, i: nat, k: nat)
    requires IsRun(states, steps) && i < k < |steps| && states[i].op == Idle
    requires forall j | i < j <= k :: states[j].op != Idle
    requires steps[k].Operate? && Succeeds(steps[k].o)
    ensures steps[i].Operate?
    ensures steps[i].o.BeginStart? ==> |states[k + 1].list| == |states[i].list| + Max0(steps[i].o.scale)
    ensures steps[i].o.BeginScaleUp? ==> |states[i].list| < |states[k + 1].list| == steps[i].o.target
    ensures steps[i].o.BeginScaleDown? ==> |states[i].list| > |states[k + 1].list| == steps[i].o.keep
    ensures steps[i].o.BeginStop? ==> |states[k + 1].list| == 0
  {
    OnCourseUntil(states, steps, i, k);
    assert Follows(states[i], steps[i], states[i + 1]);
    assert Follows(states[k], steps[k], states[k + 1]);
    assert states[i + 1].op != Idle;
    CourseStep(states[k], steps[k], |states[i].list|);
  }

  /** The steps with which Start and ScaleUp fail. */
  lemma FailureLength(s: State, step: Step, t: State, base: nat)
    requires Follows(s, step, t) && s.op != Idle && OnCourse(s, base)
    ensures step == Operate(StartSpawnFails) ==> base <= |t.list| < Aim(s.op, base) && t.op == Idle
    ensures step == Operate(UpSpawnFails) ==> s.op.ScalingUp? && base + |s.op.added| < Aim(s.op, base)
  {}

  /** In every run: a Start or a ScaleUp fails only while instances are missing. What a Start has added by then stays in
    * the list. */
  lemma FailsShort(states: seq<State>, steps: seq<Step>, i: nat, k: nat)
    requires IsRun(states, steps) && i < k < |steps| && states[i].op == Idle
    requires forall j | i < j <= k :: states[j].op != Idle
    requires steps[k] == Operate(StartSpawnFails) || steps[k] == Operate(UpSpawnFails)
    ensures steps[i].Operate?
    ensures steps[k].o.StartSpawnFails? ==> steps[i].o.BeginStart?
    ensures steps[k].o.StartSpawnFails? ==>
      |states[i].list| <= |states[k + 1].list| < |states[i].list| + Max0(steps[i].o.scale)
    ensures steps[k].o.UpSpawnFails? ==> steps[i].o.BeginScaleUp? && states[k].op.ScalingUp?
    ensures steps[k].o.UpSpawnFails? ==> |states[i].list| + |states[k].op.added| < steps[i].o.target
  {
    OnCourseUntil(states, steps, i, k);
    assert Follows(states[i], steps[i], states[i + 1]);
    assert Follows(states[k], steps[k], states[k + 1]);
    assert states[i + 1].op != Idle;
    FailureLength(states[k], steps[k], states[k + 1], |states[i].list|);
    KindUntil(states, steps, i, k);
  }

  /** A Start that has started all its instances. */
  predicate AllStarted(op: Operation) {
    op.Starting? && op.next >= op.scale
  }

  lemma HelperStep(s: State, step: Step, t: State)
    requires Follows(s, step, t) && AllStarted(s.op)
    ensures step != Operate(StartSpawn) && step != Operate(StartSpawnFails) && (t.op != Idle ==> t.op == s.op)
  {
    if !step.Operate? { OthersKeepOperation(s, step); }
  }

  lemma HelperBegins(s: State, step: Step, t: State)
    requires Follows(s, step, t) && step == Operate(StartHelper)
    ensures AllStarted(t.op)
  {}

  lemma {:induction false} StaysStarted(states: seq<State>, steps: seq<Step>, j: nat, k: nat)
    requires IsRun(states, steps) && j < k < |states| && steps[j] == Operate(StartHelper)
    requires forall x | j < x <= k :: states[x].op != Idle
    ensures AllStarted(states[k].op)
    decreases k
  {
    var i := k - 1;
    assert Follows(states[i], steps[i], states[i + 1]);
    if j == i {
      HelperBegins(states[i], steps[i], states[k]);
    } else {
      StaysStarted(states, steps, j, i);
      HelperStep(states[i], steps[i], states[k]);
    }
  }

  /** The helpers come last: once a Start has started one, it starts no more instances and does not fail. */
  lemma HelpersComeLast(states: seq<State>, steps: seq<Step>, j: nat, k: nat)
    requires IsRun(states, steps) && j < k < |steps| && steps[j] == Operate(StartHelper)
    requires forall x | j < x <= k :: states[x].op != Idle
    ensures steps[k] != Operate(StartSpawn) && steps[k] != Operate(StartSpawnFails)
  {
    StaysStarted(states, steps, j, k);
    assert Follows(states[k], steps[k], states[k + 1]);
    HelperStep(states[k], steps[k], states[k + 1]);
  }

  predicate IsStop(op: Operation) {
    op.StopCancelling? || op.StopJoining? || op.StopWaiting? || op.StopEnding?
  }

  /** An operation stays of its kind, except that a ScaleUp may turn into its clean-up. */
  predicate SameKind(a: Operation, b: Operation) {
    && ((a.Starting? || a.StartSpawned?) <==> (b.Starting? || b.StartSpawned?))
    && (IsStop(a) <==> IsStop(b))
    && (b.ScalingUp? || b.UpSpawned? ==> a.ScalingUp? || a.UpSpawned?)
  }

  lemma KindStep(s: State, step: Step, t: State)
    requires Follows(s, step, t) && s.op != Idle && t.op != Idle
    ensures SameKind(s.op, t.op)
  {
    if !step.Operate? { OthersKeepOperation(s, step); }
  }

  lemma {:induction false} KindUntil(states: seq<State>, steps: seq<Step>, i: nat, k: nat)
    requires IsRun(states, steps) && i < k < |states|
    requires forall j | i < j <= k :: states[j].op != Idle
    ensures SameKind(states[i + 1].op, states[k].op)
    decreases k
  {
    if i + 1 < k {
      KindUntil(states, steps, i, k - 1);
      assert Follows(states[k - 1], steps[k - 1], states[k]);
      KindStep(states[k - 1], steps[k - 1], states[k]);
    }
  }

  /** In every run: between two operations the length of the list stays as it is. */
  lemma {:induction false} LengthBetween(states: seq<State>, steps: seq<Step>, i: nat, k: nat)
    requires IsRun(states, steps) && i <= k < |states|
    requires forall j | i <= j <= k :: states[j].op == Idle
    ensures |states[k].list| == |states[i].list|
    decreases k
  {
    if i < k {
      assert Follows(states[k - 1], steps[k - 1], states[k]);
      LengthBetween(states, steps, i, k - 1);
      LengthStep(states[k - 1], steps[k - 1]);
    }
  }
}
