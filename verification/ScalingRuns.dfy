/** The scaling call of internal/process/manager_scaling.go on runs of the supervisor machine, where crashes, exits and
  * restarts interleave with it. */
module ScalingRuns {
  import opened Integers
  import opened SupervisorMachine
  import opened SupervisorScale
  import opened SupervisorSafety
  import opened SupervisorStrays
  import opened SupervisorRevival
  import SupervisorEnding
  import SupervisorStops
  import Scaling

  /** No operation is under way from state `i` to state `k`. */
  predicate Quiet(states: seq<State>, i: nat, k: nat) {
    i <= k < |states| && forall j | i <= j <= k :: states[j].op == Idle
  }

  /** The operation that step `b` begins succeeds with step `e`. */
  predicate Performed(states: seq<State>, steps: seq<Step>, b: nat, e: nat, o: OpStep) {
    && b < e < |steps| && e + 1 < |states| && states[b].op == Idle && steps[b] == Operate(o)
    && (forall j | b < j <= e :: states[j].op != Idle)
    && steps[e].Operate? && SupervisorScale.Succeeds(steps[e].o)
  }

  /** The first operation of the call, from the number of instances it has read. */
  function First(desired: int, current: nat, scale: int): OpStep {
    if desired <= 0 then BeginStop
    else if current == 0 then BeginStart(scale)
    else if desired > current then BeginScaleUp(desired)
    else BeginScaleDown(desired)
  }

  /** A successful call of ScaleProcess runs from state `i`, where it reads the number of instances, to state `z`. Its
    * first operation begins with step `b` and ends with step `e`; after a Start, it reads the number again in state
    * `m`, and the ScaleUp that may follow has steps `b2` to `e2`. One control call at a time: nobody else operates. */
  predicate Scaled(states: seq<State>, steps: seq<Step>, desired: int, scale: int,
                   i: nat, b: nat, e: nat, m: nat, b2: nat, e2: nat, z: nat)
  {
    i < |states| &&
    var current := |states[i].list|;
    if Max0(desired) == current then Quiet(states, i, z)
    else
      && Quiet(states, i, b) && Performed(states, steps, b, e, First(desired, current, scale))
      && Quiet(states, e + 1, m)
      && if current == 0 && desired > 1 && |states[m].list| < desired
         then
           && Quiet(states, m, b2) && Performed(states, steps, b2, e2, BeginScaleUp(desired))
           && Quiet(states, e2 + 1, z)
         else Quiet(states, m, z)
  }

  /** What an operation that succeeds aims at. */
  lemma PerformedLength(states: seq<State>, steps: seq<Step>, b: nat, e: nat, o: OpStep)
    requires IsRun(states, steps) && Performed(states, steps, b, e, o)
    ensures o.BeginStart? ==> |states[e + 1].list| == |states[b].list| + Max0(o.scale)
    ensures o.BeginScaleUp? ==> |states[e + 1].list| == o.target
    ensures o.BeginScaleDown? ==> |states[e + 1].list| == o.keep
    ensures o.BeginStop? ==> |states[e + 1].list| == 0
  {
    OperationResult(states, steps, b, e);
  }

  lemma StopForgets(states: seq<State>, steps: seq<Step>, b: nat, e: nat)
    requires IsRun(states, steps) && Performed(states, steps, b, e, BeginStop)
    ensures states[e + 1].context == NoContext
  {
    assert Follows(states[b], steps[b], states[b + 1]);
    assert Follows(states[e], steps[e], states[e + 1]);
    KindUntil(states, steps, b, e);
    assert IsStop(states[e].op);
  }

  lemma {:induction false} ContextBetween(states: seq<State>, steps: seq<Step>, i: nat, k: nat)
    requires IsRun(states, steps) && Quiet(states, i, k)
    ensures states[k].context == states[i].context
    decreases k
  {
    if i < k {
      ContextBetween(states, steps, i, k - 1);
      assert Follows(states[k - 1], steps[k - 1], states[k]);
      QuietContext(states[k - 1], steps[k - 1], states[k]);
    }
  }

  lemma QuietContext(s: State, step: Step, t: State)
    requires Follows(s, step, t) && s.op == Idle && t.op == Idle
    ensures t.context == s.context
  {
    if step.Monitor? { SupervisorEnding.ContextByMonitor(s, step.m, step.h); }
  }

  /** Scaling to zero is a Stop: the context is forgotten, so that nothing comes back before the next Start. */
  lemma ZeroIsStop(states: seq<State>, steps: seq<Step>, desired: int, scale: int,
                   i: nat, b: nat, e: nat, m: nat, b2: nat, e2: nat, z: nat)
    requires IsRun(states, steps) && Scaled(states, steps, desired, scale, i, b, e, m, b2, e2, z)
    requires desired <= 0 && states[i].list != []
    ensures states[z].list == [] && states[z].context == NoContext
  {
    LengthBetween(states, steps, i, b);
    PerformedLength(states, steps, b, e, BeginStop);
    LengthBetween(states, steps, e + 1, z);
    StopForgets(states, steps, b, e);
    ContextBetween(states, steps, e + 1, m);
    ContextBetween(states, steps, m, z);
  }

  /** In every run, a successful call ends with the number of instances that the sequential model gives, whatever
    * crashes, exits and restarts happen meanwhile; and the list is numbered if every Start of the run adds in order. */
  lemma ScaleProcessOnRuns(states: seq<State>, steps: seq<Step>, desired: int, scale: int,
                           i: nat, b: nat, e: nat, m: nat, b2: nat, e2: nat, z: nat)
    requires IsRun(states, steps) && Scaled(states, steps, desired, scale, i, b, e, m, b2, e2, z)
    ensures |states[z].list| == Scaling.Ends(desired, |states[i].list|, scale)
    ensures (forall j :: 0 <= j < |steps| ==> InOrder(states[j], steps[j])) ==>
      NumberedFrom(states[z].all, states[z].list, 0)
  {
    var current := |states[i].list|;
    if Max0(desired) == current {
      LengthBetween(states, steps, i, z);
    } else {
      LengthBetween(states, steps, i, b);
      PerformedLength(states, steps, b, e, First(desired, current, scale));
      LengthBetween(states, steps, e + 1, m);
      if current == 0 && desired > 1 && |states[m].list| < desired {
        PerformedLength(states, steps, b2, e2, BeginScaleUp(desired));
        LengthBetween(states, steps, e2 + 1, z);
      } else {
        LengthBetween(states, steps, m, z);
      }
    }
    if forall j :: 0 <= j < |steps| ==> InOrder(states[j], steps[j]) {
      RunIsNumbered(states, steps, z);
    }
  }

  // ----- such calls exist

  predicate GivesUpStep(step: Step) {
    step.StopInstance? && step.c == GivesUp
  }

  /** A call of stopInstance that waits for its instance has told it to stop. */
  predicate Told(s: State) {
    forall h: nat | h in s.stops && s.stops[h] == Signalled :: h < |s.all| && s.all[h].stopSeen
  }

  lemma ToldStep(s: State, step: Step)
    requires Enabled(s, step) && Told(s)
    ensures Told(Do(s, step))
  {
    forall h: nat | h in Do(s, step).stops && Do(s, step).stops[h] == Signalled
      ensures h < |Do(s, step).all| && Do(s, step).all[h].stopSeen
    {
      if step.Monitor? { SupervisorEnding.ContextByMonitor(s, step.m, step.h); }
      if h in s.stops && s.stops[h] == Signalled { SeenStays(s, step, h); }
    }
  }

  lemma {:induction false} RunTells(states: seq<State>, steps: seq<Step>, k: nat)
    requires IsRun(states, steps) && k < |states|
    ensures Told(states[k])
  {
    if k > 0 {
      RunTells(states, steps, k - 1);
      assert Follows(states[k - 1], steps[k - 1], states[k]);
      ToldStep(states[k - 1], steps[k - 1]);
    }
  }

  /** From `s`, where an operation is under way, to its successful end: nobody gives up on an instance. */
  predicate Finishes(states: seq<State>, steps: seq<Step>, s: State) {
    && IsPath(states, steps, s) && |steps| > 0
    && (forall j | 0 <= j < |steps| :: states[j].op != Idle && !GivesUpStep(steps[j])) && states[|steps|].op == Idle
    && steps[|steps| - 1].Operate? && SupervisorScale.Succeeds(steps[|steps| - 1].o)
  }

  lemma LongerPath(s: State, step: Step, states: seq<State>, steps: seq<Step>)
    requires Enabled(s, step) && IsPath(states, steps, Do(s, step))
    ensures IsPath([s] + states, [step] + steps, s)
  {
    var longer, more := [s] + states, [step] + steps;
    forall k | 0 <= k < |more| ensures Follows(longer[k], more[k], longer[k + 1]) {
      if k > 0 { assert Follows(states[k - 1], steps[k - 1], states[k]); }
    }
  }

  lemma FinishesBy(s: State, step: Step, states: seq<State>, steps: seq<Step>)
    requires Enabled(s, step) && s.op != Idle && !GivesUpStep(step) && Finishes(states, steps, Do(s, step))
    ensures Finishes([s] + states, [step] + steps, s)
  {
    LongerPath(s, step, states, steps);
  }

  lemma FinishesWith(s: State, o: OpStep)
    requires OpEnabled(s, o) && s.op != Idle && SupervisorScale.Succeeds(o) && Operated(s, o).op == Idle
    ensures Finishes([s, Operated(s, o)], [Operate(o)], s)
  {}

  /** The next step of an operation that meets no failure. */
  function Forward(op: Operation): OpStep {
    match op
    case Starting(scale, next) => if next < scale then StartSpawn else StartDone
    case StartSpawned(_, _, _) => StartAdd
    case ScalingUp(target, base, added) => if base + |added| < target then UpSpawn else UpDone
    case UpSpawned(_, _, _, _) => UpAdd
    case ScalingDown(_) => DownDone
    case StopCancelling => StopCancel
    case StopJoining => StopJoined
    case StopWaiting(_) => StopTimeout
    case _ => StopDone
  }

  function StepsLeft(op: Operation): nat {
    match op
    case Starting(scale, next) => 2 * Max0(scale - next) + 1
    case StartSpawned(scale, next, _) => 2 * Max0(scale - next - 1) + 2
    case ScalingUp(target, base, added) => 2 * Max0(target - base - |added|) + 1
    case UpSpawned(target, base, added, _) => 2 * Max0(target - base - |added| - 1) + 2
    case StopCancelling => 4
    case StopJoining => 3
    case StopWaiting(_) => 2
    case _ => 1
  }

  lemma ForwardAdvances(s: State)
    requires Sound(s) && s.op != Idle && !s.op.CleaningUp? && AllReturned(s)
    ensures OpEnabled(s, Forward(s.op))
    ensures var t := Operated(s, Forward(s.op));
            if t.op == Idle then SupervisorScale.Succeeds(Forward(s.op))
            else !t.op.CleaningUp? && StepsLeft(t.op) < StepsLeft(s.op)
  {}

  lemma LookAdvances(s: State, k: Handle)
    requires Sound(s) && k in s.stops && s.stops[k] == StopCall.Entered
    ensures k < |s.all| && StopEnabled(s, Look, k) && StopAdvanced(s, Look, k).op == s.op
    ensures Unseen(StopAdvanced(s, Look, k)) < Unseen(s)
  {
    StopCallAdvances(s, k);
    assert k in Unseen(s) && k !in Unseen(StopAdvanced(s, Look, k));
  }

  lemma ReturnAdvances(s: State, k: Handle)
    requires k in s.stops && s.stops[k] == Signalled && k < |s.all|
    requires s.all[k].phase.Closed? || s.all[k].phase.Gone?
    ensures StopEnabled(s, ReturnsStopped, k)
    ensures var t := StopAdvanced(s, ReturnsStopped, k);
            t.op == s.op && t.all == s.all && Unseen(t) == Unseen(s) && Underway(t) < Underway(s)
  {
    var t := StopAdvanced(s, ReturnsStopped, k);
    assert k in Underway(s) && k !in Underway(t);
  }

  lemma WindAdvances(s: State, k: Handle)
    requires Sound(s) && Told(s) && k in s.stops && s.stops[k] == Signalled && !s.all[k].phase.Gone?
    requires !ListLocked(s) && !s.op.UpSpawned?
    ensures var (m, h) := SupervisorEnding.Winding(s, k);
            && MonitorEnabled(s, m, h) && Monitored(s, m, h).op == s.op && Unseen(Monitored(s, m, h)) == Unseen(s)
            && SupervisorEnding.AllWork(Monitored(s, m, h).all) < SupervisorEnding.AllWork(s.all)
  {
    var (m, h) := SupervisorEnding.Winding(s, k);
    SupervisorEnding.StoppedWinds(s, k);
    SupervisorEnding.ContextByMonitor(s, m, h);
    MonitorFrame(s, m, h);
  }

  /** What is known of every state of a run. */
  ghost predicate Known(s: State) {
    Sound(s) && Told(s) && SupervisorStops.StopsOnly(s)
  }

  lemma KnownStep(s: State, step: Step)
    requires Known(s) && Enabled(s, step)
    ensures Known(Do(s, step))
  {
    SoundStep(s, step);
    ToldStep(s, step);
    SupervisorStops.StopsOnlyStep(s, step);
  }

  lemma RunIsKnown(states: seq<State>, steps: seq<Step>, k: nat)
    requires IsRun(states, steps) && k < |states|
    ensures Known(states[k])
  {
    RunIsSound(states, steps, k);
    RunTells(states, steps, k);
    SupervisorStops.RunStopsOnly(states, steps, k);
  }

  /** The state `t` is nearer to the end of the operation than `s`. */
  ghost predicate Nearer(s: State, t: State) {
    || StepsLeft(t.op) < StepsLeft(s.op)
    || (t.op == s.op && Unseen(t) < Unseen(s))
    || (t.op == s.op && Unseen(t) == Unseen(s) &&
        (|| SupervisorEnding.AllWork(t.all) < SupervisorEnding.AllWork(s.all)
         || (t.all == s.all && Underway(t) < Underway(s))))
  }

  /** The next step of an operation that meets no failure, of a call of stopInstance it waits for, or of an instance
    * that was told to stop. */
  lemma Advances(s: State) returns (step: Step)
    requires Known(s) && s.op != Idle && !s.op.CleaningUp?
    ensures Enabled(s, step) && !GivesUpStep(step)
    ensures Do(s, step).op == Idle ==> step.Operate? && SupervisorScale.Succeeds(step.o)
    ensures Do(s, step).op != Idle ==> !Do(s, step).op.CleaningUp? && Nearer(s, Do(s, step))
  {
    if AllReturned(s) {
      ForwardAdvances(s);
      step := Operate(Forward(s.op));
    } else {
      var k :| k in s.stops && s.stops[k] != Returned;
      assert s.stops != map[];
      if s.stops[k] == StopCall.Entered {
        LookAdvances(s, k);
        step := StopInstance(Look, k);
      } else if s.all[k].phase.Closed? || s.all[k].phase.Gone? {
        ReturnAdvances(s, k);
        step := StopInstance(ReturnsStopped, k);
      } else {
        WindAdvances(s, k);
        step := Monitor(SupervisorEnding.Winding(s, k).0, SupervisorEnding.Winding(s, k).1);
      }
    }
  }

  /** An operation other than a clean-up can come to a successful end. */
  lemma {:induction false} CanFinish(s: State) returns (states: seq<State>, steps: seq<Step>)
    requires Known(s) && s.op != Idle && !s.op.CleaningUp?
    ensures Finishes(states, steps, s)
    decreases StepsLeft(s.op), Unseen(s), SupervisorEnding.AllWork(s.all), Underway(s)
  {
    var step := Advances(s);
    var t := Do(s, step);
    if t.op == Idle {
      FinishesWith(s, step.o);
      states, steps := [s, t], [step];
    } else {
      KnownStep(s, step);
      states, steps := CanFinish(t);
      FinishesBy(s, step, states, steps);
      states, steps := [s] + states, [step] + steps;
    }
  }

  /** From step `i` on no call of stopInstance gives up, so that no operation returns an error for it. */
  predicate NobodyGivesUp(steps: seq<Step>, i: nat) {
    forall k | i <= k < |steps| :: !GivesUpStep(steps[k])
  }

  predicate BeginsOperation(o: OpStep) {
    o.BeginStart? || o.BeginScaleUp? || o.BeginScaleDown? || o.BeginStop?
  }

  lemma RunGoesOn(states: seq<State>, steps: seq<Step>, step: Step, rest: seq<State>, others: seq<Step>)
    requires IsRun(states, steps) && Enabled(states[|steps|], step) && IsPath(rest, others, Do(states[|steps|], step))
    ensures IsRun(states + rest, steps + [step] + others)
  {
    var longer, more, n := states + rest, steps + [step] + others, |states|;
    forall k | 0 <= k < |more| ensures Follows(longer[k], more[k], longer[k + 1]) {
      if k < |steps| {
        assert Follows(states[k], steps[k], states[k + 1]);
      } else if k > |steps| {
        assert Follows(rest[k - n], others[k - n], rest[k - n + 1]);
      }
    }
  }

  /** An operation that is begun and then finishes has been performed. */
  lemma PerformedBy(states: seq<State>, steps: seq<Step>, o: OpStep, rest: seq<State>, others: seq<Step>)
    requires |states| == |steps| + 1 && states[|steps|].op == Idle && OpEnabled(states[|steps|], o)
    requires Finishes(rest, others, Operated(states[|steps|], o))
    ensures var longer, more := states + rest, steps + [Operate(o)] + others;
            && Performed(longer, more, |steps|, |more| - 1, o) && longer[|more|].op == Idle
            && NobodyGivesUp(more, |steps|)
  {
    var longer, more, n := states + rest, steps + [Operate(o)] + others, |states|;
    forall j | |steps| < j <= |more| - 1 ensures longer[j].op != Idle && !GivesUpStep(more[j]) {
      assert longer[j] == rest[j - n] && more[j] == others[j - n];
    }
  }

  /** A run that is between operations can go on by any operation that is allowed, to its successful end. */
  lemma CanPerform(states: seq<State>, steps: seq<Step>, o: OpStep) returns (longer: seq<State>, more: seq<Step>)
    requires IsRun(states, steps) && states[|steps|].op == Idle
    requires BeginsOperation(o) && OpEnabled(states[|steps|], o)
    ensures IsRun(longer, more) && states <= longer && steps <= more && |steps| + 1 < |more|
    ensures Performed(longer, more, |steps|, |more| - 1, o) && longer[|more|].op == Idle
    ensures NobodyGivesUp(more, |steps|)
  {
    var s := states[|steps|];
    RunIsKnown(states, steps, |steps|);
    KnownStep(s, Operate(o));
    var rest, others := CanFinish(Operated(s, o));
    RunGoesOn(states, steps, Operate(o), rest, others);
    PerformedBy(states, steps, o, rest, others);
    longer, more := states + rest, steps + [Operate(o)] + others;
  }

  /** What has been performed stays so when the run goes on. */
  lemma PerformedBefore(states: seq<State>, steps: seq<Step>, longer: seq<State>, more: seq<Step>,
                        b: nat, e: nat, o: OpStep)
    requires |states| == |steps| + 1 && |longer| == |more| + 1 && states <= longer && steps <= more
    requires Performed(states, steps, b, e, o)
    ensures Performed(longer, more, b, e, o)
  {
    assert forall j | b <= j <= e :: longer[j] == states[j];
  }

  /** A ScaleUp performed after another operation. */
  lemma ThenScaleUp(states: seq<State>, steps: seq<Step>, b: nat, e: nat, o: OpStep, target: int)
      returns (longer: seq<State>, more: seq<Step>)
    requires IsRun(states, steps) && Performed(states, steps, b, e, o)
    requires states[|steps|].op == Idle && target > |states[|steps|].list|
    ensures IsRun(longer, more) && states <= longer && steps <= more && |steps| + 1 < |more|
    ensures Performed(longer, more, b, e, o) && Performed(longer, more, |steps|, |more| - 1, BeginScaleUp(target))
    ensures longer[|more|].op == Idle && NobodyGivesUp(more, |steps|)
  {
    longer, more := CanPerform(states, steps, BeginScaleUp(target));
    PerformedBefore(states, steps, longer, more, b, e, o);
  }

  /** The number that the call reads when it begins asks for this operation first. */
  function FirstFrom(states: seq<State>, i: nat, desired: int, scale: int): OpStep
    requires i < |states|
  {
    First(desired, |states[i].list|, scale)
  }

  /** A second operation is needed after the first, which ended in state `m`. */
  predicate NeedsMore(states: seq<State>, i: nat, m: nat, desired: int)
    requires i < |states| && m < |states|
  {
    |states[i].list| == 0 && desired > 1 && |states[m].list| < desired
  }

  /** A successful call runs from state `i` to state `z`. */
  ghost predicate CallSucceeds(states: seq<State>, steps: seq<Step>, desired: int, scale: int, i: nat, z: nat) {
    exists b, e, m, b2, e2 :: Scaled(states, steps, desired, scale, i, b, e, m, b2, e2, z)
  }

  lemma ScaledByOne(states: seq<State>, steps: seq<Step>, desired: int, scale: int, i: nat)
    requires |states| == |steps| + 1 && i < |steps| && Max0(desired) != |states[i].list|
    requires states[i].op == Idle && states[|steps|].op == Idle
    requires Performed(states, steps, i, |steps| - 1, FirstFrom(states, i, desired, scale))
    requires !NeedsMore(states, i, |steps|, desired)
    ensures CallSucceeds(states, steps, desired, scale, i, |steps|)
  {
    var z := |steps|;
    assert Scaled(states, steps, desired, scale, i, i, z - 1, z, z, z, z);
  }

  lemma ScaledByTwo(states: seq<State>, steps: seq<Step>, desired: int, scale: int, i: nat, m: nat)
    requires |states| == |steps| + 1 && i < m < |steps| && Max0(desired) != |states[i].list|
    requires states[i].op == Idle && states[m].op == Idle && states[|steps|].op == Idle
    requires Performed(states, steps, i, m - 1, FirstFrom(states, i, desired, scale))
    requires NeedsMore(states, i, m, desired) && Performed(states, steps, m, |steps| - 1, BeginScaleUp(desired))
    ensures CallSucceeds(states, steps, desired, scale, i, |steps|)
  {
    var z := |steps|;
    assert Scaled(states, steps, desired, scale, i, i, m - 1, m, m, z - 1, z);
  }

  /** Every run that is between operations can go on by a successful call, whatever number of instances is asked for. */
  lemma CanScale(states: seq<State>, steps: seq<Step>, desired: int, scale: int)
      returns (longer: seq<State>, more: seq<Step>)
    requires IsRun(states, steps) && states[|steps|].op == Idle
    ensures IsRun(longer, more) && states <= longer && steps <= more
    ensures CallSucceeds(longer, more, desired, scale, |steps|, |more|) && NobodyGivesUp(more, |steps|)
  {
    var i := |steps|;
    longer, more := states, steps;
    if Max0(desired) == |states[i].list| {
      assert Scaled(states, steps, desired, scale, i, i, i, i, i, i, i);
    } else {
      FirstEnabled(states[i], desired, scale);
      var first, done := CanPerform(states, steps, FirstFrom(states, i, desired, scale));
      longer, more := AfterFirst(first, done, desired, scale, i);
      GivesUpNeither(steps, done, more);
    }
  }

  lemma GivesUpNeither(before: seq<Step>, half: seq<Step>, steps: seq<Step>)
    requires before <= half <= steps && NobodyGivesUp(half, |before|) && NobodyGivesUp(steps, |half|)
    ensures NobodyGivesUp(steps, |before|)
  {
    assert forall k | 0 <= k < |half| :: steps[k] == half[k];
  }

  lemma FirstEnabled(s: State, desired: int, scale: int)
    requires s.op == Idle && Max0(desired) != |s.list|
    ensures BeginsOperation(First(desired, |s.list|, scale)) && OpEnabled(s, First(desired, |s.list|, scale))
  {}

  /** The call goes on after its first operation. */
  lemma AfterFirst(states: seq<State>, steps: seq<Step>, desired: int, scale: int, i: nat)
      returns (longer: seq<State>, more: seq<Step>)
    requires IsRun(states, steps) && i < |steps| && Max0(desired) != |states[i].list|
    requires states[i].op == Idle && states[|steps|].op == Idle
    requires Performed(states, steps, i, |steps| - 1, FirstFrom(states, i, desired, scale))
    ensures IsRun(longer, more) && states <= longer && steps <= more
    ensures CallSucceeds(longer, more, desired, scale, i, |more|) && NobodyGivesUp(more, |steps|)
  {
    longer, more := states, steps;
    if NeedsMore(states, i, |steps|, desired) {
      var m := |steps|;
      longer, more := ThenScaleUp(states, steps, i, m - 1, FirstFrom(states, i, desired, scale), desired);
      assert longer[i] == states[i] && longer[m] == states[m];
      ScaledByTwo(longer, more, desired, scale, i, m);
    } else {
      ScaledByOne(states, steps, desired, scale, i);
    }
  }
}
