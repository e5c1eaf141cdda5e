/** What becomes of the instances that ScaleDown, Stop and the clean-up of a failed ScaleUp remove, in every run of the
  * supervisor machine, and what a cancelled context holds back. */
module SupervisorStops {
  import opened SupervisorMachine
  import opened SupervisorSafety
  import opened SupervisorScale
  import opened SupervisorStrays
  import opened SupervisorRevival

  // ----- a call of stopInstance that has looked leaves no running instance

  predicate Looked(s: State, h: Handle) {
    h in s.stops && h < |s.all| && s.stops[h] != Entered ==> s.all[h].state != InstanceState.Running
  }

  predicate AllLooked(s: State) {
    forall h: nat | h in s.stops :: Looked(s, h)
  }

  /** No step makes an instance run again. */
  lemma NeverRunsAgain(s: State, step: Step, h: Handle)
    requires Enabled(s, step) && h < |s.all|
    ensures h < |Do(s, step).all|
    ensures s.all[h].state != InstanceState.Running ==> Do(s, step).all[h].state != InstanceState.Running
    ensures !s.all[h].live ==> !Do(s, step).all[h].live
  {
    match step
    case Operate(o) =>
    case Monitor(m, k) => if k != h { MonitorLeaves(s, m, k, h); }
    case _ =>
  }

  /** A monitor touches its own instance and the one it has just started. */
  lemma MonitorLeaves(s: State, m: MonitorStep, k: Handle, h: Handle)
    requires MonitorEnabled(s, m, k) && h < |s.all| && h != k
    ensures h < |Monitored(s, m, k).all|
    ensures Monitored(s, m, k).all[h].(phase := s.all[h].phase) == s.all[h]
  {}

  lemma LookedStep(s: State, step: Step)
    requires Enabled(s, step) && AllLooked(s) && Callable(s)
    ensures AllLooked(Do(s, step))
  {
    var t := Do(s, step);
    forall h: nat | h in t.stops ensures Looked(t, h) {
      if h in s.stops {
        assert Looked(s, h);
        NeverRunsAgain(s, step, h);
      }
      if step.Monitor? { AllGrows(s, step.m, step.h); }
    }
  }

  lemma {:induction false} RunLooks(states: seq<State>, steps: seq<Step>, k: nat)
    requires IsRun(states, steps) && k < |states|
    ensures AllLooked(states[k])
  {
    if k > 0 {
      RunLooks(states, steps, k - 1);
      RunIsSound(states, steps, k - 1);
      assert Follows(states[k - 1], steps[k - 1], states[k]);
      LookedStep(states[k - 1], steps[k - 1]);
    }
  }

  // ----- and if it did not give up, it leaves no process

  /** Only three kinds of operation stop instances. */
  predicate StopsOnly(s: State) {
    s.stops != map[] ==> s.op.ScalingDown? || s.op.StopJoining? || s.op.CleaningUp?
  }

  lemma StopsOnlyStep(s: State, step: Step)
    requires Enabled(s, step) && StopsOnly(s)
    ensures StopsOnly(Do(s, step))
  {
    match step
    case Monitor(m, k) => MonitorFrame(s, m, k); AllGrows(s, m, k);
    case _ =>
  }

  /** As long as no call of stopInstance has given up on the instance: a call that has returned leaves no process. */
  predicate Attended(s: State, h: Handle) {
    h < |s.all| ==>
      var x := s.all[h];
      && (x.live ==> x.state == InstanceState.Running || x.state == Stopping)
      && (x.live && x.state == Stopping ==> h in s.stops && s.stops[h] == Signalled)
      && (h in s.stops && s.stops[h] == Returned ==> !x.live)
  }

  lemma AttendedByOperate(s: State, o: OpStep, h: Handle)
    requires OpEnabled(s, o) && StopsOnly(s) && Attended(s, h)
    ensures Attended(Operated(s, o), h)
  {}

  lemma AttendedByMonitor(s: State, m: MonitorStep, k: Handle, h: Handle)
    requires MonitorEnabled(s, m, k) && AllGood(s.all) && Attended(s, h) && Callable(s)
    ensures Attended(Monitored(s, m, k), h)
  {
    AllGrows(s, m, k);
    assert Good(s.all[k]);
    if h < |s.all| && h != k { MonitorLeaves(s, m, k, h); }
  }

  lemma AttendedByStop(s: State, c: StopStep, k: Handle, h: Handle)
    requires StopEnabled(s, c, k) && AllGood(s.all) && Attended(s, h) && (k == h ==> c != GivesUp)
    ensures Attended(StopAdvanced(s, c, k), h)
  {
    assert Good(s.all[k]);
  }

  lemma AttendedStep(s: State, step: Step, h: Handle)
    requires Enabled(s, step) && Sound(s) && StopsOnly(s) && Attended(s, h) && step != StopInstance(GivesUp, h)
    ensures Attended(Do(s, step), h)
  {
    match step
    case Operate(o) => AttendedByOperate(s, o, h);
    case Monitor(m, k) => AttendedByMonitor(s, m, k, h);
    case StopInstance(c, k) => AttendedByStop(s, c, k, h);
    case HelperLeaves =>
  }

  lemma {:induction false} RunStopsOnly(states: seq<State>, steps: seq<Step>, k: nat)
    requires IsRun(states, steps) && k < |states|
    ensures StopsOnly(states[k])
  {
    if k > 0 {
      RunStopsOnly(states, steps, k - 1);
      assert Follows(states[k - 1], steps[k - 1], states[k]);
      StopsOnlyStep(states[k - 1], steps[k - 1]);
    }
  }

  lemma AttendedNext(s: State, step: Step, t: State, h: Handle)
    requires Follows(s, step, t) && Sound(s) && StopsOnly(s) && Attended(s, h) && step != StopInstance(GivesUp, h)
    ensures Attended(t, h)
  {
    AttendedStep(s, step, h);
  }

  /** No call of stopInstance has given up on the instance before state `k`. */
  predicate NotGivenUp(steps: seq<Step>, k: nat, h: Handle) {
    k <= |steps| && StopInstance(GivesUp, h) !in steps[..k]
  }

  lemma {:induction false} RunAttends(states: seq<State>, steps: seq<Step>, k: nat, h: Handle)
    requires IsRun(states, steps) && k < |states| && NotGivenUp(steps, k, h)
    ensures Attended(states[k], h)
  {
    if k > 0 {
      assert steps[..k] == steps[..k - 1] + [steps[k - 1]];
      RunAttends(states, steps, k - 1, h);
      RunStopsOnly(states, steps, k - 1);
      RunIsSound(states, steps, k - 1);
      assert Follows(states[k - 1], steps[k - 1], states[k]);
      AttendedNext(states[k - 1], steps[k - 1], states[k], h);
    }
  }

  // ----- the operations that remove instances

  function SetOf(handles: seq<Handle>): set<Handle> {
    set h | h in handles
  }

  /** From step `i` to step `k` an operation removes the instances `removed`: ScaleDown the end of the list, Stop all of
    * it, and a ScaleUp that has failed what it has added. */
  predicate Removes(states: seq<State>, steps: seq<Step>, i: nat, k: nat, removed: seq<Handle>) {
    i < k < |steps| < |states| && steps[i].Operate? && steps[k].Operate? &&
    (forall j | i < j < k :: steps[j] != steps[k]) &&
    var s := states[i];
    || (steps[i].o.BeginScaleDown? && steps[k].o.DownDone? && steps[i].o.keep <= |s.list| &&
        removed == s.list[steps[i].o.keep..])
    || (steps[i].o.StopCancel? && steps[k].o.StopJoined? && removed == s.list)
    || (steps[i].o.UpSpawnFails? && steps[k].o.CleanupDone? && s.op.ScalingUp? && removed == s.op.added)
  }

  /** What the operation that ends with `last` is about. */
  predicate Removing(s: State, last: OpStep, removed: set<Handle>) {
    match last
    case DownDone => s.op.ScalingDown? && s.stops.Keys == removed
    case StopJoined => s.op.StopJoining? && s.stops.Keys == removed
    case CleanupDone => s.op.CleaningUp? && SetOf(s.op.todo) + s.stops.Keys <= removed
    case _ => false
  }

  lemma RemovingStep(s: State, step: Step, last: OpStep, removed: set<Handle>)
    requires Enabled(s, step) && Removing(s, last, removed) && step != Operate(last)
    ensures Removing(Do(s, step), last, removed)
  {
    match step
    case Operate(o) => if o == CleanupNext { assert s.op.todo[0] in SetOf(s.op.todo); }
    case Monitor(m, k) => MonitorFrame(s, m, k); AllGrows(s, m, k);
    case StopInstance(c, k) => HeldByOthers(s, step); assert Do(s, step).stops.Keys == s.stops.Keys;
    case HelperLeaves =>
  }

  lemma RemovingBegins(states: seq<State>, steps: seq<Step>, i: nat, k: nat, removed: seq<Handle>)
    requires IsRun(states, steps) && Removes(states, steps, i, k, removed)
    ensures Removing(states[i + 1], steps[k].o, SetOf(removed))
  {
    assert Follows(states[i], steps[i], states[i + 1]);
    assert EnterAll(removed).Keys == SetOf(removed);
  }

  lemma RemovingNext(states: seq<State>, steps: seq<Step>, j: nat, last: OpStep, removed: set<Handle>)
    requires IsRun(states, steps) && j < |steps| && Removing(states[j], last, removed) && steps[j] != Operate(last)
    ensures Removing(states[j + 1], last, removed)
  {
    assert Follows(states[j], steps[j], states[j + 1]);
    RemovingStep(states[j], steps[j], last, removed);
  }

  lemma {:induction false} RemovingUntil(states: seq<State>, steps: seq<Step>, i: nat, j: nat, last: OpStep,
                                         removed: set<Handle>)
    requires IsRun(states, steps) && i <= j < |states| && Removing(states[i], last, removed)
    requires forall x | i <= x < j :: steps[x] != Operate(last)
    ensures Removing(states[j], last, removed)
    decreases j
  {
    if i < j {
      RemovingUntil(states, steps, i, j - 1, last, removed);
      RemovingNext(states, steps, j - 1, last, removed);
    }
  }

  lemma RemovingGoesOn(states: seq<State>, steps: seq<Step>, i: nat, j: nat, k: nat, removed: seq<Handle>)
    requires IsRun(states, steps) && Removes(states, steps, i, k, removed) && i < j <= k
    ensures Removing(states[j], steps[k].o, SetOf(removed))
  {
    RemovingBegins(states, steps, i, k, removed);
    RemovingUntil(states, steps, i + 1, j, steps[k].o, SetOf(removed));
  }

  /** Half way through a clean-up: the instance waits for its turn, is being stopped, or has been. */
  predicate CleanedUp(s: State, h: Handle) {
    h < |s.all| && s.op.CleaningUp? && (h in s.op.todo || h in s.stops || s.all[h].state != InstanceState.Running)
  }

  lemma CleanedUpStep(s: State, step: Step, h: Handle)
    requires Enabled(s, step) && CleanedUp(s, h) && AllLooked(s) && step != Operate(CleanupDone)
    ensures CleanedUp(Do(s, step), h)
  {
    NeverRunsAgain(s, step, h);
    match step
    case Operate(o) =>
      assert h in s.stops ==> Looked(s, h);
      assert h in s.op.todo ==> h == s.op.todo[0] || h in s.op.todo[1..];
    case Monitor(m, k) => MonitorFrame(s, m, k); AllGrows(s, m, k);
    case _ =>
  }

  lemma CleanupBegins(s: State, step: Step, t: State, h: Handle)
    requires Follows(s, step, t) && Sound(s) && step == Operate(UpSpawnFails) && s.op.ScalingUp? && h in s.op.added
    ensures CleanedUp(t, h)
  {
    assert h in Held(s) && h in Kept(s);
  }

  lemma CleanupGoesOn(s: State, step: Step, t: State, h: Handle)
    requires Follows(s, step, t) && CleanedUp(s, h) && AllLooked(s) && step != Operate(CleanupDone)
    ensures CleanedUp(t, h)
  {
    CleanedUpStep(s, step, h);
  }

  lemma {:induction false} CleanupReaches(states: seq<State>, steps: seq<Step>, i: nat, k: nat, h: Handle)
    requires IsRun(states, steps) && i < k < |states| && steps[i] == Operate(UpSpawnFails)
    requires states[i].op.ScalingUp? && h in states[i].op.added
    requires forall x | i < x < k :: steps[x] != Operate(CleanupDone)
    ensures CleanedUp(states[k], h)
    decreases k
  {
    var j := k - 1;
    assert Follows(states[j], steps[j], states[j + 1]);
    if j == i {
      RunIsSound(states, steps, i);
      CleanupBegins(states[i], steps[i], states[k], h);
    } else {
      CleanupReaches(states, steps, i, j, h);
      RunLooks(states, steps, j);
      CleanupGoesOn(states[j], steps[j], states[k], h);
    }
  }

  /** In every run: when ScaleDown, Stop or the clean-up of a failed ScaleUp has waited for its calls of stopInstance,
    * none of the instances it removes is running any more; and unless a call gave up on it, its process is gone. */
  lemma RemovedAreStopped(states: seq<State>, steps: seq<Step>, i: nat, k: nat, removed: seq<Handle>, h: Handle)
    requires IsRun(states, steps) && Removes(states, steps, i, k, removed) && h in removed
    ensures h < |states[k].all| && states[k].all[h].state != InstanceState.Running
    ensures NotGivenUp(steps, k, h) ==> !states[k].all[h].live
  {
    var s := states[k];
    assert Follows(s, steps[k], states[k + 1]);
    RemovingGoesOn(states, steps, i, k, k, removed);
    RunLooks(states, steps, k);
    RunIsSound(states, steps, k);
    RunStopsOnly(states, steps, k);
    if steps[k].o == CleanupDone { CleanupReaches(states, steps, i, k, h); }
    assert h in s.stops ==> Looked(s, h);
    if NotGivenUp(steps, k, h) { RunAttends(states, steps, k, h); }
  }

  // ----- no other instance is stopped

  /** In the step neither this instance is stopped nor, if it is new, born stopped. */
  predicate Spared(s: State, t: State, h: Handle) {
    |s.all| <= |t.all| && (h < |t.all| ==> (t.all[h].allowRestart <==> h >= |s.all| || s.all[h].allowRestart))
  }

  lemma SparedByOperate(s: State, o: OpStep, h: Handle)
    requires OpEnabled(s, o)
    ensures Spared(s, Operated(s, o), h)
  {}

  lemma SparedByMonitor(s: State, m: MonitorStep, k: Handle, h: Handle)
    requires MonitorEnabled(s, m, k)
    ensures Spared(s, Monitored(s, m, k), h)
  {
    AllGrows(s, m, k);
    if h < |s.all| && h != k { MonitorLeaves(s, m, k, h); }
  }

  lemma SparedStep(s: State, step: Step, t: State, h: Handle)
    requires Follows(s, step, t) && (step.Operate? || h !in s.stops)
    ensures Spared(s, t, h)
  {
    match step
    case Operate(o) => SparedByOperate(s, o, h);
    case Monitor(m, k) => SparedByMonitor(s, m, k, h);
    case _ =>
  }

  lemma {:induction false} SparedUntil(states: seq<State>, steps: seq<Step>, i: nat, k: nat, h: Handle)
    requires IsRun(states, steps) && i < k < |states| && steps[i].Operate?
    requires forall x | i < x < k :: h !in states[x].stops
    ensures Spared(states[i], states[k], h)
    decreases k
  {
    var j := k - 1;
    assert Follows(states[j], steps[j], states[j + 1]);
    SparedStep(states[j], steps[j], states[k], h);
    if i < j { SparedUntil(states, steps, i, j, h); }
  }

  /** Every other instance may be restarted as before, and so may those that came up meanwhile. */
  lemma OthersAreSpared(states: seq<State>, steps: seq<Step>, i: nat, k: nat, removed: seq<Handle>, h: Handle)
    requires IsRun(states, steps) && Removes(states, steps, i, k, removed) && h !in removed
    ensures Spared(states[i], states[k], h)
  {
    forall x | i < x < k ensures h !in states[x].stops {
      RemovingGoesOn(states, steps, i, x, k, removed);
    }
    SparedUntil(states, steps, i, k, h);
  }

  // ----- a cancelled context holds restarts back

  /** The instance is not past the last look at the context that attemptRestart takes. */
  predicate HeldBack(s: State, h: Handle) {
    h < |s.all| && !s.all[h].phase.Respawning? && !s.all[h].phase.Spawned? && !s.all[h].phase.Replacing?
  }

  lemma HeldBackStep(s: State, step: Step, t: State, h: Handle)
    requires Follows(s, step, t) && s.context != Active && HeldBack(s, h)
    ensures HeldBack(t, h) && step != Monitor(Respawn, h)
  {
    match step
    case Monitor(m, k) => if h == k { OwnPhase(s, m, h); } else { OtherPhases(s, m, k, h); }
    case _ =>
  }

  lemma OwnPhase(s: State, m: MonitorStep, h: Handle)
    requires MonitorEnabled(s, m, h) && HeldBack(s, h) && s.context != Active
    ensures m != Respawn && HeldBack(Monitored(s, m, h), h)
  {}

  lemma OtherPhases(s: State, m: MonitorStep, k: Handle, h: Handle)
    requires MonitorEnabled(s, m, k) && HeldBack(s, h) && h != k
    ensures HeldBack(Monitored(s, m, k), h)
  {}

  lemma StaysCancelled(s: State, step: Step, t: State)
    requires Follows(s, step, t) && s.context != Active && !(step.Operate? && step.o.BeginStart?)
    ensures t.context != Active
  {
    match step
    case Monitor(m, k) => ContextKept(s, m, k);
    case _ =>
  }

  lemma ContextKept(s: State, m: MonitorStep, k: Handle)
    requires MonitorEnabled(s, m, k)
    ensures Monitored(s, m, k).context == s.context
  {}

  /** Step `i` is the cancellation of the context by Stop or by a Start that fails, and nobody has started since. */
  predicate CancelledFrom(steps: seq<Step>, i: nat, k: nat) {
    i < k <= |steps| && (steps[i] == Operate(StopCancel) || steps[i] == Operate(StartSpawnFails)) &&
    forall j | i < j < k :: !(steps[j].Operate? && steps[j].o.BeginStart?)
  }

  /** In every run: after Stop has cancelled the context, or a Start has failed, no instance that is not already past
    * its last look at the context is restarted before the next Start. */
  lemma {:induction false} CancelledMeansNoRestart(states: seq<State>, steps: seq<Step>, i: nat, k: nat, h: Handle)
    requires IsRun(states, steps) && CancelledFrom(steps, i, k) && HeldBack(states[i + 1], h)
    ensures states[k].context != Active && HeldBack(states[k], h)
    ensures Monitor(Respawn, h) !in steps[i..k]
  {
    assert Follows(states[k - 1], steps[k - 1], states[k]);
    if k > i + 1 {
      CancelledMeansNoRestart(states, steps, i, k - 1, h);
      HeldBackStep(states[k - 1], steps[k - 1], states[k], h);
      StaysCancelled(states[k - 1], steps[k - 1], states[k]);
      assert steps[i..k] == steps[i..k - 1] + [steps[k - 1]];
    }
  }

  // ----- a monitor that has decided is done

  /** Between the exit of its process and the end of its monitor an instance is stopped, or has failed for good. */
  predicate Decided(x: Instance) {
    x.phase.Exited? || Restarting(x.phase) ==> x.state == Stopped
  }

  predicate AllDecided(s: State) {
    forall h :: 0 <= h < |s.all| ==> Decided(s.all[h])
  }

  lemma DecidedByOperate(s: State, o: OpStep)
    requires OpEnabled(s, o) && AllDecided(s)
    ensures AllDecided(Operated(s, o))
  {}

  lemma DecidedByMonitor(s: State, m: MonitorStep, k: Handle)
    requires MonitorEnabled(s, m, k) && AllDecided(s)
    ensures AllDecided(Monitored(s, m, k))
  {}

  lemma DecidedStep(s: State, step: Step)
    requires Enabled(s, step) && AllDecided(s)
    ensures AllDecided(Do(s, step))
  {
    match step
    case Operate(o) => DecidedByOperate(s, o);
    case Monitor(m, k) => DecidedByMonitor(s, m, k);
    case _ =>
  }

  lemma {:induction false} RunDecides(states: seq<State>, steps: seq<Step>, k: nat)
    requires IsRun(states, steps) && k < |states|
    ensures AllDecided(states[k])
  {
    if k > 0 {
      RunDecides(states, steps, k - 1);
      assert Follows(states[k - 1], steps[k - 1], states[k]);
      DecidedStep(states[k - 1], steps[k - 1]);
    }
  }

  predicate Over(s: State, h: Handle, state: InstanceState) {
    && h < |s.all| && s.all[h].state == state && (state == Stopped || state == InstanceState.Ended)
    && (s.all[h].phase.Returning? || s.all[h].phase.Closed? || s.all[h].phase.Gone?)
  }

  lemma OverStep(s: State, step: Step, t: State, h: Handle, state: InstanceState)
    requires Follows(s, step, t) && AllLinked(s) && Over(s, h, state)
    ensures Over(t, h, state)
  {
    match step
    case Monitor(m, k) => if k != h { OverByOthers(s, m, k, h, state); }
    case _ =>
  }

  lemma OverByOthers(s: State, m: MonitorStep, k: Handle, h: Handle, state: InstanceState)
    requires MonitorEnabled(s, m, k) && AllLinked(s) && Over(s, h, state) && k != h
    ensures Over(Monitored(s, m, k), h, state)
  {
    MonitorLeaves(s, m, k, h);
    assert Linked(s, k);
  }

  lemma OverNext(states: seq<State>, steps: seq<Step>, k: nat, h: Handle, state: InstanceState)
    requires IsRun(states, steps) && k < |steps| && Over(states[k], h, state)
    ensures Over(states[k + 1], h, state)
  {
    RunKeepsInv(states, steps, k);
    assert Follows(states[k], steps[k], states[k + 1]);
    OverStep(states[k], steps[k], states[k + 1], h, state);
  }

  lemma {:induction false} StaysOver(states: seq<State>, steps: seq<Step>, i: nat, k: nat, h: Handle,
                                     state: InstanceState)
    requires IsRun(states, steps) && i <= k < |states| && Over(states[i], h, state)
    ensures Over(states[k], h, state)
    decreases k
  {
    if i < k {
      StaysOver(states, steps, i, k - 1, h, state);
      OverNext(states, steps, k - 1, h, state);
    }
  }

  /** The answer of the monitor is final: no restart. */
  predicate IsFinal(m: MonitorStep, context: Context) {
    m == FinishOneshot || m == Decide(false) || m == BackoffCancelled || m == RespawnFails ||
    (m == CheckContext && context != Active)
  }

  /** It counts as a failure, or as the completion of a oneshot. */
  predicate IsEnd(m: MonitorStep, context: Context) {
    m == FinishOneshot || m == RespawnFails || (m == CheckContext && context == NoContext)
  }

  /** In every run: a oneshot that has ended, a process that is not to be restarted, a backoff that was cancelled, a
    * context that is no longer active, and a restart that failed are final. The monitor never restarts that instance
    * again, and its state stays what it is then: ended after a oneshot or a failure, stopped otherwise. */
  lemma MonitorIsOver(states: seq<State>, steps: seq<Step>, j: nat, k: nat, m: MonitorStep, h: Handle)
    requires IsRun(states, steps) && j < k < |states| && steps[j] == Monitor(m, h)
    requires IsFinal(m, states[j].context)
    ensures h < |states[k].all| && !Restarting(states[k].all[h].phase) && !states[k].all[h].live
    ensures states[k].all[h].state == if IsEnd(m, states[j].context) then InstanceState.Ended else Stopped
  {
    var state := if IsEnd(m, states[j].context) then InstanceState.Ended else Stopped;
    assert Follows(states[j], steps[j], states[j + 1]);
    RunDecides(states, steps, j);
    assert Decided(states[j].all[h]);
    assert Over(states[j + 1], h, state);
    StaysOver(states, steps, j + 1, k, h, state);
    RunKeepsInv(states, steps, k);
    assert Good(states[k].all[h]);
  }
}
