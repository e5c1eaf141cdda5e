/** What a scheduled job does, beyond what it never does: who is turned away, that an idle job executes when it is
  * called, what an execution leaves in the history, and that only a panic can stop a job for good. */
module JobProgress {
  import opened Results
  import opened JobHistory
  import opened ScheduledJob

  // ----- who is turned away

  lemma RefusedStep(s: State, step: Step, next: State, t: Tid)
    requires Follows(s, step, next)
    ensures At(s, t) ==> At(next, t)
    ensures step == Check(t) ==> At(s, t) && s.callers[t] != Refused
    ensures At(next, t) && next.callers[t] == Refused <==>
      (At(s, t) && s.callers[t] == Refused) || (step == Check(t) && s.job != Idle)
  {}

  /** In every run a caller of Trigger or TriggerSync is refused exactly if the job was paused or executing when that
    * caller looked. */
  lemma {:induction false} RefusedIff(states: seq<State>, steps: seq<Step>, k: nat, t: Tid)
    requires IsRun(states, steps) && k < |states|
    ensures At(states[k], t) && states[k].callers[t] == Refused <==>
      exists j :: 0 <= j < k && steps[j] == Check(t) && (states[j].job == Paused || states[j].job == Executing)
  {
    if k > 0 {
      RefusedIff(states, steps, k - 1, t);
      assert Follows(states[k - 1], steps[k - 1], states[k]);
      RefusedStep(states[k - 1], steps[k - 1], states[k], t);
    }
  }

  // ----- runs that go on

  /** `u` is where a run ends up that goes on from `s` by these steps. */
  predicate Goes(s: State, steps: seq<Step>, u: State)
    decreases |steps|
  {
    if steps == [] then s == u else Enabled(s, steps[0]) && Goes(Do(s, steps[0]), steps[1..], u)
  }

  lemma {:induction false} GoesOn(s: State, some: seq<Step>, t: State, more: seq<Step>, u: State)
    requires Goes(s, some, t) && Goes(t, more, u)
    ensures Goes(s, some + more, u)
    decreases |some|
  {
    if some == [] {
      assert some + more == more;
    } else {
      GoesOn(Do(s, some[0]), some[1..], t, more, u);
      assert (some + more)[1..] == some[1..] + more;
    }
  }

  lemma GoesBy(s: State, step: Step, more: seq<Step>, u: State)
    requires Enabled(s, step) && Goes(Do(s, step), more, u)
    ensures Goes(s, [step] + more, u)
  {
    assert ([step] + more)[1..] == more;
  }

  /** Such a continuation of a run is a run. */
  lemma {:induction false} RunGoesOn(states: seq<State>, steps: seq<Step>, more: seq<Step>, u: State)
      returns (longer: seq<State>)
    requires IsRun(states, steps) && Goes(states[|steps|], more, u)
    ensures IsRun(longer, steps + more) && states <= longer && longer[|steps + more|] == u
    decreases |more|
  {
    if more == [] {
      longer := states;
      assert steps + more == steps;
    } else {
      var s, step := states[|steps|], more[0];
      var next, done := states + [Do(s, step)], steps + [step];
      forall k | 0 <= k < |done| ensures Follows(next[k], done[k], next[k + 1]) {
        if k < |steps| { assert Follows(states[k], steps[k], states[k + 1]); }
      }
      longer := RunGoesOn(next, done, more[1..], u);
      assert done + more[1..] == steps + more;
    }
  }

  // ----- an idle job executes when it is called

  function Called(manual: bool, t: Tid, now: int): seq<Step> {
    if manual then [CallTrigger, Check(t), Lock(t), Begin(t, now)] else [CallRun, Lock(t), Begin(t, now)]
  }

  function Trigger(manual: bool): string {
    if manual then "manual" else "schedule"
  }

  /** The caller `t` executes the job, and the newest entry of the history is open and tells who asked for it. */
  predicate Executes(u: State, t: Tid, id: int, now: int, triggered: string) {
    && u.job == Executing && u.currentExecID == id && u.lastRun == now && u.executionMu == Some(t)
    && At(u, t) && u.callers[t] == Caller.Running(id)
    && u.history.nextID == id + 1
    && Recent(u.history, 1) == [Entry(id, now, None, 0, false, "", triggered)]
  }

  lemma WaitsForLock(s: State, manual: bool) returns (u: State, steps: seq<Step>)
    requires s.job == Idle
    ensures steps == if manual then [CallTrigger, Check(|s.callers|)] else [CallRun]
    ensures Goes(s, steps, u) && u == s.(callers := s.callers + [WantsLock(Trigger(manual))])
  {
    if manual {
      var t1 := Do(s, CallTrigger);
      u := Do(t1, Check(|s.callers|));
      steps := [CallTrigger] + [Check(|s.callers|)];
      assert Goes(u, [], u);
      GoesBy(t1, Check(|s.callers|), [], u);
      GoesBy(s, CallTrigger, [Check(|s.callers|)], u);
    } else {
      u := Do(s, CallRun);
      steps := [CallRun];
      assert Goes(u, [], u);
      GoesBy(s, CallRun, [], u);
    }
  }

  lemma TakesLock(s: State, t: Tid, now: int) returns (u: State)
    requires s.job == Idle && s.executionMu == None && Valid(s.history)
    requires At(s, t) && s.callers[t].WantsLock?
    ensures Goes(s, [Lock(t), Begin(t, now)], u)
    ensures Executes(u, t, s.history.nextID, now, s.callers[t].triggered)
    ensures u.callers == s.callers[t := Caller.Running(s.history.nextID)]
    ensures u == s.(job := Executing, currentExecID := s.history.nextID, lastRun := now, executionMu := Some(t),
                    callers := u.callers, history := Start(s.history, s.callers[t].triggered, now))
  {
    var t1 := Do(s, Lock(t));
    u := Do(t1, Begin(t, now));
    assert Goes(u, [], u);
    GoesBy(t1, Begin(t, now), [], u);
    GoesBy(s, Lock(t), [Begin(t, now)], u);
    StartIsValid(s.history, s.callers[t].triggered, now);
    assert [Lock(t)] + [Begin(t, now)] == [Lock(t), Begin(t, now)];
  }

  /** In every run: when the job is idle and nobody holds executionMu, a new call gets through to an execution, whether
    * it comes from the schedule or by hand. */
  lemma IdleJobExecutes(states: seq<State>, steps: seq<Step>, manual: bool, now: int)
      returns (longer: seq<State>, u: State)
    requires IsRun(states, steps) && states[|steps|].job == Idle && states[|steps|].executionMu == None
    ensures var t := |states[|steps|].callers|;
            && IsRun(longer, steps + Called(manual, t, now)) && states <= longer
            && u == longer[|steps + Called(manual, t, now)|]
            && Executes(u, t, states[|steps|].history.nextID, now, if manual then "manual" else "schedule")
  {
    var s := states[|steps|];
    var t := |s.callers|;
    RunKeepsInv(states, steps, |steps|);
    HistoryValid(s);
    var waiting, calls := WaitsForLock(s, manual);
    u := TakesLock(waiting, t, now);
    GoesOn(s, calls, waiting, [Lock(t), Begin(t, now)], u);
    assert calls + [Lock(t), Begin(t, now)] == Called(manual, t, now);
    longer := RunGoesOn(states, steps, Called(manual, t, now), u);
  }

  lemma HistoryValid(s: State)
    requires Inv(s)
    ensures Valid(s.history)
  {}

  // ----- what an execution leaves behind

  function Finished(t: Tid, o: Outcome): seq<Step> {
    [Complete(t, o), GoIdle(t), Record(t), Read(t), Unlock(t)]
  }

  lemma EndsRecording(s: State, t: Tid) returns (u: State)
    requires At(s, t) && s.callers[t].Recording?
    ensures Goes(s, [Record(t), Read(t), Unlock(t)], u)
    ensures u == s.(callers := s.callers[t := Left], executionMu := None,
                    history := End(s.history, s.callers[t].execID, s.callers[t].o))
  {
    var t3 := Do(s, Record(t));
    var t4 := Do(t3, Read(t));
    u := Do(t4, Unlock(t));
    assert Goes(u, [], u);
    GoesBy(t4, Unlock(t), [], u);
    GoesBy(t3, Read(t), [Unlock(t)], u);
    GoesBy(s, Record(t), [Read(t), Unlock(t)], u);
    assert [Record(t)] + [Read(t), Unlock(t)] == [Record(t), Read(t), Unlock(t)];
  }

  lemma EndsExecution(s: State, t: Tid, o: Outcome) returns (u: State)
    requires At(s, t) && s.callers[t].Running?
    ensures Goes(s, Finished(t, o), u)
    ensures u == s.(job := Idle, currentExecID := 0, callers := s.callers[t := Left], executionMu := None,
                    history := End(s.history, s.callers[t].execID, o))
  {
    var t1 := Do(s, Complete(t, o));
    var t2 := Do(t1, GoIdle(t));
    u := EndsRecording(t2, t);
    GoesBy(t1, GoIdle(t), [Record(t), Read(t), Unlock(t)], u);
    GoesBy(s, Complete(t, o), [GoIdle(t), Record(t), Read(t), Unlock(t)], u);
    assert [Complete(t, o)] + [GoIdle(t), Record(t), Read(t), Unlock(t)] == Finished(t, o);
  }

  /** The history `g` is `h` with one more entry at its end; if it was full, the oldest entry is gone. */
  predicate OneMoreEntry(h: History, g: History, e: Entry) {
    && g.maxSize == h.maxSize && g.nextID == h.nextID + 1
    && |g.entries| == (if |h.entries| < h.maxSize then |h.entries| + 1 else h.maxSize)
    && g.entries != [] && g.entries[|g.entries| - 1] == e
    && |g.entries| <= |h.entries| + 1
    && forall i :: 0 <= i < |g.entries| - 1 ==> g.entries[i] == h.entries[|h.entries| + 1 - |g.entries| + i]
  }

  lemma OpensEntry(h: History, triggered: string, now: int)
    requires Valid(h)
    ensures OneMoreEntry(h, Start(h, triggered, now), Opened(h.nextID, now, triggered))
  {}

  lemma ClosesEntry(h: History, g: History, e: Entry, o: Outcome)
    requires Valid(h) && OneMoreEntry(h, g, e) && e.id == h.nextID
    ensures OneMoreEntry(h, End(g, e.id, o), Close(e, o))
  {
    forall i | 0 <= i < |g.entries| - 1 ensures g.entries[i].id != e.id {
      assert g.entries[i] == h.entries[|h.entries| + 1 - |g.entries| + i];
    }
  }

  /** In every run: a call of an idle job that meets nobody ends with the job idle and executionMu free again, and with
    * one more entry in the history: its own, with the outcome of the executor. */
  lemma IdleJobCompletes(states: seq<State>, steps: seq<Step>, manual: bool, now: int, o: Outcome)
      returns (longer: seq<State>, u: State)
    requires IsRun(states, steps) && states[|steps|].job == Idle && states[|steps|].executionMu == None
    ensures var s, t := states[|steps|], |states[|steps|].callers|;
            var all := steps + (Called(manual, t, now) + Finished(t, o));
            && IsRun(longer, all) && states <= longer && u == longer[|all|]
            && u.job == Idle && u.currentExecID == 0 && u.executionMu == None
            && u.callers == s.callers + [Left] && u.lastRun == now
            && OneMoreEntry(s.history, u.history,
                            Entry(s.history.nextID, now, Some(o.end), o.exitCode, o.success, o.error,
                                  if manual then "manual" else "schedule"))
  {
    var s := states[|steps|];
    RunKeepsInv(states, steps, |steps|);
    HistoryValid(s);
    u := Completes(s, manual, now, o);
    longer := RunGoesOn(states, steps, Called(manual, |s.callers|, now) + Finished(|s.callers|, o), u);
  }

  lemma Completes(s: State, manual: bool, now: int, o: Outcome) returns (u: State)
    requires s.job == Idle && s.executionMu == None && Valid(s.history)
    ensures Goes(s, Called(manual, |s.callers|, now) + Finished(|s.callers|, o), u)
    ensures u == s.(currentExecID := 0, callers := s.callers + [Left], lastRun := now, history := u.history)
    ensures OneMoreEntry(s.history, u.history, Close(Opened(s.history.nextID, now, Trigger(manual)), o))
  {
    var t := |s.callers|;
    var waiting, calls := WaitsForLock(s, manual);
    var running := TakesLock(waiting, t, now);
    GoesOn(s, calls, waiting, [Lock(t), Begin(t, now)], running);
    assert calls + [Lock(t), Begin(t, now)] == Called(manual, t, now);
    u := EndsExecution(running, t, o);
    GoesOn(s, Called(manual, t, now), running, Finished(t, o), u);
    OpensEntry(s.history, Trigger(manual), now);
    ClosesEntry(s.history, running.history, Opened(s.history.nextID, now, Trigger(manual)), o);
  }

  // ----- pausing is undone by resuming

  /** In every run: the first Resume after a successful Pause makes the job idle again. */
  lemma ResumeEndsPause(states: seq<State>, steps: seq<Step>, i: nat, k: nat)
    requires IsRun(states, steps) && i < k < |steps|
    requires steps[i] == Pause && states[i].job != Executing && steps[k] == Resume
    requires forall j :: i < j < k ==> steps[j] != Resume
    ensures states[k + 1].job == Idle && states[k + 1].(job := Paused) == states[k]
  {
    StaysPaused(states, steps, i, k);
    assert Follows(states[k], steps[k], states[k + 1]);
  }

  /** And a job that does not execute can always be paused. */
  lemma CanBePaused(states: seq<State>, steps: seq<Step>) returns (longer: seq<State>)
    requires IsRun(states, steps) && states[|steps|].job != Executing
    ensures IsRun(longer, steps + [Pause]) && states <= longer
    ensures longer[|steps| + 1] == states[|steps|].(job := Paused)
  {
    var s := states[|steps|];
    var u := Do(s, Pause);
    assert Goes(u, [], u);
    GoesBy(s, Pause, [], u);
    longer := RunGoesOn(states, steps, [Pause], u);
  }

  // ----- only a panic stops a job for good

  function Rank(c: Caller): nat {
    match c
    case HasLock(_) => 6
    case Running(_) => 5
    case Finishing(_, _) => 4
    case Recording(_, _) => 3
    case Reading(_, _) => 2
    case Unlocking => 1
    case _ => 0
  }

  /** What the holder of executionMu does next. */
  function Next(c: Caller, t: Tid, now: int, o: Outcome): Step
    requires Holds(c)
  {
    match c
    case HasLock(_) => Begin(t, now)
    case Running(_) => Complete(t, o)
    case Finishing(_, _) => GoIdle(t)
    case Recording(_, _) => Record(t)
    case Reading(_, _) => Read(t)
    case Unlocking => Unlock(t)
  }

  lemma NextStep(s: State, t: Tid, now: int, o: Outcome)
    requires Inv(s) && At(s, t) && Holds(s.callers[t])
    ensures var step := Next(s.callers[t], t, now, o);
            && Enabled(s, step) && !step.Panic? && |Do(s, step).callers| == |s.callers|
            && Do(s, step).crashed == s.crashed && Rank(Do(s, step).callers[t]) < Rank(s.callers[t])
            && (Holds(Do(s, step).callers[t]) || Do(s, step).executionMu == None)
  {}

  /** Whoever holds executionMu can come to its end. */
  lemma {:induction false} Releases(s: State, t: Tid, now: int, o: Outcome) returns (u: State, more: seq<Step>)
    requires Inv(s) && At(s, t) && Holds(s.callers[t])
    ensures Goes(s, more, u) && Inv(u) && u.executionMu == None && u.crashed == s.crashed
    ensures |u.callers| == |s.callers|
    decreases Rank(s.callers[t])
  {
    var step := Next(s.callers[t], t, now, o);
    var next := Do(s, step);
    NextStep(s, t, now, o);
    InvStep(s, step);
    u, more := next, [];
    assert Goes(next, [], next);
    if Holds(next.callers[t]) { u, more := Releases(next, t, now, o); }
    GoesBy(s, step, more, u);
    more := [step] + more;
  }

  /** Some continuation leads to where a call would execute the job. */
  ghost predicate CanBecomeIdle(s: State) {
    exists more, u :: Goes(s, more, u) && u.job == Idle && u.executionMu == None
  }

  /** Without a panic, a job can always become idle with executionMu free, with no new call. */
  lemma BecomesIdle(s: State) returns (u: State, more: seq<Step>)
    requires Inv(s) && s.crashed == None
    ensures Goes(s, more, u) && u.job == Idle && u.executionMu == None && |u.callers| == |s.callers|
  {
    u, more := s, [];
    assert Goes(s, [], s);
    if s.executionMu.Some? { u, more := Releases(s, s.executionMu.value, 0, Outcome(0, 0, true, "")); }
    NotExecuting(u);
    if u.job == Paused {
      var idle := Do(u, Resume);
      assert Goes(idle, [], idle);
      GoesBy(u, Resume, [], idle);
      GoesOn(s, more, u, [Resume], idle);
      u, more := idle, more + [Resume];
    }
  }

  lemma NotExecuting(s: State)
    requires Inv(s) && s.crashed == None && s.executionMu == None
    ensures s.job != Executing
  {}

  /** In every run: the job can come to where a call executes it again, exactly if no execution has panicked. */
  lemma OnlyPanicIsFinal(states: seq<State>, steps: seq<Step>)
    requires IsRun(states, steps)
    ensures CanBecomeIdle(states[|steps|]) <==> forall j :: 0 <= j < |steps| ==> !steps[j].Panic?
  {
    var s := states[|steps|];
    CrashedIff(states, steps, |steps|);
    RunKeepsInv(states, steps, |steps|);
    if s.crashed == None {
      var u, more := BecomesIdle(s);
      assert CanBecomeIdle(s);
    } else {
      var j :| 0 <= j < |steps| && steps[j].Panic?;
      forall more, u | Goes(s, more, u) ensures u.job == Executing {
        var longer := RunGoesOn(states, steps, more, u);
        PanicIsFinal(longer, steps + more, j, |steps + more|);
      }
    }
  }
}
