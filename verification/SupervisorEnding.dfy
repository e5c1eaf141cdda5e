/** A Stop can always end well: in every run, whatever the monitors are doing when it is called, it can wait for all of
  * them and leave nothing behind, without giving up on an instance and without its timeout. */
module SupervisorEnding {
  import opened SupervisorMachine
  import opened SupervisorSafety
  import opened SupervisorScale
  import opened SupervisorStrays
  import opened SupervisorRevival

  /** How much the monitor of an instance still has to do if it does not restart the instance. */
  function Work(x: Instance): nat {
    (if x.live then 1 else 0) +
    match x.phase
    case Unborn(_) => 6
    case Waiting => 5
    case Exited => 4
    case Backoff => 3
    case Checking => 3
    case Respawning => 3
    case Spawned(_) => 5
    case Replacing(_) => 3
    case Returning => 2
    case Closed => 1
    case Gone => 0
  }

  function AllWork(all: seq<Instance>): nat {
    if all == [] then 0 else AllWork(all[..|all| - 1]) + Work(all[|all| - 1])
  }

  lemma {:induction false} WorkPut(all: seq<Instance>, h: Handle, x: Instance)
    requires h < |all|
    ensures AllWork(all[h := x]) == AllWork(all) - Work(all[h]) + Work(x)
  {
    var n := |all| - 1;
    if h < n {
      WorkPut(all[..n], h, x);
      assert all[h := x][..n] == all[..n][h := x];
    } else {
      assert all[h := x][..n] == all[..n];
    }
  }

  /** What a monitor does next if its instance is not to be restarted; an instance that is not yet counted waits for the
    * monitor that has started it. */
  function Winding(s: State, h: Handle): (MonitorStep, Handle)
    requires h < |s.all|
  {
    var x := s.all[h];
    match x.phase
    case Unborn(owner) => (AddChild, if owner.ByMonitor? then owner.parent else h)
    case Waiting => (if x.live then ProcessExits else Reap, h)
    case Exited => (Decide(false), h)
    case Backoff => (BackoffCancelled, h)
    case Checking => (CheckContext, h)
    case Respawning => (RespawnFails, h)
    case Spawned(_) => (AddChild, h)
    case Replacing(_) => (Replace, h)
    case Returning => (CloseDone, h)
    case Closed => (Leave, h)
    case Gone => (Leave, h)
  }

  lemma AddChildWinds(s: State, k: Handle)
    requires AllLinked(s) && MonitorEnabled(s, AddChild, k)
    ensures AllWork(Monitored(s, AddChild, k).all) < AllWork(s.all)
  {
    assert Linked(s, k);
    var child := s.all[k].phase.child;
    var moved := s.all[k := s.all[k].(phase := Replacing(child))];
    WorkPut(s.all, k, moved[k]);
    WorkPut(moved, child, moved[child].(phase := Waiting));
  }

  lemma WaitingWinds(s: State, h: Handle)
    requires h < |s.all| && s.all[h].phase.Waiting?
    ensures MonitorEnabled(s, Winding(s, h).0, h) && Winding(s, h).1 == h
    ensures AllWork(Monitored(s, Winding(s, h).0, h).all) < AllWork(s.all)
  {
    WorkPut(s.all, h, Monitored(s, Winding(s, h).0, h).all[h]);
  }

  lemma DecidingWinds(s: State, h: Handle)
    requires h < |s.all| && s.context != Active
    requires var p := s.all[h].phase; p.Exited? || p.Backoff? || p.Checking? || p.Respawning?
    ensures MonitorEnabled(s, Winding(s, h).0, h) && Winding(s, h).1 == h
    ensures AllWork(Monitored(s, Winding(s, h).0, h).all) < AllWork(s.all)
  {
    WorkPut(s.all, h, Monitored(s, Winding(s, h).0, h).all[h]);
  }

  lemma ExitedWinds(s: State, h: Handle)
    requires h < |s.all| && s.all[h].phase.Exited?
    ensures MonitorEnabled(s, Winding(s, h).0, h) && Winding(s, h).1 == h
    ensures AllWork(Monitored(s, Winding(s, h).0, h).all) < AllWork(s.all)
  {
    WorkPut(s.all, h, Monitored(s, Winding(s, h).0, h).all[h]);
  }

  lemma LeavingWinds(s: State, h: Handle)
    requires h < |s.all| && !ListLocked(s)
    requires var p := s.all[h].phase; p.Replacing? || p.Returning? || p.Closed?
    ensures MonitorEnabled(s, Winding(s, h).0, h) && Winding(s, h).1 == h
    ensures AllWork(Monitored(s, Winding(s, h).0, h).all) < AllWork(s.all)
  {
    WorkPut(s.all, h, Monitored(s, Winding(s, h).0, h).all[h]);
  }

  lemma Winds(s: State, h: Handle)
    requires AllLinked(s) && h < |s.all| && !s.all[h].phase.Gone? && s.context != Active
    requires !ListLocked(s) && !s.op.UpSpawned?
    ensures var (m, k) := Winding(s, h);
            MonitorEnabled(s, m, k) && AllWork(Monitored(s, m, k).all) < AllWork(s.all)
  {
    assert Linked(s, h);
    if s.all[h].phase.Unborn? {
      AddChildWinds(s, s.all[h].phase.owner.parent);
    } else if s.all[h].phase.Spawned? {
      AddChildWinds(s, h);
    } else if s.all[h].phase.Waiting? {
      WaitingWinds(s, h);
    } else if s.all[h].phase.Replacing? || s.all[h].phase.Returning? || s.all[h].phase.Closed? {
      LeavingWinds(s, h);
    } else {
      DecidingWinds(s, h);
    }
  }

  /** The monitor of an instance that was stopped winds up whatever the context is. */
  lemma StoppedWinds(s: State, h: Handle)
    requires AllGood(s.all) && AllLinked(s) && h < |s.all| && s.all[h].stopSeen && !s.all[h].phase.Gone?
    requires !ListLocked(s) && !s.op.UpSpawned?
    ensures var (m, k) := Winding(s, h);
            MonitorEnabled(s, m, k) && AllWork(Monitored(s, m, k).all) < AllWork(s.all)
  {
    assert Linked(s, h) && Good(s.all[h]);
    if s.all[h].phase.Unborn? {
      AddChildWinds(s, s.all[h].phase.owner.parent);
    } else if s.all[h].phase.Waiting? {
      WaitingWinds(s, h);
    } else if s.all[h].phase.Exited? {
      ExitedWinds(s, h);
    } else {
      LeavingWinds(s, h);
    }
  }

  // ----- continuations in which nobody gives up

  predicate Patient(step: Step) {
    step != Operate(StopTimeout) && !(step.StopInstance? && step.c == GivesUp)
  }

  /** `u` can be reached from `s` without giving up and without a timeout. */
  ghost predicate LeadsPatiently(s: State, u: State) {
    exists states, steps :: PatientPath(states, steps, s) && states[|steps|] == u
  }

  predicate PatientPath(states: seq<State>, steps: seq<Step>, s: State) {
    IsPath(states, steps, s) && forall k :: 0 <= k < |steps| ==> Patient(steps[k])
  }

  lemma NoStep(s: State)
    ensures LeadsPatiently(s, s)
  {
    assert PatientPath([s], [], s);
  }

  lemma OneStep(s: State, step: Step, u: State)
    requires Enabled(s, step) && Patient(step) && LeadsPatiently(Do(s, step), u)
    ensures LeadsPatiently(s, u)
  {
    var states, steps :| PatientPath(states, steps, Do(s, step)) && states[|steps|] == u;
    var longer, more := [s] + states, [step] + steps;
    forall k | 0 <= k < |more| ensures Follows(longer[k], more[k], longer[k + 1]) && Patient(more[k]) {
      if k > 0 { assert Follows(states[k - 1], steps[k - 1], states[k]); }
    }
    assert PatientPath(longer, more, s);
  }

  // ----- the Stop

  /** A Stop is under way that has not timed out, and the context is no longer active. */
  predicate Halting(s: State) {
    s.op == StopCancelling ||
    ((s.op == StopJoining || s.op.StopWaiting? || s.op == StopEnding(true)) && s.context != Active)
  }

  ghost predicate Ready(s: State) {
    Sound(s) && Inv(s) && Halting(s)
  }

  function Stage(op: Operation): nat {
    match op
    case StopCancelling => 5
    case StopJoining => 4
    case StopWaiting(done) => if done then 2 else 3
    case StopEnding(_) => 1
    case _ => 0
  }

  /** Whatever is not an operation leaves the operation and the context as they are. */
  lemma StaysReady(s: State, step: Step)
    requires Ready(s) && Enabled(s, step) && !step.Operate?
    ensures Ready(Do(s, step)) && Do(s, step).op == s.op
  {
    SoundStep(s, step);
    InvStep(s, step);
    OthersKeepOperation(s, step);
    ContextStays(s, step);
  }

  lemma ContextStays(s: State, step: Step)
    requires Enabled(s, step) && !step.Operate?
    ensures Do(s, step).context == s.context
  {
    if step.Monitor? { MonitorFrame(s, step.m, step.h); ContextByMonitor(s, step.m, step.h); }
  }

  lemma ContextByMonitor(s: State, m: MonitorStep, h: Handle)
    requires MonitorEnabled(s, m, h)
    ensures Monitored(s, m, h).context == s.context && Monitored(s, m, h).stops == s.stops
  {}

  lemma LookAdvances(s: State, h: Handle)
    requires Ready(s) && h in s.stops && s.stops[h] == StopCall.Entered
    ensures StopEnabled(s, Look, h) && Ready(StopAdvanced(s, Look, h)) && StopAdvanced(s, Look, h).op == s.op
    ensures Unseen(StopAdvanced(s, Look, h)) < Unseen(s)
  {
    StopCallAdvances(s, h);
    StaysReady(s, StopInstance(Look, h));
    assert h in Unseen(s) && h !in Unseen(StopAdvanced(s, Look, h));
  }

  lemma WindAdvances(s: State, h: Handle)
    requires Ready(s) && s.op != StopCancelling && h < |s.all| && !s.all[h].phase.Gone?
    ensures var (m, k) := Winding(s, h);
            && MonitorEnabled(s, m, k) && Ready(Monitored(s, m, k)) && Monitored(s, m, k).op == s.op
            && Unseen(Monitored(s, m, k)) == Unseen(s) && AllWork(Monitored(s, m, k).all) < AllWork(s.all)
  {
    Winds(s, h);
    var (m, k) := Winding(s, h);
    StaysReady(s, Monitor(m, k));
    ContextByMonitor(s, m, k);
  }

  lemma ReturnAdvances(s: State, h: Handle)
    requires Ready(s) && h in s.stops && s.stops[h] == Signalled && Unseen(s) == {}
    requires forall k :: 0 <= k < |s.all| ==> s.all[k].phase.Gone?
    ensures StopEnabled(s, ReturnsStopped, h)
    ensures var t := StopAdvanced(s, ReturnsStopped, h);
            Ready(t) && t.op == s.op && Unseen(t) == Unseen(s) && t.all == s.all && Underway(t) < Underway(s)
  {
    StaysReady(s, StopInstance(ReturnsStopped, h));
    var t := StopAdvanced(s, ReturnsStopped, h);
    assert h in Underway(s) && h !in Underway(t);
    forall k | k in t.stops ensures t.stops[k] != StopCall.Entered {
      if k != h { assert k !in Unseen(s); }
    }
  }

  /** The next step of Stop itself, once nobody else has anything left to do. */
  function Last(op: Operation): OpStep {
    match op
    case StopCancelling => StopCancel
    case StopJoining => StopJoined
    case StopWaiting(done) => if done then StopLeaves else GoroutinesDone
    case _ => StopDone
  }

  lemma NothingCounted(all: seq<Instance>)
    requires forall h :: 0 <= h < |all| ==> all[h].phase.Gone?
    ensures Count(all) == 0
  {}

  lemma LastAdvances(s: State)
    requires Ready(s) && Halting(s)
    requires s.op == StopCancelling ||
      (AllReturned(s) && s.helpers == 0 && forall h :: 0 <= h < |s.all| ==> s.all[h].phase.Gone?)
    ensures OpEnabled(s, Last(s.op)) && Stage(Operated(s, Last(s.op)).op) < Stage(s.op)
    ensures Patient(Operate(Last(s.op)))
    ensures s.op != StopEnding(true) ==> Ready(Operated(s, Last(s.op)))
  {
    if s.op != StopCancelling { NothingCounted(s.all); }
    SoundStep(s, Operate(Last(s.op)));
    InvStep(s, Operate(Last(s.op)));
  }

  /** Nothing is left: no instance listed, no process, no goroutine. */
  predicate Empty(u: State) {
    && u.op == Idle && u.list == [] && u.context == NoContext && u.wait == 0 && u.helpers == 0
    && forall h :: 0 <= h < |u.all| ==> u.all[h].phase.Gone? && !u.all[h].live
  }

  lemma EndsEmpty(s: State)
    requires Ready(s) && s.op == StopEnding(true)
    ensures OpEnabled(s, StopDone) && Empty(Operated(s, StopDone))
  {
    NothingLeft(s);
  }

  lemma {:induction false} EndsWell(s: State) returns (u: State)
    requires Ready(s)
    ensures LeadsPatiently(s, u) && Empty(u)
    decreases Stage(s.op), Unseen(s), AllWork(s.all), Underway(s), s.helpers
  {
    if h: Handle :| s.op != StopCancelling && h in s.stops && s.stops[h] == StopCall.Entered {
      LookAdvances(s, h);
      u := EndsWell(StopAdvanced(s, Look, h));
      OneStep(s, StopInstance(Look, h), u);
    } else if h: Handle :| s.op != StopCancelling && h < |s.all| && !s.all[h].phase.Gone? {
      WindAdvances(s, h);
      var (m, k) := Winding(s, h);
      u := EndsWell(Monitored(s, m, k));
      OneStep(s, Monitor(m, k), u);
    } else if h: Handle :| s.op != StopCancelling && h in s.stops && s.stops[h] == Signalled {
      ReturnAdvances(s, h);
      u := EndsWell(StopAdvanced(s, ReturnsStopped, h));
      OneStep(s, StopInstance(ReturnsStopped, h), u);
    } else if s.op != StopCancelling && s.helpers > 0 {
      StaysReady(s, HelperLeaves);
      u := EndsWell(Do(s, HelperLeaves));
      OneStep(s, HelperLeaves, u);
    } else {
      LastAdvances(s);
      if s.op == StopEnding(true) {
        EndsEmpty(s);
        u := Operated(s, StopDone);
        NoStep(u);
      } else {
        u := EndsWell(Operated(s, Last(s.op)));
      }
      OneStep(s, Operate(Last(s.op)), u);
    }
  }

  /** In every run, between operations: a Stop can end well, with no call giving up on an instance and without its
    * timeout, and then nothing is left. */
  lemma StopCanEndWell(states: seq<State>, steps: seq<Step>, k: nat) returns (u: State)
    requires IsRun(states, steps) && k < |states| && states[k].op == Idle
    ensures Enabled(states[k], Operate(BeginStop)) && LeadsPatiently(Do(states[k], Operate(BeginStop)), u) && Empty(u)
  {
    var s := Do(states[k], Operate(BeginStop));
    RunIsSound(states, steps, k);
    RunKeepsInv(states, steps, k);
    SoundStep(states[k], Operate(BeginStop));
    InvStep(states[k], Operate(BeginStop));
    u := EndsWell(s);
  }
}
