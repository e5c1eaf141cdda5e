/** Runs of the supervisor that show what the theorems on strays and on numbering are about. */
module SupervisorExamples {
  import opened SupervisorMachine
  import opened SupervisorScale

  /** The end of some run. */
  ghost predicate Reachable(s: State) {
    exists states, steps :: IsRun(states, steps) && states[|steps|] == s
  }

  lemma Starts()
    ensures Reachable(Initial())
  {
    assert IsRun([Initial()], []);
  }

  lemma Extends(s: State, step: Step)
    requires Reachable(s) && Enabled(s, step)
    ensures Reachable(Do(s, step))
  {
    var states, steps :| IsRun(states, steps) && states[|steps|] == s;
    var longer, more := states + [Do(s, step)], steps + [step];
    forall k | 0 <= k < |more| ensures Follows(longer[k], more[k], longer[k + 1]) {
      if k < |steps| { assert Follows(states[k], steps[k], states[k + 1]); }
    }
    assert IsRun(longer, more);
  }

  function Fallen(id: nat, p: Phase): Instance {
    Instance(id, false, Stopped, true, p, false)
  }

  /** After a start with two instances, both are counted and listed. */
  lemma TwoStarted() returns (s: State)
    ensures Reachable(s)
    ensures s == State(
      [Fresh(0, ByOperation).(phase := Waiting), Fresh(1, ByOperation).(phase := Waiting)],
      [0, 1], Active, 2, 0, Idle, map[])
  {
    Starts();
    var x0 := Fresh(0, ByOperation);
    var x1 := Fresh(1, ByOperation);
    var w0, w1 := x0.(phase := Waiting), x1.(phase := Waiting);
    s := Initial();
    Extends(s, Operate(BeginStart(2)));
    s := State([], [], Active, 0, 0, Starting(2, 0), map[]);
    Extends(s, Operate(StartSpawn));
    s := State([x0], [], Active, 0, 0, StartSpawned(2, 0, 0), map[]);
    Extends(s, Operate(StartAdd));
    assert [x0][0 := w0] == [w0] && [] + [0] == [0];
    s := State([w0], [0], Active, 1, 0, Starting(2, 1), map[]);
    Extends(s, Operate(StartSpawn));
    assert [w0] + [x1] == [w0, x1];
    s := State([w0, x1], [0], Active, 1, 0, StartSpawned(2, 1, 1), map[]);
    Extends(s, Operate(StartAdd));
    assert [w0, x1][1 := w1] == [w0, w1] && [0] + [1] == [0, 1];
    s := State([w0, w1], [0, 1], Active, 2, 0, Starting(2, 2), map[]);
    Extends(s, Operate(StartDone));
    s := State([w0, w1], [0, 1], Active, 2, 0, Idle, map[]);
  }

  /** A Start whose scale is zero still starts its helper, and that is counted. */
  lemma HelperStarted() returns (s: State)
    ensures Reachable(s) && s == State([], [], Active, 1, 1, Idle, map[])
  {
    Starts();
    s := Initial();
    Extends(s, Operate(BeginStart(0)));
    s := s.(op := Starting(0, 0), context := Active);
    Extends(s, Operate(StartHelper));
    s := s.(helpers := 1, wait := 1);
    Extends(s, Operate(StartDone));
    s := s.(op := Idle);
  }

  /** Instance 1 crashes and its monitor sits out the backoff. */
  lemma InBackoff() returns (s: State)
    ensures Reachable(s)
    ensures s == State(
      [Fresh(0, ByOperation).(phase := Waiting), Fallen(1, Respawning)], [0, 1], Active, 2, 0, Idle, map[])
  {
    s := TwoStarted();
    var w0, w1 := s.all[0], s.all[1];
    Extends(s, Monitor(ProcessExits, 1));
    s := s.(all := [w0, w1.(live := false)]);
    Extends(s, Monitor(Reap, 1));
    s := s.(all := [w0, Fallen(1, Exited)]);
    Extends(s, Monitor(Decide(true), 1));
    s := s.(all := [w0, Fallen(1, Backoff)]);
    Extends(s, Monitor(BackoffOver, 1));
    s := s.(all := [w0, Fallen(1, Checking)]);
    Extends(s, Monitor(CheckContext, 1));
    s := s.(all := [w0, Fallen(1, Respawning)]);
  }

  /** Scaling down to one instance passes instance 1 by: it is not running. */
  lemma PassedBy() returns (s: State)
    ensures Reachable(s)
    ensures s == State(
      [Fresh(0, ByOperation).(phase := Waiting), Fallen(1, Respawning)], [0], Active, 2, 0, Idle, map[])
  {
    s := InBackoff();
    Extends(s, Operate(BeginScaleDown(1)));
    assert [0, 1][1..] == [1] && EnterAll([1]) == map[1 := Entered];
    s := s.(op := ScalingDown(1), stops := map[1 := Entered]);
    Extends(s, StopInstance(Look, 1));
    s := s.(stops := map[1 := Returned]);
    Extends(s, Operate(DownDone));
    assert [0, 1][..1] == [0];
    s := s.(list := [0], stops := map[], op := Idle);
  }

  /** Not every live process is in the list: the instance that was passed by comes back. */
  lemma LiveOutsideTheList() returns (s: State, h: Handle)
    ensures Reachable(s) && s.op == Idle
    ensures h < |s.all| && s.all[h].live && s.all[h].phase == Waiting && h !in s.list
  {
    s := PassedBy();
    var w0 := s.all[0];
    var x2 := Fresh(1, ByMonitor(1));
    Extends(s, Monitor(Respawn, 1));
    assert s.all[1 := Fallen(1, Spawned(2))] + [x2] == [w0, Fallen(1, Spawned(2)), x2];
    s := s.(all := [w0, Fallen(1, Spawned(2)), x2]);
    Extends(s, Monitor(AddChild, 1));
    assert s.all[1 := Fallen(1, Replacing(2))][2 := x2.(phase := Waiting)]
        == [w0, Fallen(1, Replacing(2)), x2.(phase := Waiting)];
    s := s.(all := [w0, Fallen(1, Replacing(2)), x2.(phase := Waiting)], wait := 3);
    h := 2;
  }

  /** A second Start on a list that is not empty numbers its instances from zero again. */
  lemma SecondStartRenumbers() returns (s: State)
    ensures Reachable(s) && !NumberedFrom(s.all, s.list, 0)
  {
    s := TwoStarted();
    var w0, w1 := s.all[0], s.all[1];
    var x2 := Fresh(0, ByOperation);
    Extends(s, Operate(BeginStart(1)));
    s := s.(op := Starting(1, 0));
    Extends(s, Operate(StartSpawn));
    assert [w0, w1] + [x2] == [w0, w1, x2];
    s := s.(all := [w0, w1, x2], op := StartSpawned(1, 0, 2));
    Extends(s, Operate(StartAdd));
    assert [w0, w1, x2][2 := x2.(phase := Waiting)] == [w0, w1, x2.(phase := Waiting)];
    assert [0, 1] + [2] == [0, 1, 2];
    s := s.(all := [w0, w1, x2.(phase := Waiting)], list := [0, 1, 2], op := Starting(1, 1), wait := 3);
    assert s.list[2] == 2 && s.all[2].id == 0;
  }

  /** After that a new instance 1 is scaled up. */
  lemma ScaledUpAgain() returns (s: State)
    ensures Reachable(s) && s.op == Idle && s.list == [0, 2] && |s.all| == 3
    ensures s.all[0].id == 0 && s.all[1] == Fallen(1, Respawning)
    ensures s.all[2] == Fresh(1, ByOperation).(phase := Waiting)
  {
    s := PassedBy();
    var w0, gone := s.all[0], s.all[1];
    var x2 := Fresh(1, ByOperation);
    var w2 := x2.(phase := Waiting);
    Extends(s, Operate(BeginScaleUp(2)));
    s := s.(op := ScalingUp(2, 1, []));
    Extends(s, Operate(UpSpawn));
    assert s.all + [x2] == [w0, gone, x2];
    s := s.(all := [w0, gone, x2], op := UpSpawned(2, 1, [], 2));
    Extends(s, Operate(UpAdd));
    assert s.all[2 := w2] == [w0, gone, w2] && [] + [2] == [2];
    s := s.(all := [w0, gone, w2], wait := 3, op := ScalingUp(2, 1, [2]));
    Extends(s, Operate(UpDone));
    assert [0] + [2] == [0, 2];
    s := s.(list := [0, 2], op := Idle);
  }

  /** And then the old monitor comes back and puts its new instance into the place of another live one. */
  lemma Displaced() returns (s: State, h: Handle)
    ensures Reachable(s) && s.op == Idle
    ensures h < |s.all| && s.all[h].live && s.all[h].phase == Waiting && h !in s.list
  {
    s := ScaledUpAgain();
    var all: seq<Instance>;
    s, all := Recovers(s, 1);
    ReplacesSecond(all, 1, 3);
    h := 2;
  }

  /** A monitor that is about to restart its instance does so, and replaces it in the list if it can. */
  lemma Recovers(s: State, m: Handle) returns (t: State, all: seq<Instance>)
    requires Reachable(s) && m < |s.all| && s.all[m].phase == Respawning && !ListLocked(s)
    ensures Reachable(t) && t.op == s.op && |t.all| == |s.all| + 1
    ensures forall h :: 0 <= h < |s.all| && h != m ==> t.all[h] == s.all[h]
    ensures t.all[m] == s.all[m].(phase := Returning)
    ensures t.all[|s.all|] == Fresh(s.all[m].id, ByMonitor(m)).(phase := Waiting)
    ensures |all| == |t.all| && forall h :: 0 <= h < |all| ==> all[h].id == t.all[h].id
    ensures t.list == Replaced(all, s.list, s.all[m].id, |s.all|)
  {
    Extends(s, Monitor(Respawn, m));
    var t1 := Do(s, Monitor(Respawn, m));
    Extends(t1, Monitor(AddChild, m));
    var t2 := Do(t1, Monitor(AddChild, m));
    Extends(t2, Monitor(Replace, m));
    t := Do(t2, Monitor(Replace, m));
    all := t2.all;
  }

  lemma ReplacesSecond(all: seq<Instance>, id: nat, child: Handle)
    requires |all| > 2 && all[0].id != id && all[2].id == id
    ensures Replaced(all, [0, 2], id, child) == [0, child]
  {
    assert Replaced(all, [2], id, child) == [child] && [0, 2][1..] == [2];
  }

  /** An instance that ScaleUp has started, but not yet listed, crashes and is restarted: the restart finds no place for
      the new instance. */
  lemma Missed() returns (s: State, h: Handle)
    ensures Reachable(s) && s.op == ScalingUp(1, 0, [0]) && s.list == []
    ensures h < |s.all| && s.all[h].live && s.all[h].phase == Waiting && h !in s.op.added
    ensures s.all[0].phase == Returning
  {
    Starts();
    var x0 := Fresh(0, ByOperation);
    var w0 := x0.(phase := Waiting);
    s := Initial();
    Extends(s, Operate(BeginStart(0)));
    s := s.(op := Starting(0, 0), context := Active);
    Extends(s, Operate(StartDone));
    s := s.(op := Idle);
    Extends(s, Operate(BeginScaleUp(1)));
    s := s.(op := ScalingUp(1, 0, []));
    Extends(s, Operate(UpSpawn));
    assert [] + [x0] == [x0];
    s := s.(all := [x0], op := UpSpawned(1, 0, [], 0));
    Extends(s, Operate(UpAdd));
    assert [x0][0 := w0] == [w0] && [] + [0] == [0];
    s := s.(all := [w0], wait := 1, op := ScalingUp(1, 0, [0]));
    s := Crash(s);
    h := 1;
  }

  lemma Crash(s: State) returns (t: State)
    requires s == State([Fresh(0, ByOperation).(phase := Waiting)], [], Active, 1, 0, ScalingUp(1, 0, [0]), map[])
    requires Reachable(s)
    ensures Reachable(t) && t.op == s.op && t.list == [] && |t.all| == 2
    ensures t.all[0].phase == Returning && t.all[1] == Fresh(0, ByMonitor(0)).(phase := Waiting)
  {
    var w0 := s.all[0];
    Extends(s, Monitor(ProcessExits, 0));
    t := s.(all := [w0.(live := false)]);
    Extends(t, Monitor(Reap, 0));
    t := s.(all := [Fallen(0, Exited)]);
    Extends(t, Monitor(Decide(true), 0));
    t := s.(all := [Fallen(0, Backoff)]);
    Extends(t, Monitor(BackoffOver, 0));
    t := s.(all := [Fallen(0, Checking)]);
    Extends(t, Monitor(CheckContext, 0));
    t := s.(all := [Fallen(0, Respawning)]);
    var all: seq<Instance>;
    t, all := Recovers(t, 0);
  }
}
