/** What every run of the supervisor machine keeps. */
module SupervisorSafety {
  import opened SupervisorMachine

  // ----- each instance on its own

  predicate Early(p: Phase) {
    p.Unborn? || p.Waiting?
  }

  /** Inside attemptRestart. */
  predicate Restarting(p: Phase) {
    p.Backoff? || p.Checking? || p.Respawning? || p.Spawned? || p.Replacing?
  }

  predicate Good(x: Instance) {
    && (x.live ==> Early(x.phase))
    && (x.state == Running ==> Early(x.phase))
    && (x.stopSeen ==> !x.allowRestart && x.state != Running && !Restarting(x.phase))
  }

  predicate AllGood(all: seq<Instance>) {
    forall h :: 0 <= h < |all| ==> Good(all[h])
  }

  lemma GoodOperate(s: State, o: OpStep)
    requires AllGood(s.all) && OpEnabled(s, o)
    ensures AllGood(Operated(s, o).all)
  {}

  lemma GoodMonitor(s: State, m: MonitorStep, h: Handle)
    requires AllGood(s.all) && MonitorEnabled(s, m, h)
    ensures AllGood(Monitored(s, m, h).all)
  {}

  lemma GoodStep(s: State, step: Step)
    requires AllGood(s.all) && Enabled(s, step)
    ensures AllGood(Do(s, step).all)
  {
    match step
    case Operate(o) => GoodOperate(s, o);
    case Monitor(m, h) => GoodMonitor(s, m, h);
    case _ =>
  }

  // ----- processes whose monitor is not yet counted

  predicate OpSpawned(op: Operation, h: Handle) {
    (op.StartSpawned? || op.UpSpawned?) && op.child == h
  }

  /** An uncounted process is in the hands of the operation or of one monitor, and conversely. */
  predicate Linked(s: State, h: Handle)
    requires h < |s.all|
  {
    match s.all[h].phase
    case Unborn(ByOperation) => OpSpawned(s.op, h)
    case Unborn(ByMonitor(m)) => InPhase(s, m, Spawned(h))
    case Spawned(c) => InPhase(s, c, Unborn(ByMonitor(h)))
    case _ => true
  }

  predicate AllLinked(s: State) {
    && (forall h :: 0 <= h < |s.all| ==> Linked(s, h))
    && (s.op.StartSpawned? || s.op.UpSpawned? ==> InPhase(s, s.op.child, Unborn(ByOperation)))
  }

  lemma LinkedOperate(s: State, o: OpStep)
    requires AllLinked(s) && OpEnabled(s, o)
    ensures AllLinked(Operated(s, o))
  {
    var next := Operated(s, o);
    forall h: nat | h < |next.all| ensures Linked(next, h) {
      if h < |s.all| { assert Linked(s, h); }
    }
  }

  lemma LinkedMonitor(s: State, m: MonitorStep, h: Handle)
    requires AllLinked(s) && AllGood(s.all) && MonitorEnabled(s, m, h)
    ensures AllLinked(Monitored(s, m, h))
  {
    var next := Monitored(s, m, h);
    assert Linked(s, h);
    forall k: nat | k < |next.all| ensures Linked(next, k) {
      if k < |s.all| { assert Linked(s, k); }
    }
  }

  lemma LinkedStep(s: State, step: Step)
    requires AllLinked(s) && AllGood(s.all) && Enabled(s, step)
    ensures AllLinked(Do(s, step))
  {
    match step
    case Operate(o) => LinkedOperate(s, o);
    case Monitor(m, h) => LinkedMonitor(s, m, h);
    case _ =>
      var next := Do(s, step);
      forall k: nat | k < |next.all| ensures Linked(next, k) { assert Linked(s, k); }
  }

  // ----- the WaitGroup counts the monitors and the helpers

  predicate Counted(x: Instance) {
    !x.phase.Unborn? && !x.phase.Gone?
  }

  function One(x: Instance): nat {
    if Counted(x) then 1 else 0
  }

  function Count(all: seq<Instance>): nat {
    if all == [] then 0 else Count(all[..|all| - 1]) + One(all[|all| - 1])
  }

  lemma {:induction false} CountPut(all: seq<Instance>, h: Handle, x: Instance)
    requires h < |all|
    ensures Count(all[h := x]) == Count(all) - One(all[h]) + One(x)
  {
    var n := |all| - 1;
    if h < n {
      CountPut(all[..n], h, x);
      assert all[h := x][..n] == all[..n][h := x];
    } else {
      assert all[h := x][..n] == all[..n];
    }
  }

  lemma CountAppend(all: seq<Instance>, x: Instance)
    ensures Count(all + [x]) == Count(all) + One(x)
  {
    assert (all + [x])[..|all|] == all;
  }

  lemma {:induction false} CountZero(all: seq<Instance>, h: Handle)
    requires Count(all) == 0 && h < |all|
    ensures !Counted(all[h])
  {
    if h < |all| - 1 { CountZero(all[..|all| - 1], h); }
  }

  predicate CountOk(s: State) {
    s.wait == s.helpers + Count(s.all)
  }

  lemma CountOperate(s: State, o: OpStep)
    requires CountOk(s) && AllLinked(s) && OpEnabled(s, o)
    ensures CountOk(Operated(s, o))
  {
    match o
    case StartSpawn => CountAppend(s.all, Fresh(s.op.next, ByOperation));
    case UpSpawn => CountAppend(s.all, Fresh(s.op.base + |s.op.added|, ByOperation));
    case StartAdd => CountPut(s.all, s.op.child, s.all[s.op.child].(phase := Waiting));
    case UpAdd => CountPut(s.all, s.op.child, s.all[s.op.child].(phase := Waiting));
    case _ =>
  }

  lemma CountRespawn(s: State, h: Handle)
    requires CountOk(s) && MonitorEnabled(s, Respawn, h)
    ensures CountOk(Monitored(s, Respawn, h))
  {
    var x := s.all[h].(phase := Spawned(|s.all|));
    CountPut(s.all, h, x);
    CountAppend(s.all[h := x], Fresh(x.id, ByMonitor(h)));
  }

  lemma CountAddChild(s: State, h: Handle)
    requires CountOk(s) && AllLinked(s) && MonitorEnabled(s, AddChild, h)
    ensures CountOk(Monitored(s, AddChild, h))
  {
    assert Linked(s, h);
    var child := s.all[h].phase.child;
    var moved := s.all[h := s.all[h].(phase := Replacing(child))];
    CountPut(s.all, h, moved[h]);
    CountPut(moved, child, moved[child].(phase := Waiting));
  }

  lemma CountMonitor(s: State, m: MonitorStep, h: Handle)
    requires CountOk(s) && AllGood(s.all) && MonitorEnabled(s, m, h)
    requires m != Respawn && m != AddChild
    ensures CountOk(Monitored(s, m, h))
  {
    assert Good(s.all[h]);
    CountPut(s.all, h, Monitored(s, m, h).all[h]);
  }

  lemma CountStep(s: State, step: Step)
    requires CountOk(s) && AllLinked(s) && AllGood(s.all) && Enabled(s, step)
    ensures CountOk(Do(s, step))
  {
    match step
    case Operate(o) => CountOperate(s, o);
    case Monitor(m, h) =>
      if m == Respawn { CountRespawn(s, h); }
      else if m == AddChild { CountAddChild(s, h); }
      else { CountMonitor(s, m, h); }
    case StopInstance(c, h) =>
      if c == Look && s.all[h].state == Running { CountPut(s.all, h, Do(s, step).all[h]); }
    case HelperLeaves =>
  }

  // ----- Stop leaves nothing behind

  /** Stop has seen goroutinesDone. */
  predicate CleanStop(op: Operation) {
    op == StopWaiting(true) || op == StopEnding(true)
  }

  predicate Quiet(s: State) {
    CleanStop(s.op) ==> s.wait == 0
  }

  predicate Inv(s: State) {
    AllGood(s.all) && AllLinked(s) && CountOk(s) && Quiet(s)
  }

  /** With the counter at zero and no operation spawning, every monitor is gone and every process dead. */
  lemma NothingLeft(s: State)
    requires AllGood(s.all) && AllLinked(s) && CountOk(s)
    requires s.wait == 0 && !s.op.StartSpawned? && !s.op.UpSpawned?
    ensures forall h :: 0 <= h < |s.all| ==> s.all[h].phase == Gone && !s.all[h].live
    ensures s.helpers == 0
  {
    forall h: nat | h < |s.all| ensures s.all[h].phase == Gone && !s.all[h].live {
      CountZero(s.all, h);
      assert Linked(s, h) && Good(s.all[h]);
      if s.all[h].phase.Unborn? {
        CountZero(s.all, s.all[h].phase.owner.parent);
      }
    }
  }

  lemma QuietStep(s: State, step: Step)
    requires Inv(s) && Enabled(s, step)
    ensures Quiet(Do(s, step))
  {
    if CleanStop(s.op) {
      NothingLeft(s);
    }
  }

  lemma InvStep(s: State, step: Step)
    requires Inv(s) && Enabled(s, step)
    ensures Inv(Do(s, step))
  {
    GoodStep(s, step);
    LinkedStep(s, step);
    CountStep(s, step);
    QuietStep(s, step);
  }

  lemma {:induction false} RunKeepsInv(states: seq<State>, steps: seq<Step>, k: nat)
    requires IsRun(states, steps) && k < |states|
    ensures Inv(states[k])
  {
    if k > 0 {
      RunKeepsInv(states, steps, k - 1);
      assert Follows(states[k - 1], steps[k - 1], states[k]);
      InvStep(states[k - 1], steps[k - 1]);
    }
  }

  /** In every run: when Stop leaves its wait because all goroutines are done, no process that was ever
      spawned is still running, whether or not its instance is still in the list. */
  lemma StopLeavesNothing(states: seq<State>, steps: seq<Step>, k: nat)
    requires IsRun(states, steps) && k < |steps| && steps[k] == Operate(StopLeaves)
    ensures forall h :: 0 <= h < |states[k].all| ==> !states[k].all[h].live && states[k].all[h].phase == Gone
    ensures states[k].helpers == 0 && states[k].wait == 0
  {
    RunKeepsInv(states, steps, k);
    assert Follows(states[k], steps[k], states[k + 1]);
    NothingLeft(states[k]);
  }

  /** In every run the counter never goes negative, and it is zero only when nothing is counted. */
  lemma CounterCounts(states: seq<State>, steps: seq<Step>, k: nat)
    requires IsRun(states, steps) && k < |states|
    ensures states[k].wait >= 0
    ensures states[k].wait == 0 ==> forall h :: 0 <= h < |states[k].all| ==> !Counted(states[k].all[h])
  {
    RunKeepsInv(states, steps, k);
    forall h: nat | states[k].wait == 0 && h < |states[k].all| ensures !Counted(states[k].all[h]) {
      CountZero(states[k].all, h);
    }
  }

  // ----- an instance that was stopped never restarts

  lemma SeenThroughMonitor(s: State, m: MonitorStep, k: Handle, h: Handle)
    requires MonitorEnabled(s, m, k) && h < |s.all| && s.all[h].stopSeen
    ensures h < |Monitored(s, m, k).all| && Monitored(s, m, k).all[h].stopSeen
  {}

  lemma SeenStays(s: State, step: Step, h: Handle)
    requires Enabled(s, step) && h < |s.all| && s.all[h].stopSeen
    ensures h < |Do(s, step).all| && Do(s, step).all[h].stopSeen
  {
    match step
    case Monitor(m, k) => SeenThroughMonitor(s, m, k, h);
    case _ =>
  }

  lemma {:induction false} SeenForever(states: seq<State>, steps: seq<Step>, j: nat, k: nat, h: Handle)
    requires IsRun(states, steps) && j <= k < |states|
    requires h < |states[j].all| && states[j].all[h].stopSeen
    ensures h < |states[k].all| && states[k].all[h].stopSeen
  {
    if j < k {
      SeenForever(states, steps, j, k - 1, h);
      assert Follows(states[k - 1], steps[k - 1], states[k]);
      SeenStays(states[k - 1], steps[k - 1], h);
    }
  }

  /** In every run: once stopInstance has found an instance running and switched restarting off, the
      monitor of that instance never enters attemptRestart again. */
  lemma StoppedNeverRestarts(states: seq<State>, steps: seq<Step>, j: nat, k: nat, h: Handle)
    requires IsRun(states, steps) && j < k < |states|
    requires steps[j] == StopInstance(Look, h) && h < |states[j].all| && states[j].all[h].state == Running
    ensures h < |states[k].all| && !Restarting(states[k].all[h].phase)
  {
    assert Follows(states[j], steps[j], states[j + 1]);
    SeenForever(states, steps, j + 1, k, h);
    RunKeepsInv(states, steps, k);
    assert Good(states[k].all[h]);
  }
}
