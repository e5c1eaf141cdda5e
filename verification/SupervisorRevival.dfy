/** Whoever is lost can come back, wherever in the life of the supervisor it was lost: operations can be driven to their
  * end, and a later Start makes the context active again. */
module SupervisorRevival {
  import opened SupervisorMachine
  import opened SupervisorSafety
  import opened SupervisorScale
  import opened SupervisorStrays

  // ----- nobody is in two hands

  ghost predicate Owned(s: State) {
    && (forall h: nat | h in s.list :: h !in Held(s))
    && (forall m: nat, h: nat | PendingOn(s, m, h) :: h !in Kept(s))
    && (forall m: nat, n: nat, h: nat | PendingOn(s, m, h) && PendingOn(s, n, h) :: m == n)
  }

  lemma ListNotHeldByOperate(s: State, o: OpStep, h: Handle)
    requires OpEnabled(s, o) && Owned(s) && Ranged(s) && h in Operated(s, o).list
    ensures h !in Held(Operated(s, o))
  {
    assert h in s.list ==> h in Kept(s);
    match o
    case DownDone => assert s.list == s.list[..s.op.keep] + s.list[s.op.keep..];
    case UpSpawnFails => assert Held(Operated(s, o)) == Held(s);
    case UpAdd => assert Held(Operated(s, o)) == Held(s);
    case CleanupNext => assert Held(Operated(s, o)) <= Held(s);
    case _ =>
  }

  lemma ListNotHeld(s: State, step: Step, h: Handle)
    requires Enabled(s, step) && Owned(s) && Ranged(s) && h in Do(s, step).list
    ensures h !in Held(Do(s, step))
  {
    match step
    case Operate(o) => ListNotHeldByOperate(s, o, h);
    case Monitor(m, k) =>
      MonitorFrame(s, m, k);
      HeldByOthers(s, step);
      if m == Replace {
        ReplacedFrom(s.all, s.list, s.all[k].id, s.all[k].phase.child, h);
        assert PendingOn(s, k, s.all[k].phase.child);
      }
    case _ => HeldByOthers(s, step);
  }

  /** Only operations change what an operation holds. */
  lemma HeldByOthers(s: State, step: Step)
    requires Enabled(s, step) && !step.Operate?
    ensures Held(Do(s, step)) == Held(s)
  {
    if step.StopInstance? { assert Do(s, step).stops.Keys == s.stops.Keys; }
  }

  lemma KeptByOperate(s: State, o: OpStep, h: Handle)
    requires OpEnabled(s, o) && h in Kept(Operated(s, o))
    ensures h in Kept(s) || h == |s.all|
  {
    match o
    case StartAdd => assert h in s.list || h == s.op.child;
    case UpDone => assert h in s.list || h in s.op.added;
    case UpAdd => assert h in s.list || h in s.op.added || h == s.op.child;
    case CleanupNext => assert h in s.list || h in s.op.todo;
    case DownDone => assert s.list == s.list[..s.op.keep] + s.list[s.op.keep..];
    case _ =>
  }

  lemma PendingNotKept(s: State, step: Step, m: Handle, h: Handle)
    requires Enabled(s, step) && Owned(s) && Ranged(s) && AllLinked(s) && PendingOn(Do(s, step), m, h)
    ensures h !in Kept(Do(s, step))
  {
    PendingStep(s, step, m, h);
    assert PendingOn(s, m, h) ==> h !in Kept(s);
    if h in Kept(Do(s, step)) {
      match step
      case Operate(o) => KeptByOperate(s, o, h);
      case Monitor(x, k) =>
        MonitorFrame(s, x, k);
        HeldByOthers(s, step);
        assert h in s.list || h in Held(s) ==> h in Kept(s);
        if x == Replace { ReplaceListsOwn(s, k, m, h); }
      case _ => HeldByOthers(s, step);
    }
  }

  /** A Replace puts nobody into the list who is still pending elsewhere. */
  lemma ReplaceListsOwn(s: State, k: Handle, m: Handle, h: Handle)
    requires MonitorEnabled(s, Replace, k) && Owned(s) && PendingOn(s, m, h) && m != k
    ensures h !in Monitored(s, Replace, k).list
  {
    var child := s.all[k].phase.child;
    assert PendingOn(s, k, child);
    assert h in s.list ==> h in Kept(s);
    if h in Monitored(s, Replace, k).list { ReplacedFrom(s.all, s.list, s.all[k].id, child, h); }
  }

  lemma OwnedStep(s: State, step: Step)
    requires Enabled(s, step) && Owned(s) && Ranged(s) && AllLinked(s)
    ensures Owned(Do(s, step))
  {
    var t := Do(s, step);
    forall h: nat | h in t.list ensures h !in Held(t) { ListNotHeld(s, step, h); }
    forall m: nat, h: nat | PendingOn(t, m, h) ensures h !in Kept(t) { PendingNotKept(s, step, m, h); }
    forall m: nat, n: nat, h: nat | PendingOn(t, m, h) && PendingOn(t, n, h) ensures m == n {
      PendingStep(s, step, m, h);
      PendingStep(s, step, n, h);
    }
  }

  // ----- the invariant of the drive

  predicate Callable(s: State) {
    && (forall k: nat | k in s.stops :: k < |s.all|)
    && (s.op.ScalingDown? ==> s.op.keep <= |s.list|)
  }

  ghost predicate Sound(s: State) {
    AllGood(s.all) && AllLinked(s) && Ranged(s) && Owned(s) && Callable(s)
  }

  lemma EndInRange(s: State, keep: nat)
    requires Ranged(s) && keep <= |s.list|
    ensures forall k: nat | k in EnterAll(s.list[keep..]) :: k < |s.all|
  {
    forall k: nat | k in s.list[keep..] ensures k < |s.all| { assert k in s.list && k in Kept(s); }
  }

  lemma CallableByOperate(s: State, o: OpStep)
    requires OpEnabled(s, o) && Ranged(s) && Callable(s)
    ensures Callable(Operated(s, o))
  {
    match o
    case BeginScaleDown(keep) => EndInRange(s, keep);
    case StopCancel =>
      EndInRange(s, 0);
      assert s.list[0..] == s.list;
    case CleanupNext => assert s.op.todo[0] in Held(s) && s.op.todo[0] in Kept(s);
    case _ =>
  }

  lemma CallableByOthers(s: State, step: Step)
    requires Enabled(s, step) && !step.Operate? && Callable(s)
    ensures Callable(Do(s, step))
  {
    LengthStep(s, step);
    OthersKeepOperation(s, step);
    if step.Monitor? { AllGrows(s, step.m, step.h); }
  }

  lemma AllGrows(s: State, m: MonitorStep, h: Handle)
    requires MonitorEnabled(s, m, h)
    ensures |s.all| <= |Monitored(s, m, h).all| && Monitored(s, m, h).stops == s.stops
  {}

  lemma SoundStep(s: State, step: Step)
    requires Enabled(s, step) && Sound(s)
    ensures Sound(Do(s, step))
  {
    GoodStep(s, step);
    LinkedStep(s, step);
    RangedStep(s, step);
    OwnedStep(s, step);
    if step.Operate? { CallableByOperate(s, step.o); } else { CallableByOthers(s, step); }
  }

  lemma {:induction false} RunIsSound(states: seq<State>, steps: seq<Step>, k: nat)
    requires IsRun(states, steps) && k < |states|
    ensures Sound(states[k])
  {
    if k > 0 {
      RunIsSound(states, steps, k - 1);
      assert Follows(states[k - 1], steps[k - 1], states[k]);
      SoundStep(states[k - 1], steps[k - 1]);
    }
  }

  // ----- driving an operation to its end past an instance that may live

  /** The instance lives, or its monitor is past the exit and will respawn. */
  predicate Settled(x: Instance) {
    x.live || x.phase.Backoff? || x.phase.Checking? || x.phase.Respawning? || (x.phase.Exited? && x.allowRestart)
  }

  /** Nobody will put the instance into the list. */
  predicate Lost(s: State, h: Handle) {
    h < |s.all| && h !in s.list && (h !in Held(s) || s.op.CleaningUp?)
  }

  predicate Begins(o: OpStep) {
    o.BeginStart? || o.BeginScaleUp? || o.BeginScaleDown? || o.BeginStop?
  }

  lemma OperateKeepsLost(s: State, o: OpStep, h: Handle)
    requires OpEnabled(s, o) && Lost(s, h) && !Begins(o)
    ensures Lost(Operated(s, o), h) && Operated(s, o).all[h] == s.all[h]
  {
    match o
    case UpSpawnFails => assert Held(Operated(s, o)) == Held(s);
    case UpAdd => assert Held(Operated(s, o)) == Held(s);
    case _ =>
  }

  lemma StopKeepsLost(s: State, c: StopStep, k: Handle, h: Handle)
    requires StopEnabled(s, c, k) && Lost(s, h) && AllGood(s.all) && Settled(s.all[h])
    ensures Lost(StopAdvanced(s, c, k), h) && Settled(StopAdvanced(s, c, k).all[h])
  {
    HeldByOthers(s, StopInstance(c, k));
    assert Good(s.all[h]);
  }

  function Unseen(s: State): set<Handle> {
    set k | k in s.stops && s.stops[k] == StopCall.Entered
  }

  function Underway(s: State): set<Handle> {
    set k | k in s.stops && s.stops[k] != Returned
  }

  function Rank(op: Operation): nat {
    match op
    case Idle => 0
    case Starting(_, _) => 1
    case StartSpawned(_, _, _) => 2
    case CleaningUp(_) => 1
    case ScalingUp(_, _, _) => 2
    case UpSpawned(_, _, _, _) => 3
    case ScalingDown(_) => 1
    case StopEnding(_) => 1
    case StopWaiting(_) => 2
    case StopJoining => 3
    case StopCancelling => 4
  }

  function Todo(op: Operation): nat {
    if op.CleaningUp? then |op.todo| else 0
  }

  /** The step that brings the operation nearer to its end when all its calls of stopInstance have returned. */
  function Finish(s: State): OpStep {
    match s.op
    case Starting(scale, next) => if next < scale then StartSpawnFails else StartDone
    case StartSpawned(_, _, _) => StartAdd
    case ScalingUp(target, base, added) => if base + |added| < target then UpSpawnFails else UpDone
    case UpSpawned(_, _, _, _) => UpAdd
    case CleaningUp(todo) => if todo != [] then CleanupNext else CleanupDone
    case ScalingDown(_) => DownDone
    case StopCancelling => StopCancel
    case StopJoining => StopJoined
    case StopWaiting(_) => StopTimeout
    case StopEnding(_) => StopDone
    case Idle => StopTimeout
  }

  lemma FinishAdvances(s: State)
    requires Sound(s) && s.op != Idle && AllReturned(s)
    ensures OpEnabled(s, Finish(s)) && !Begins(Finish(s))
    ensures Rank(Operated(s, Finish(s)).op) < Rank(s.op) ||
      (Rank(Operated(s, Finish(s)).op) == Rank(s.op) && Todo(Operated(s, Finish(s)).op) < Todo(s.op))
  {}

  lemma StopCallAdvances(s: State, k: Handle)
    requires Sound(s) && k in s.stops && s.stops[k] != Returned
    ensures var c := if s.stops[k] == StopCall.Entered then Look else GivesUp;
            && StopEnabled(s, c, k) && StopAdvanced(s, c, k).op == s.op
            && (Unseen(StopAdvanced(s, c, k)) < Unseen(s) ||
                (Unseen(StopAdvanced(s, c, k)) == Unseen(s) && Underway(StopAdvanced(s, c, k)) < Underway(s)))
  {
    var c := if s.stops[k] == StopCall.Entered then Look else GivesUp;
    var t := StopAdvanced(s, c, k);
    assert k in Underway(s) && (c == Look ==> k in Unseen(s) && k !in Unseen(t));
    assert c == GivesUp ==> k !in Underway(t);
  }

  /** Any operation can come to its end without listing an instance that is lost. */
  lemma {:induction false} Drive(s: State, h: Handle) returns (u: State)
    requires Sound(s) && Lost(s, h) && Settled(s.all[h])
    ensures Leads(s, u) && u.op == Idle && Sound(u) && Lost(u, h) && Settled(u.all[h])
    decreases Rank(s.op), Todo(s.op), Unseen(s), Underway(s)
  {
    if s.op == Idle {
      LeadsNowhere(s);
      u := s;
    } else if AllReturned(s) {
      var o := Finish(s);
      FinishAdvances(s);
      OperateKeepsLost(s, o, h);
      SoundStep(s, Operate(o));
      u := Drive(Operated(s, o), h);
      LeadsBy(s, Operate(o), u);
    } else {
      var k :| k in s.stops && s.stops[k] != Returned;
      var c := if s.stops[k] == StopCall.Entered then Look else GivesUp;
      StopCallAdvances(s, k);
      StopKeepsLost(s, c, k, h);
      SoundStep(s, StopInstance(c, k));
      u := Drive(StopAdvanced(s, c, k), h);
      LeadsBy(s, StopInstance(c, k), u);
    }
  }

  // ----- the converse without conditions

  lemma MonitorKeepsLost(s: State, m: MonitorStep, k: Handle, h: Handle)
    requires MonitorEnabled(s, m, k) && Lost(s, h) && m != Replace
    ensures Lost(Monitored(s, m, k), h)
  {
    MonitorFrame(s, m, k);
    AllGrows(s, m, k);
  }

  /** An instance that may live settles by steps of monitors. */
  lemma Settle(s: State, h: Handle) returns (u: State)
    requires Sound(s) && Lost(s, h) && MayLive(s.all[h])
    ensures Leads(s, u) && Sound(u) && Lost(u, h) && Settled(u.all[h])
  {
    u := s;
    LeadsNowhere(u);
    if Settled(s.all[h]) {
    } else if s.all[h].phase.Waiting? {
      u := SettleWaiting(s, h);
    } else {
      assert Linked(s, h);
      var m := s.all[h].phase.owner.parent;
      SoundStep(s, Monitor(AddChild, m));
      MonitorKeepsLost(s, AddChild, m, h);
      u := SettleWaiting(Monitored(s, AddChild, m), h);
      LeadsBy(s, Monitor(AddChild, m), u);
    }
  }

  lemma SettleWaiting(s: State, h: Handle) returns (u: State)
    requires Sound(s) && Lost(s, h) && s.all[h].phase.Waiting? && !s.all[h].live && s.all[h].allowRestart
    ensures Leads(s, u) && Sound(u) && Lost(u, h) && Settled(u.all[h])
  {
    u := Monitored(s, Reap, h);
    SoundStep(s, Monitor(Reap, h));
    MonitorKeepsLost(s, Reap, h, h);
    LeadsNowhere(u);
    LeadsBy(s, Monitor(Reap, h), u);
  }

  lemma LeadsOn(s: State, u: State, v: State)
    requires Leads(s, u) && Leads(u, v)
    ensures Leads(s, v)
  {
    var states, steps :| IsPath(states, steps, s) && states[|steps|] == u;
    var more, others :| IsPath(more, others, u) && more[|others|] == v;
    var longer, all := states + more[1..], steps + others;
    forall k | 0 <= k < |all| ensures Follows(longer[k], all[k], longer[k + 1]) {
      if k < |steps| {
        assert Follows(states[k], steps[k], states[k + 1]);
      } else {
        assert Follows(more[k - |steps|], others[k - |steps|], more[k - |steps| + 1]);
        assert longer[k] == more[k - |steps|] && longer[k + 1] == more[k - |steps| + 1];
      }
    }
    assert IsPath(longer, all, s);
  }

  /** Who was let go is in nobody's hands, unless it is being cleaned up. */
  lemma LetGoIsLost(s: State, step: Step, g: Handle)
    requires LetsGo(s, step, g) && Owned(s)
    ensures Lost(Do(s, step), g)
  {
    if step.Monitor? {
      HeldByOthers(s, step);
      if Misses(s, step, g) { assert PendingOn(s, step.h, g); }
    }
  }

  /** Between operations a Start with nothing to start makes the context active. */
  lemma Restarted(s: State, h: Handle) returns (u: State)
    requires Sound(s) && s.op == Idle && Lost(s, h)
    ensures Leads(s, u) && u.op == Idle && u.context == Active && Sound(u)
    ensures u.list == s.list && u.all == s.all
  {
    var t := Operated(s, BeginStart(0));
    u := Operated(t, StartDone);
    SoundStep(s, Operate(BeginStart(0)));
    SoundStep(t, Operate(StartDone));
    LeadsNowhere(u);
    LeadsBy(t, Operate(StartDone), u);
    LeadsBy(s, Operate(BeginStart(0)), u);
  }

  /** The run can go on from `s` to `u`, between operations, where `c` lives without being listed and is `h` or was
      spawned by its monitor. */
  ghost predicate LivesUnlisted(s: State, h: Handle, u: State, c: Handle) {
    && Leads(s, u) && u.op == Idle
    && c < |u.all| && u.all[c].live && c !in u.list
    && (c == h || u.all[c].phase == Unborn(ByMonitor(h)))
  }

  /** In every run, every instance that a step lets go can come back, whatever the operation under way and whatever has
    * become of the context: the run can go on until that instance or a descendant lives, between operations, without
    * being listed. */
  lemma EveryLossComesBack(states: seq<State>, steps: seq<Step>, k: nat, g: Handle)
      returns (h: Handle, u: State, c: Handle)
    requires IsRun(states, steps) && k < |steps| && LetsGo(states[k], steps[k], g)
    ensures Descends(states, steps, g, h) && LivesUnlisted(states[k + 1], h, u, c)
  {
    var s := states[k + 1];
    assert Follows(states[k], steps[k], s);
    RunIsSound(states, steps, k);
    RunIsSound(states, steps, k + 1);
    LetGoIsLost(states[k], steps[k], g);
    h := SomeoneMayLive(states, steps, k + 1, g);
    var settled := Settle(s, h);
    var driven := Drive(settled, h);
    var renewed := Restarted(driven, h);
    ListInRange(renewed);
    u, c := Revive(renewed, h);
    LeadsOn(driven, renewed, u);
    LeadsOn(settled, driven, u);
    LeadsOn(s, settled, u);
  }
}
