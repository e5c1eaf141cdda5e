/** The supervisor of internal/process/supervisor.go as a step machine: one step per critical
    section or blocking point, any interleaving of one lifecycle operation (they are serialised by
    operationMu), the monitor goroutine of every instance, and the processes themselves. */
module SupervisorMachine {

  /** An Instance object, by order of creation. */
  type Handle = nat

  datatype InstanceState = Running | Stopping | Stopped | Ended

  /** Who is between cmd.Start and goroutines.Add for a new process. */
  datatype Owner = ByOperation | ByMonitor(parent: Handle)

  /** Where the monitor goroutine of an instance is. */
  datatype Phase =
    | Unborn(owner: Owner)      // the process runs, its monitor is not yet counted
    | Waiting                   // in cmd.Wait
    | Exited                    // has recorded the exit, has not yet read allowRestart
    | Backoff                   // in attemptRestart, waiting
    | Checking                  // about to look at the context again
    | Respawning                // about to call startInstance
    | Spawned(child: Handle)    // has called cmd.Start, not yet goroutines.Add
    | Replacing(child: Handle)  // about to put the new instance into the list
    | Returning                 // about to close doneCh
    | Closed                    // has closed doneCh, about to call goroutines.Done
    | Gone

  datatype Instance = Instance(
    id: nat,              // the i of the instance id "name-i"
    live: bool,           // its operating system process runs
    state: InstanceState,
    allowRestart: bool,
    phase: Phase,
    stopSeen: bool)       // stopInstance found it running and switched restarting off

  datatype Context = NoContext | Active | Cancelled

  /** The operation that holds operationMu. */
  datatype Operation =
    | Idle
    | Starting(scale: int, next: nat)
    | StartSpawned(scale: int, next: nat, child: Handle)
    | ScalingUp(target: int, base: nat, added: seq<Handle>)
    | UpSpawned(target: int, base: nat, added: seq<Handle>, child: Handle)
    | CleaningUp(todo: seq<Handle>)
    | ScalingDown(keep: nat)
    | StopCancelling
    | StopJoining
    | StopWaiting(goroutinesDone: bool)
    | StopEnding(clean: bool)

  /** A call of stopInstance. */
  datatype StopCall = Entered | Signalled | Returned

  datatype State = State(
    all: seq<Instance>,              // every Instance ever created
    list: seq<Handle>,               // s.instances
    context: Context,
    wait: int,                       // the WaitGroup counter
    helpers: nat,                    // health and metrics goroutines
    op: Operation,
    stops: map<Handle, StopCall>)    // calls of stopInstance the operation waits for

  /** Steps of the lifecycle operations. */
  datatype OpStep =
    | BeginStart(scale: int) | StartSpawn | StartSpawnFails | StartAdd | StartHelper | StartDone
    | BeginScaleUp(target: int) | UpSpawn | UpSpawnFails | UpAdd | UpDone | CleanupNext | CleanupDone
    | BeginScaleDown(keep: nat) | DownDone
    | BeginStop | StopCancel | StopJoined | GoroutinesDone | StopLeaves | StopTimeout | StopDone

  /** Steps of a running stopInstance. */
  datatype StopStep = Look | ReturnsStopped | GivesUp

  /** Steps of a process and of the monitor goroutine of its instance. */
  datatype MonitorStep =
    | ProcessExits | Reap | FinishOneshot | Decide(restart: bool)
    | BackoffOver | BackoffCancelled | CheckContext | Respawn | RespawnFails | AddChild | Replace
    | CloseDone | Leave

  datatype Step =
    | Operate(o: OpStep)
    | StopInstance(c: StopStep, h: Handle)
    | Monitor(m: MonitorStep, h: Handle)
    | HelperLeaves

  // ----- steps

  function Fresh(id: nat, owner: Owner): Instance {
    Instance(id, true, Running, true, Unborn(owner), false)
  }

  predicate AllReturned(s: State) {
    forall h :: h in s.stops ==> s.stops[h] == Returned
  }

  /** Start holds s.mu throughout, so a monitor cannot touch the list meanwhile. */
  predicate ListLocked(s: State) {
    s.op.Starting? || s.op.StartSpawned?
  }

  predicate InPhase(s: State, h: Handle, p: Phase) {
    h < |s.all| && s.all[h].phase == p
  }

  predicate OpEnabled(s: State, o: OpStep) {
    match o
    case BeginStart(_) => s.op == Idle
    case StartSpawn => s.op.Starting? && s.op.next < s.op.scale
    case StartSpawnFails => s.op.Starting? && s.op.next < s.op.scale
    case StartAdd => s.op.StartSpawned? && s.op.child < |s.all|
    case StartHelper => s.op.Starting? && s.op.next >= s.op.scale
    case StartDone => s.op.Starting? && s.op.next >= s.op.scale
    case BeginScaleUp(target) => s.op == Idle && target > |s.list|
    case UpSpawn => s.op.ScalingUp? && s.op.base + |s.op.added| < s.op.target
    case UpSpawnFails => s.op.ScalingUp? && s.op.base + |s.op.added| < s.op.target
    case UpAdd => s.op.UpSpawned? && s.op.child < |s.all|
    case UpDone => s.op.ScalingUp? && s.op.base + |s.op.added| >= s.op.target
    case CleanupNext => s.op.CleaningUp? && s.op.todo != [] && AllReturned(s)
    case CleanupDone => s.op.CleaningUp? && s.op.todo == [] && AllReturned(s)
    case BeginScaleDown(keep) => s.op == Idle && keep < |s.list|
    case DownDone => s.op.ScalingDown? && AllReturned(s) && s.op.keep <= |s.list|
    case BeginStop => s.op == Idle
    case StopCancel => s.op == StopCancelling
    case StopJoined => s.op == StopJoining && AllReturned(s)
    case GoroutinesDone => s.op == StopWaiting(false) && s.wait == 0
    case StopLeaves => s.op == StopWaiting(true)
    case StopTimeout => s.op.StopWaiting?
    case StopDone => s.op.StopEnding?
  }

  /** stopInstance returns once doneCh is closed, or early when a signal cannot be sent. */
  predicate StopEnabled(s: State, c: StopStep, h: Handle) {
    h in s.stops && h < |s.all| &&
    match c
    case Look => s.stops[h] == Entered
    case ReturnsStopped => s.stops[h] == Signalled && (s.all[h].phase.Closed? || s.all[h].phase.Gone?)
    case GivesUp => s.stops[h] == Signalled
  }

  predicate MonitorEnabled(s: State, m: MonitorStep, h: Handle) {
    h < |s.all| &&
    var x := s.all[h];
    match m
    case ProcessExits => x.live
    case Reap => x.phase.Waiting? && !x.live
    case FinishOneshot => x.phase.Exited?
    case Decide(restart) => x.phase.Exited? && (restart ==> x.allowRestart)
    case BackoffOver => x.phase.Backoff?
    case BackoffCancelled => x.phase.Backoff?
    case CheckContext => x.phase.Checking?
    case Respawn => x.phase.Respawning?
    case RespawnFails => x.phase.Respawning?
    case AddChild => x.phase.Spawned? && x.phase.child < |s.all|
    case Replace => x.phase.Replacing? && !ListLocked(s)
    case CloseDone => x.phase.Returning?
    case Leave => x.phase.Closed?
  }

  predicate Enabled(s: State, step: Step) {
    match step
    case Operate(o) => OpEnabled(s, o)
    case StopInstance(c, h) => StopEnabled(s, c, h)
    case Monitor(m, h) => MonitorEnabled(s, m, h)
    case HelperLeaves => s.helpers > 0
  }

  function Put(s: State, h: Handle, x: Instance): State
    requires h < |s.all|
  {
    s.(all := s.all[h := x])
  }

  function Move(s: State, h: Handle, p: Phase): State
    requires h < |s.all|
  {
    Put(s, h, s.all[h].(phase := p))
  }

  /** The first instance of the list with that id is replaced. */
  function Replaced(all: seq<Instance>, list: seq<Handle>, id: nat, child: Handle): seq<Handle> {
    if list == [] then []
    else if list[0] < |all| && all[list[0]].id == id then [child] + list[1..]
    else [list[0]] + Replaced(all, list[1..], id, child)
  }

  function EnterAll(handles: seq<Handle>): map<Handle, StopCall> {
    map h | h in handles :: Entered
  }

  function Operated(s: State, o: OpStep): State
    requires OpEnabled(s, o)
  {
    match o
    // Start
    case BeginStart(scale) => s.(op := Starting(scale, 0), context := Active)
    case StartSpawn =>
      s.(all := s.all + [Fresh(s.op.next, ByOperation)], op := StartSpawned(s.op.scale, s.op.next, |s.all|))
    case StartSpawnFails => s.(op := Idle, context := Cancelled)
    case StartAdd =>
      Move(s, s.op.child, Waiting).(
        wait := s.wait + 1, list := s.list + [s.op.child], op := Starting(s.op.scale, s.op.next + 1))
    case StartHelper => s.(helpers := s.helpers + 1, wait := s.wait + 1)
    case StartDone => s.(op := Idle)
    // ScaleUp
    case BeginScaleUp(target) => s.(op := ScalingUp(target, |s.list|, []))
    case UpSpawn =>
      s.(all := s.all + [Fresh(s.op.base + |s.op.added|, ByOperation)],
         op := UpSpawned(s.op.target, s.op.base, s.op.added, |s.all|))
    case UpSpawnFails => s.(op := CleaningUp(s.op.added), stops := map[])
    case UpAdd =>
      Move(s, s.op.child, Waiting).(
        wait := s.wait + 1, op := ScalingUp(s.op.target, s.op.base, s.op.added + [s.op.child]))
    case UpDone => s.(list := s.list + s.op.added, op := Idle)
    case CleanupNext => s.(stops := EnterAll([s.op.todo[0]]), op := CleaningUp(s.op.todo[1..]))
    case CleanupDone => s.(stops := map[], op := Idle)
    // ScaleDown
    case BeginScaleDown(keep) => s.(op := ScalingDown(keep), stops := EnterAll(s.list[keep..]))
    case DownDone => s.(list := s.list[..s.op.keep], stops := map[], op := Idle)
    // Stop
    case BeginStop => s.(op := StopCancelling)
    case StopCancel =>
      s.(context := if s.context == Active then Cancelled else s.context,
         stops := EnterAll(s.list), op := StopJoining)
    case StopJoined => s.(stops := map[], op := StopWaiting(false))
    case GoroutinesDone => s.(op := StopWaiting(true))
    case StopLeaves => s.(op := StopEnding(true))
    case StopTimeout => s.(op := StopEnding(false))
    case StopDone => s.(list := [], context := NoContext, op := Idle)
  }

  /** One critical section looks at the state and switches restarting off. */
  function StopAdvanced(s: State, c: StopStep, h: Handle): State
    requires StopEnabled(s, c, h)
  {
    if c == Look && s.all[h].state == Running
    then Put(s, h, s.all[h].(state := Stopping, allowRestart := false, stopSeen := true)).(
           stops := s.stops[h := Signalled])
    else s.(stops := s.stops[h := Returned])
  }

  function Monitored(s: State, m: MonitorStep, h: Handle): State
    requires MonitorEnabled(s, m, h)
  {
    var x := s.all[h];
    match m
    // a crash, a kill or a normal exit
    case ProcessExits => Put(s, h, x.(live := false))
    // monitorInstance; a oneshot never restarts
    case Reap => Put(s, h, x.(state := Stopped, phase := Exited))
    case FinishOneshot => Put(s, h, x.(state := Ended, phase := Returning))
    case Decide(restart) => Move(s, h, if restart then Backoff else Returning)
    // attemptRestart; a nil context panics, and the panic is recovered
    case BackoffOver => Move(s, h, Checking)
    case BackoffCancelled => Move(s, h, Returning)
    case CheckContext =>
      if s.context == Active then Move(s, h, Respawning)
      else if s.context == Cancelled then Move(s, h, Returning)
      else Put(s, h, x.(state := Ended, phase := Returning))
    case Respawn =>
      s.(all := s.all[h := x.(phase := Spawned(|s.all|))] + [Fresh(x.id, ByMonitor(h))])
    case RespawnFails => Put(s, h, x.(state := Ended, phase := Returning))
    case AddChild =>
      Move(Move(s, h, Replacing(x.phase.child)), x.phase.child, Waiting).(wait := s.wait + 1)
    case Replace => Move(s, h, Returning).(list := Replaced(s.all, s.list, x.id, x.phase.child))
    // the deferred calls
    case CloseDone => Move(s, h, Closed)
    case Leave => Move(s, h, Gone).(wait := s.wait - 1)
  }

  function Do(s: State, step: Step): State
    requires Enabled(s, step)
  {
    match step
    case Operate(o) => Operated(s, o)
    case StopInstance(c, h) => StopAdvanced(s, c, h)
    case Monitor(m, h) => Monitored(s, m, h)
    case HelperLeaves => s.(helpers := s.helpers - 1, wait := s.wait - 1)
  }

  /** NewSupervisor. */
  function Initial(): State {
    State([], [], NoContext, 0, 0, Idle, map[])
  }

  predicate Follows(s: State, step: Step, next: State) {
    Enabled(s, step) && next == Do(s, step)
  }

  /** A run: every state follows from the one before it by an enabled step. */
  predicate IsRun(states: seq<State>, steps: seq<Step>) {
    && |states| == |steps| + 1
    && states[0] == Initial()
    && forall k :: 0 <= k < |steps| ==> Follows(states[k], steps[k], states[k + 1])
  }
}
