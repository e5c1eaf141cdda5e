/** The scheduled job of internal/schedule/job.go as a step machine: any number of callers of Run,
    Trigger, TriggerSync, Pause and Resume, one step per critical section or blocking point. */
module ScheduledJob {
  import opened Results
  import opened JobHistory

  datatype JobState = Idle | Executing | Paused

  /** Where a caller of Run, Trigger or TriggerSync is. */
  datatype Caller =
    | CheckingState                        // Trigger and TriggerSync look at the state first
    | Refused
    | WantsLock(triggered: string)         // at executionMu.Lock
    | HasLock(triggered: string)
    | Running(execID: int)                 // in executor.Execute
    | Finishing(execID: int, o: Outcome)   // Execute has returned
    | Recording(execID: int, o: Outcome)   // the state is idle again, the history entry still open
    | Reading(execID: int, o: Outcome)     // about to read the newest entry for the log line
    | Unlocking
    | Left
    | Crashed(execID: int)                 // Execute has panicked, and the deferred call has freed executionMu

  type Tid = nat

  /** MaxConcurrent is stored and never looked at. */
  datatype State = State(
    job: JobState,
    currentExecID: int,
    lastRun: int,
    history: History,
    executionMu: Option<Tid>,
    callers: seq<Caller>,
    crashed: Option<Tid>,            // for the record: the caller in whose execution the executor panicked
    maxConcurrent: int)

  datatype Step =
    | CallRun
    | CallTrigger                      // Trigger and TriggerSync
    | Check(t: Tid)
    | Lock(t: Tid)
    | Begin(t: Tid, now: int)
    | Complete(t: Tid, o: Outcome)     // whatever the executor answers, whenever it does
    | Panic(t: Tid)                    // the executor panics
    | GoIdle(t: Tid)
    | Record(t: Tid)
    | Read(t: Tid)
    | Unlock(t: Tid)
    | Pause
    | Resume

  predicate At(s: State, t: Tid) {
    t < |s.callers|
  }

  predicate Enabled(s: State, step: Step) {
    match step
    case CallRun => true
    case CallTrigger => true
    case Check(t) => At(s, t) && s.callers[t].CheckingState?
    case Lock(t) => At(s, t) && s.callers[t].WantsLock? && s.executionMu == None
    case Begin(t, _) => At(s, t) && s.callers[t].HasLock? && Valid(s.history)
    case Complete(t, _) => At(s, t) && s.callers[t].Running?
    case Panic(t) => At(s, t) && s.callers[t].Running?
    case GoIdle(t) => At(s, t) && s.callers[t].Finishing?
    case Record(t) => At(s, t) && s.callers[t].Recording?
    case Read(t) => At(s, t) && s.callers[t].Reading?
    case Unlock(t) => At(s, t) && s.callers[t].Unlocking?
    case Pause => true
    case Resume => true
  }

  function Move(s: State, t: Tid, c: Caller): State
    requires At(s, t)
  {
    s.(callers := s.callers[t := c])
  }

  function Do(s: State, step: Step): State
    requires Enabled(s, step)
  {
    match step
    case CallRun => s.(callers := s.callers + [WantsLock("schedule")])
    case CallTrigger => s.(callers := s.callers + [CheckingState])
    case Check(t) => Move(s, t, if s.job == Idle then WantsLock("manual") else Refused)
    case Lock(t) => Move(s, t, HasLock(s.callers[t].triggered)).(executionMu := Some(t))
    case Begin(t, now) =>
      if s.job == Idle then
        Move(s, t, Running(s.history.nextID)).(
          job := Executing, lastRun := now, currentExecID := s.history.nextID,
          history := Start(s.history, s.callers[t].triggered, now))
      else Move(s, t, Unlocking)
    case Complete(t, o) => Move(s, t, Finishing(s.callers[t].execID, o))
    case Panic(t) => Move(s, t, Crashed(s.callers[t].execID)).(executionMu := None, crashed := Some(t))
    case GoIdle(t) =>
      Move(s, t, Recording(s.callers[t].execID, s.callers[t].o)).(job := Idle, currentExecID := 0)
    case Record(t) =>
      Move(s, t, Reading(s.callers[t].execID, s.callers[t].o)).(
        history := End(s.history, s.callers[t].execID, s.callers[t].o))
    case Read(t) => Move(s, t, Unlocking)
    case Unlock(t) => Move(s, t, Left).(executionMu := None)
    case Pause => if s.job == Idle then s.(job := Paused) else s
    case Resume => if s.job == Paused then s.(job := Idle) else s
  }

  function Initial(historySize: int, maxConcurrent: int): State {
    State(Idle, 0, 0, New(historySize), None, [], None, maxConcurrent)
  }

  predicate Follows(s: State, step: Step, next: State) {
    Enabled(s, step) && next == Do(s, step)
  }

  ghost predicate IsRun(states: seq<State>, steps: seq<Step>) {
    && |states| == |steps| + 1
    && (exists size, max :: states[0] == Initial(size, max))
    && forall k :: 0 <= k < |steps| ==> Follows(states[k], steps[k], states[k + 1])
  }

  // ----- the invariant

  /** The callers that hold executionMu. */
  predicate Holds(c: Caller) {
    c.HasLock? || c.Running? || c.Finishing? || c.Recording? || c.Reading? || c.Unlocking?
  }

  /** Between the two critical sections that set the state. */
  predicate InFlight(c: Caller) {
    c.Running? || c.Finishing?
  }

  /** The history entry of this caller is still open. */
  predicate Open(c: Caller) {
    InFlight(c) || c.Recording?
  }

  predicate MutexOk(s: State) {
    && (s.executionMu.Some? ==> At(s, s.executionMu.value))
    && (forall t :: 0 <= t < |s.callers| ==> (Holds(s.callers[t]) <==> s.executionMu == Some(t)))
  }

  /** What the holder of executionMu is doing; a caller that left stands for nobody. */
  function Holder(s: State): Caller {
    if s.executionMu.Some? && At(s, s.executionMu.value) then s.callers[s.executionMu.value] else Left
  }

  /** The job says it executes exactly while the holder of executionMu is between the two sections. */
  predicate StateOk(s: State) {
    && (s.job == Executing <==> InFlight(Holder(s)))
    && s.currentExecID == if InFlight(Holder(s)) then Holder(s).execID else 0
  }

  predicate AllClosed(entries: seq<Entry>) {
    forall i :: 0 <= i < |entries| ==> entries[i].end.Some?
  }

  /** All entries but the newest are closed, and the newest belongs to the caller that has it open. */
  predicate HistoryOk(h: History, holder: Caller) {
    && Valid(h)
    && (h.entries != [] ==> AllClosed(h.entries[..|h.entries| - 1]))
    && (Open(holder) ==> h.entries != [] && holder.execID == h.nextID - 1 && h.entries[|h.entries| - 1].end == None)
    && (!Open(holder) ==> AllClosed(h.entries))
    && (holder.Reading? ==> ReadsOwn(h, holder))
  }

  /** The newest entry is the caller's own and carries what its execution returned. */
  predicate ReadsOwn(h: History, c: Caller)
    requires c.Reading?
  {
    && h.entries != []
    && var e := h.entries[|h.entries| - 1]; e.id == c.execID && e == Close(e, c.o)
  }

  /** Nobody has crashed but the caller on record. */
  predicate CrashedOk(s: State) {
    && (s.crashed.Some? ==> At(s, s.crashed.value))
    && (forall t :: 0 <= t < |s.callers| ==> (s.callers[t].Crashed? <==> s.crashed == Some(t)))
  }

  /** After a crash: the job says it executes; nobody does; and the newest entry is that of the crashed caller, open. */
  predicate Broken(s: State) {
    && s.crashed.Some? && At(s, s.crashed.value) && s.callers[s.crashed.value].Crashed?
    && s.job == Executing && s.currentExecID == s.callers[s.crashed.value].execID
    && !Open(Holder(s)) && !Holder(s).Reading?
    && HistoryOk(s.history, Running(s.callers[s.crashed.value].execID))
  }

  predicate Working(s: State) {
    s.crashed.None? && StateOk(s) && HistoryOk(s.history, Holder(s))
  }

  predicate Inv(s: State) {
    MutexOk(s) && CrashedOk(s) && (Working(s) || Broken(s))
  }

  lemma MutexStep(s: State, step: Step)
    requires MutexOk(s) && Enabled(s, step)
    ensures MutexOk(Do(s, step))
  {}

  lemma StateStep(s: State, step: Step)
    requires MutexOk(s) && StateOk(s) && Enabled(s, step) && !step.Panic?
    ensures StateOk(Do(s, step)) && Do(s, step).crashed == s.crashed
  {}

  lemma CrashedStep(s: State, step: Step)
    requires MutexOk(s) && CrashedOk(s) && Enabled(s, step) && (step.Panic? ==> s.crashed.None?)
    ensures CrashedOk(Do(s, step))
  {}

  /** A panic breaks the job. */
  lemma PanicBreaks(s: State, t: Tid)
    requires MutexOk(s) && Working(s) && Enabled(s, Panic(t))
    ensures Broken(Do(s, Panic(t)))
  {}

  /** And nothing repairs it. */
  lemma BrokenStays(s: State, step: Step)
    requires MutexOk(s) && Broken(s) && Enabled(s, step)
    ensures Broken(Do(s, step)) && Do(s, step).history == s.history && Do(s, step).crashed == s.crashed && !step.Panic?
  {}

  /** Opening an entry when all are closed. */
  lemma OpensNewest(h: History, triggered: string, now: int)
    requires Valid(h) && AllClosed(h.entries)
    ensures HistoryOk(Start(h, triggered, now), Running(h.nextID))
  {
    var next := Start(h, triggered, now);
    StartIsValid(h, triggered, now);
    var older := next.entries[..|next.entries| - 1];
    forall i | 0 <= i < |older| ensures older[i].end.Some? {
      assert older[i] in older;
    }
  }

  /** Closing the newest entry leaves none open and the caller's own outcome in it. */
  lemma ClosesNewest(h: History, id: int, o: Outcome)
    requires HistoryOk(h, Recording(id, o))
    ensures HistoryOk(End(h, id, o), Reading(id, o))
  {
    var next := End(h, id, o);
    EndIsValid(h, id, o);
    var n := |h.entries| - 1;
    assert AllClosed(h.entries[..n]);
    forall i | 0 <= i <= n ensures next.entries[i].end.Some? {
      if i < n { assert h.entries[..n][i] == h.entries[i]; }
    }
    assert AllClosed(next.entries[..n]);
  }

  /** Whether the holder has its entry open, and which, changes at two steps only. */
  lemma HolderAfter(s: State, step: Step)
    requires MutexOk(s) && Enabled(s, step) && !step.Panic? && !step.Record? && (step.Begin? ==> s.job != Idle)
    ensures Do(s, step).history == s.history && SameEntry(Holder(s), Holder(Do(s, step)))
  {}

  predicate SameEntry(before: Caller, after: Caller) {
    && (Open(before) <==> Open(after))
    && (Open(after) ==> before.execID == after.execID)
    && (after.Reading? ==> before == after)
  }

  lemma OtherHolder(h: History, before: Caller, after: Caller)
    requires HistoryOk(h, before) && SameEntry(before, after)
    ensures HistoryOk(h, after)
  {}

  lemma HistoryStep(s: State, step: Step)
    requires MutexOk(s) && StateOk(s) && HistoryOk(s.history, Holder(s)) && Enabled(s, step) && !step.Panic?
    ensures HistoryOk(Do(s, step).history, Holder(Do(s, step)))
  {
    if step.Begin? && s.job == Idle {
      OpensNewest(s.history, s.callers[step.t].triggered, step.now);
    } else if step.Record? {
      ClosesNewest(s.history, s.callers[step.t].execID, s.callers[step.t].o);
    } else {
      HolderAfter(s, step);
      OtherHolder(s.history, Holder(s), Holder(Do(s, step)));
    }
  }

  lemma InvStep(s: State, step: Step)
    requires Inv(s) && Enabled(s, step)
    ensures Inv(Do(s, step))
  {
    MutexStep(s, step);
    if Broken(s) {
      BrokenStays(s, step);
    } else if step.Panic? {
      PanicBreaks(s, step.t);
    } else {
      StateStep(s, step);
      HistoryStep(s, step);
    }
    CrashedStep(s, step);
  }

  lemma {:induction false} RunKeepsInv(states: seq<State>, steps: seq<Step>, k: nat)
    requires IsRun(states, steps) && k < |states|
    ensures Inv(states[k])
  {
    if k > 0 {
      RunKeepsInv(states, steps, k - 1);
      assert Follows(states[k - 1], steps[k - 1], states[k]);
      InvStep(states[k - 1], steps[k - 1]);
    }
  }

  // ----- what holds in every run

  /** Never two executions at once, whatever MaxConcurrent says. */
  lemma AtMostOneExecution(states: seq<State>, steps: seq<Step>, k: nat, t: Tid, u: Tid)
    requires IsRun(states, steps) && k < |states|
    requires At(states[k], t) && InFlight(states[k].callers[t])
    requires At(states[k], u) && InFlight(states[k].callers[u])
    ensures t == u && states[k].job == Executing && states[k].currentExecID == states[k].callers[t].execID
  {
    RunKeepsInv(states, steps, k);
  }

  /** A caller has crashed exactly if some execution has panicked. */
  lemma {:induction false} CrashedIff(states: seq<State>, steps: seq<Step>, k: nat)
    requires IsRun(states, steps) && k < |states|
    ensures states[k].crashed.Some? <==> exists j :: 0 <= j < k && steps[j].Panic?
  {
    if k > 0 {
      var i := k - 1;
      CrashedIff(states, steps, i);
      assert Follows(states[i], steps[i], states[i + 1]);
      RunKeepsInv(states, steps, i);
      CrashedBy(states[i], steps[i]);
    }
  }

  lemma CrashedBy(s: State, step: Step)
    requires Inv(s) && Enabled(s, step)
    ensures Do(s, step).crashed.Some? <==> s.crashed.Some? || step.Panic?
  {}

  /** Whoever gets past executionMu finds the job executing exactly if some execution has panicked before: without a
      panic that branch is dead. */
  lemma AlreadyExecutingIff(states: seq<State>, steps: seq<Step>, k: nat, t: Tid, now: int)
    requires IsRun(states, steps) && k < |steps| && steps[k] == Begin(t, now)
    ensures states[k].job == Executing <==> exists j :: 0 <= j < k && steps[j].Panic?
  {
    RunKeepsInv(states, steps, k);
    CrashedIff(states, steps, k);
    assert Follows(states[k], steps[k], states[k + 1]);
  }

  lemma BrokenNext(s: State, step: Step, t: State)
    requires Inv(s) && Follows(s, step, t) && (step.Panic? || Broken(s))
    ensures Broken(t) && t.history == s.history
    ensures t.crashed == if step.Panic? then Some(step.t) else s.crashed
  {
    if Broken(s) { BrokenStays(s, step); } else { PanicBreaks(s, step.t); }
  }

  /** A panic ends the job for good: from then on it says it executes, nothing is executed, and the history stays as it
      is, with the entry of the panicked execution open. */
  lemma {:induction false} PanicIsFinal(states: seq<State>, steps: seq<Step>, j: nat, k: nat)
    requires IsRun(states, steps) && j < k < |states| && steps[j].Panic?
    ensures states[k].job == Executing && states[k].history == states[j].history
    ensures forall t: Tid | At(states[k], t) :: !InFlight(states[k].callers[t])
    ensures At(states[k], steps[j].t) && states[k].callers[steps[j].t] == Crashed(states[k].currentExecID)
    ensures Broken(states[k]) && states[k].crashed == Some(steps[j].t)
  {
    var i := k - 1;
    assert Follows(states[i], steps[i], states[i + 1]);
    RunKeepsInv(states, steps, i);
    RunKeepsInv(states, steps, k);
    if j < i { PanicIsFinal(states, steps, j, i); }
    BrokenNext(states[i], steps[i], states[k]);
    if j < i { BrokenStays(states[i], steps[i]); }
    NobodyInFlight(states[k]);
  }

  lemma NobodyInFlight(s: State)
    requires MutexOk(s) && Broken(s)
    ensures forall t: Tid | At(s, t) :: !InFlight(s.callers[t])
  {}

  /** Only the newest history entry can be open, and it is open exactly while some caller is between
      starting its execution and recording the end, or has crashed there. */
  lemma OlderEntriesClosed(states: seq<State>, steps: seq<Step>, k: nat, i: nat)
    requires IsRun(states, steps) && k < |states| && i < |states[k].history.entries|
    ensures states[k].history.entries[i].end == None <==>
            i == |states[k].history.entries| - 1 &&
            exists t: Tid :: At(states[k], t) && (Open(states[k].callers[t]) || states[k].callers[t].Crashed?)
  {
    RunKeepsInv(states, steps, k);
    OpenEntry(states[k], i);
  }

  lemma OpenEntry(s: State, i: nat)
    requires Inv(s) && i < |s.history.entries|
    ensures s.history.entries[i].end == None <==>
            i == |s.history.entries| - 1 && exists t: Tid :: At(s, t) && (Open(s.callers[t]) || s.callers[t].Crashed?)
  {
    var h := s.history;
    if i < |h.entries| - 1 { assert h.entries[..|h.entries| - 1][i] == h.entries[i]; }
    if Broken(s) {
      assert At(s, s.crashed.value);
    } else if Open(Holder(s)) {
      assert At(s, s.executionMu.value);
    }
  }

  /** The entry read for the log line after an execution exists, is that execution's own, and holds its outcome. */
  lemma ReadsItsOwnEntry(states: seq<State>, steps: seq<Step>, k: nat, t: Tid)
    requires IsRun(states, steps) && k < |steps| && steps[k] == Read(t)
    ensures At(states[k], t) && states[k].callers[t].Reading?
    ensures |Recent(states[k].history, 1)| == 1
    ensures var e := Recent(states[k].history, 1)[0];
            e.id == states[k].callers[t].execID && e == Close(e, states[k].callers[t].o)
  {
    RunKeepsInv(states, steps, k);
    assert Follows(states[k], steps[k], states[k + 1]);
  }

  /** After a successful Pause the job stays paused until somebody calls Resume. */
  lemma {:induction false} StaysPaused(states: seq<State>, steps: seq<Step>, i: nat, k: nat)
    requires IsRun(states, steps) && i < k < |states|
    requires steps[i] == Pause && states[i].job != Executing
    requires forall j :: i < j < k ==> steps[j] != Resume
    ensures states[k].job == Paused
  {
    assert Follows(states[k - 1], steps[k - 1], states[k]);
    if i + 1 < k {
      StaysPaused(states, steps, i, k - 1);
      RunKeepsInv(states, steps, k - 1);
    }
  }

  /** So between the two no execution starts: whoever reaches the check is turned away, and the
      history gains no entry. */
  lemma NothingStartsWhilePaused(states: seq<State>, steps: seq<Step>, i: nat, k: nat, t: Tid, now: int)
    requires IsRun(states, steps) && i < k < |steps|
    requires steps[i] == Pause && states[i].job != Executing
    requires forall j :: i < j < k ==> steps[j] != Resume
    requires steps[k] == Begin(t, now)
    ensures states[k + 1].history == states[k].history && states[k + 1].job == Paused
    ensures At(states[k + 1], t) && states[k + 1].callers[t] == Unlocking
  {
    StaysPaused(states, steps, i, k);
    assert Follows(states[k], steps[k], states[k + 1]);
  }
}
