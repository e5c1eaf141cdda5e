# Verified model of the process manager's core

PHPeek PM is a process manager for containers. It starts processes in dependency order, supervises
them (crash, backoff, restart, scale, stop), runs scheduled jobs, rate-limits its API, keeps log lines
and metrics in rings, and reloads its configuration while running. This project models those parts in
Dafny and proves what they are for. `dafny verify dfyconfig.toml` checks everything.

Code that changes fields or loops in the program is a class or a method with a loop here, proved against a
specification; code where goroutines interleave is a step machine, one step per critical section or blocking
point, and its theorems hold in every run. Go's `range` over a map is a choice of an arbitrary remaining key,
so a result that is proved unique cannot depend on the iteration order. Times and floating-point numbers are
reals or integers, and clock readings are parameters.

| files | subject |
|---|---|
| Names, Sequences, Integers, Results | Go's string order with the in-place insertion sort; cutting sequences; maxima; option and result values |
| Digraph, CycleSearch, TopologicalOrder, DependencyGraph | the dependency graph: depth-first search with the cycle path, Kahn's algorithm |
| ConfigCycle | the second cycle search, in the configuration validator |
| Startup | the startup run that consumes the order |
| SupervisorMachine, SupervisorSafety, SupervisorScale, SupervisorStops, SupervisorEnding, SupervisorStrays, SupervisorRevival, SupervisorExamples | the supervisor as a step machine; what every run keeps; the numbering of the list; what stopping an instance achieves, and that a Stop can end well; how a live process comes to be unlisted, and that each loss can come back; runs that show it |
| Scaling, ScalingRuns | scaling calls on a manager, one at a time; the same calls on runs of the machine |
| JobHistory, ScheduledJob, JobProgress | the bounded execution history; the job's interleavings; what a call of the job achieves |
| TokenBucket, RateLimiter, VisitorCleanup | the token bucket, the visitor map, and why its clean-up cannot be seen |
| LogBuffer, LogMerge, TimeSeries | the two rings and the three-level log merge |
| HealthMonitor | hysteresis of health checks |
| FieldPath | from environment variable names to configuration fields |
| ProcessEquality, Reload, ReloadConvergence | the comparison of definitions, one reload, and sequences of reloads |
| AutoTune | sizing a PHP-FPM pool |

Findings where the code and its documentation or messages part ways; the model follows the code:

- A dependency listed twice counts twice in the in-degree and is counted off once, so a graph with a perfectly good
  order is rejected as "incomplete" (`DependencyGraph.RepeatedEntryExample`; success is characterised exactly).
- The configuration's cycle check reports a cycle where two places name the same undefined process
  (`ConfigCycle.FalseCycleExample`; the report is characterised exactly).
- A process that depends on a scheduled process never starts: "dependency not found" (`Startup.FriendlyOutcome`).
- `MaxConcurrent` above one is documented as parallel executions, but `executionMu` admits one at a time
  (`ScheduledJob.AtMostOneExecution`).
- `Supervisor.Start` does not look at the list it appends to: the list is numbered in all states of a run if and only if
  every Start that adds an instance begins from an empty list (`SupervisorScale.ListIsNumbered`).
- Not every live process is in the list. An instance is lost when ScaleDown, Stop or a failed ScaleUp drops it while its
  monitor can still restart it, but also when a late restart takes the place of a newer instance with the same number, and
  when an instance that ScaleUp has not yet listed is restarted. Every live process that is neither listed nor about to be
  listed by a restart descends from such a loss, and
  every such loss can lead to one (`SupervisorStrays.UnlistedWasLetGo`,
  `SupervisorRevival.EveryLossComesBack`).
- After a reload the supervisor of an unchanged process keeps its old configuration object, and scaling from zero
  reads the scale from that object: a successful call can end above both maxima (`Scaling.StaleScaleExample`; the exact
  condition is `Scaling.Manager.Bounded`, in the contract of `ScaleProcess`).
- A failed check below the threshold is reported healthy even while the monitor is down
  (`HealthMonitor.DisagreementNeedsTwo`, `DisagreementExists`).
- A reload can leave a stopped supervisor in the table: when stopping it returned an error (it is stopped all the same)
  and when its successor failed to start. No later reload retries until the definition changes
  (`ReloadConvergence.KeptButStopped`, `DivergenceStays`).
- A panic of a job's executor leaves the job executing for good: from then on every call is turned away
  (`ScheduledJob.AlreadyExecutingIff`, `PanicIsFinal`); nothing else stops a job for good (`JobProgress.OnlyPanicIsFinal`).
- With a memory threshold above one, a larger container can turn a successful calculation into an error
  (`AutoTune.MoreCpusCanFail`, `MoreMemoryCanFail`). Success carries over exactly if one of the three caps of the larger
  container stays within its memory (`SuccessCarriesOver`); for memory that stays fixed, `EveryCpuCountSucceeds` says when
  no number of CPUs fails.
- A request that is caught between look-up and use while its visitor is deleted does not count against its address: the
  bound for an address has one extra admission for each (`VisitorCleanup.AddressBound`).

## Model

| member | source | states |
|---|---|---|
| `Names.BeforeTotal` | internal/deps/graph.go:194-206 | byte order on names is total, so ties of the sort are equal names |
| `Names.LessIff` | internal/deps/graph.go:200 | the order is Go's on strings: decided at one place before which the two agree, by the smaller byte or by the end of the shorter |
| `Names.SortCorrect` | internal/deps/graph.go:194-206 | the insertion sort yields an ordered permutation |
| `Names.InsertInPlace` | internal/deps/graph.go:196-205 | one round leaves the prefix with the key inserted and the rest untouched |
| `Names.SortAlphabetically` | internal/deps/graph.go:194-206 | the array ends as the sorted permutation of its old contents |
| `Digraph.RankFalls` | internal/deps/graph.go:102-127 | along a cycle a finishing order would fall at every step |
| `Digraph.FinishedIsAcyclic` | internal/deps/graph.go:85-127 | a finishing order of all nodes shows there is no cycle |
| `CycleSearch.CyclePath` | internal/deps/graph.go:111-121 | the walk up `parent` terminates and spells a cycle without repetition that starts and ends with the node met again |
| `CycleSearch.Search.HasCycleDFS` | internal/deps/graph.go:102-127 | three-colour search: a reported path is a genuine simple cycle; otherwise the node is finished, the stack as before |
| `CycleSearch.HasCycle` | internal/deps/graph.go:85-99 | true exactly when a cycle exists; first = last, each element depends on the next; without a cycle the finishing order covers all nodes |
| `TopologicalOrder.LeastOrderUnique` | internal/deps/graph.go:132-191 | at most one order is the lexicographically least, so map iteration order cannot matter |
| `TopologicalOrder.NextIsReady` | internal/deps/graph.go:149-184 | after a common prefix the next node of any topological order is ready |
| `TopologicalOrder.GreedyIsLeast` | internal/deps/graph.go:149-184 | always taking the least ready node gives the lexicographically least of all topological orders |
| `TopologicalOrder.LeastIsGreedy` | internal/deps/graph.go:149-184 | and conversely: in the least order every element is the least ready node in its turn |
| `TopologicalOrder.SmallerFirst` | internal/deps/graph.go:149-206 | in the least order a node that could be taken now comes before every later one that is larger byte by byte |
| `TopologicalOrder.NothingStuck` | internal/deps/graph.go:143-190 | in an acyclic graph without repeated entries no node is ever stuck |
| `TopologicalOrder.CompleteIffNoRepeats` | internal/deps/graph.go:143-190 | in an acyclic valid graph the drained result is complete exactly when no list repeats an entry |
| `DependencyGraph.NewlyReady` | internal/deps/graph.go:170-183 | counting a node off makes a dependent ready exactly when that was its last open dependency |
| `DependencyGraph.Graph.AddNode` | internal/deps/graph.go:44-46 | the node's list is replaced, others stay |
| `DependencyGraph.Graph.Validate` | internal/deps/graph.go:67-82 | accepts exactly the graphs whose dependencies are other nodes; an error names an offender |
| `DependencyGraph.Graph.InitialQueue` | internal/deps/graph.go:149-158 | the in-degree zero nodes, once each, in alphabetical order |
| `DependencyGraph.Graph.Release` | internal/deps/graph.go:170-183 | the inner loop leaves exact in-degrees and a queue that is the ready set in alphabetical order |
| `DependencyGraph.Graph.Drain` | internal/deps/graph.go:143-184 | the result is the greedy order, and nothing is ready when the queue is empty |
| `DependencyGraph.Graph.TopologicalSort` | internal/deps/graph.go:132-191 | succeeds exactly for valid acyclic graphs without repeated entries, then with the least order; the cycle error exactly for valid cyclic graphs; "incomplete" exactly for valid acyclic graphs with a repeated entry |
| `DependencyGraph.RepeatedEntryExample` | internal/deps/graph.go:143-190 | a graph with a topological order that the sort rejects |
| `ConfigCycle.Search.HasCycle` | internal/config/config.go:217-239 | the recursive search; an undefined name stays on `recStack` |
| `ConfigCycle.CheckCircularDependencies` | internal/config/config.go:202-214 | reports exactly when there is a cycle or an undefined name at two places; agrees with the graph's search when all names are defined |
| `ConfigCycle.FalseCycleExample` | internal/config/config.go:217-239 | an acyclic configuration that is reported |
| `Startup.Manager.GetStartupOrder` | internal/process/manager_lifecycle.go:354-362 | the least order of the enabled processes, or an error that is true of the graph |
| `Startup.Manager.WaitForDependencies` | internal/process/manager_lifecycle.go:120-154 | stops at the first dependency that is scheduled or not ready; otherwise every dependency is up and was awaited |
| `Startup.Manager.RegisterScheduledProcess` | internal/process/manager_lifecycle.go:157-201 | registration happens only after all dependencies were awaited, and gives no supervisor |
| `Startup.Manager.StartRegularProcess` | internal/process/manager_lifecycle.go:204-245 | the supervisor is created, then started or marked ready, after all dependencies were awaited |
| `Startup.Manager.Handle` | internal/process/manager_lifecycle.go:56-86 | one turn of the startup loop has the outcome told from the configuration alone |
| `Startup.Manager.Start` | internal/process/manager_lifecycle.go:21-117 | success exactly when the order exists and, for every enabled process, its dependencies are unscheduled and answer ready if they have a readiness check, and it registers or starts; every error is true of the configuration and the environment; the run follows the least order and stops at the first error; on success every enabled process is up or registered |
| `Startup.OneOutcome` | internal/process/manager_lifecycle.go:21-117 | the outcome is determined: the first error of the one least order |
| `Startup.VerdictBlames` | internal/process/manager_lifecycle.go:120-245 | a process is let through exactly when nothing in the configuration or the environment stands in its way, told field by field |
| `Startup.FirstBlocks` | internal/process/manager_lifecycle.go:131-149 | the error names the first dependency of the list that is scheduled or not ready |
| `Startup.DependenciesFirst` | internal/process/manager_lifecycle.go:120-154 | in the log, whatever is done to a process comes after waiting for each dependency, and that after the dependency was created and started or marked ready |
| `Startup.Append` | internal/process/manager_lifecycle.go:56-86 | the log of everything done keeps: no process is touched before its dependencies are up and awaited |
| `Startup.FriendlyOutcome` | internal/process/manager_lifecycle.go:120-137 | if every call to the environment goes well, the run fails exactly when an enabled process waits for a scheduled one, with "dependency not found" |
| `Startup.NotFoundIsScheduled` | internal/process/manager_lifecycle.go:120-137 | whatever the environment does, "dependency not found" names a scheduled dependency of the process handled |
| `Startup.ScheduledDependencyExample` | internal/process/manager_lifecycle.go:120-137 | two processes, one scheduled and one waiting for it: every call goes well and the run fails |
| `SupervisorSafety.GoodStep` | internal/process/supervisor.go:384-495 | every step keeps each instance's process, state and monitor consistent |
| `SupervisorSafety.LinkedStep` | internal/process/supervisor.go:454-492 | the only uncounted process is in the hands of the operation or of one counted monitor |
| `SupervisorSafety.CountStep` | internal/process/supervisor.go:454-559 | the WaitGroup counter equals the number of counted goroutines after every step |
| `SupervisorSafety.NothingLeft` | internal/process/supervisor.go:690-757 | at counter zero, with no spawn under way, every monitor is gone and every process dead |
| `SupervisorSafety.RunKeepsInv` | internal/process/supervisor.go:311-1037 | the invariant holds in every state of every run |
| `SupervisorSafety.StopLeavesNothing` | internal/process/supervisor.go:690-757 | when Stop leaves its wait because the goroutines are done, no process ever spawned still runs, listed or not |
| `SupervisorSafety.CounterCounts` | internal/process/supervisor.go:454-559 | the counter is never negative and is zero only when nothing is counted |
| `SupervisorSafety.StoppedNeverRestarts` | internal/process/supervisor.go:760-785 | once stopInstance has seen an instance running and cleared `allowRestart`, its monitor never enters attemptRestart |
| `SupervisorStops.RemovedAreStopped` | internal/process/supervisor.go:586-687 | in every run, when ScaleDown, Stop or the clean-up of a failed ScaleUp has waited for its calls of stopInstance, none of the instances it removes is running, and unless a call gave up on it, its process is dead |
| `SupervisorStops.OthersAreSpared` | internal/process/supervisor.go:621-687 | and meanwhile no other instance has its restart switched off |
| `SupervisorStops.CancelledMeansNoRestart` | internal/process/supervisor.go:690-716 | in every run, after Stop has cancelled the context or a Start has failed, no instance that is not past its last look at the context is restarted before the next Start |
| `SupervisorStops.MonitorIsOver` | internal/process/supervisor.go:498-559 | in every run, a oneshot that ended, a refused restart, a cancelled backoff, an inactive context and a failed restart are final: no restart, and the state stays failed or completed, or stopped |
| `SupervisorEnding.StopCanEndWell` | internal/process/supervisor.go:690-785 | in every run, between operations, a Stop can end with no call giving up and without its timeout; then the list is empty, every process dead, every goroutine gone and the context forgotten |
| `SupervisorScale.ReplacedKeepsNumbers` | internal/process/supervisor.go:1029-1036 | putting a restarted instance into the list keeps numbers and length |
| `SupervisorScale.MonitorKeepsNumbers` | internal/process/supervisor.go:498-559 | crashes, exits and restarts change neither numbering nor length of the list |
| `SupervisorScale.OperateKeepsNumbers` | internal/process/supervisor.go:311-757 | every step of Start, ScaleUp, ScaleDown and Stop keeps the numbering, if an instance that Start adds carries the next number of the list |
| `SupervisorScale.StartAddIff` | internal/process/supervisor.go:323-335 | the instance a Start adds fits the numbering exactly if that Start began from an empty list; otherwise the list is out of order at once |
| `SupervisorScale.ListIsNumbered` | internal/process/supervisor.go:311-687 | in every run the list is name-0, name-1, ... in order in all states if and only if every Start that adds an instance begins from an empty list |
| `SupervisorScale.OperationResult` | internal/process/supervisor.go:311-757 | in every run, an operation that succeeds leaves a list of the length asked for, longer for ScaleUp and shorter for ScaleDown, whatever crashes, restarts and exits interleave with it |
| `SupervisorScale.FailsShort` | internal/process/supervisor.go:323-613 | in every run, a Start or ScaleUp fails only while instances are missing, and what a failed Start has added stays listed |
| `SupervisorScale.HelpersComeLast` | internal/process/supervisor.go:323-378 | in every run, once a Start has started a helper it starts no more instances and does not fail |
| `SupervisorScale.LengthBetween` | internal/process/supervisor.go:1028-1036 | between two operations the length of the list stays as it is |
| `SupervisorStrays.KeptOrCut` | internal/process/supervisor.go:562-757 | an instance leaves the list or the hands of an operation only when an operation drops it or a restart takes its place |
| `SupervisorStrays.StrayWasLetGo` | internal/process/supervisor.go:311-1037 | in every run, an instance that may live and that nobody answers for descends from one some step let go |
| `SupervisorStrays.UnlistedWasLetGo` | internal/process/supervisor.go:311-1037 | in every run, between operations, an unlisted live process is about to be listed by a restart or descends from an instance that was let go: dropped by ScaleDown, Stop or a failed ScaleUp, displaced by a restart, or missed by its own |
| `SupervisorStrays.LetGoComesBack` | internal/process/supervisor.go:968-1037 | conversely, whenever a step lets an instance go while the context is active, steps of monitors alone lead to a live unlisted descendant |
| `SupervisorRevival.Drive` | internal/process/supervisor.go:311-757 | any operation can come to its end without listing an instance that was let go |
| `SupervisorRevival.EveryLossComesBack` | internal/process/supervisor.go:311-1037 | in every run, whatever the operation under way and whatever has become of the context, an instance that was let go, or a descendant, can come to live between operations without being listed |
| `SupervisorExamples.LiveOutsideTheList` | internal/process/supervisor.go:675-687 | a run that shows the first case: in backoff at ScaleDown, then restarted |
| `SupervisorExamples.Displaced` | internal/process/supervisor.go:1028-1036 | a run that shows the second: the late restart of an instance that was scaled away takes the place of a newer live one |
| `SupervisorExamples.Missed` | internal/process/supervisor.go:589-613 | a run that shows the third: an instance crashes and is restarted before ScaleUp lists it |
| `SupervisorExamples.SecondStartRenumbers` | internal/process/supervisor.go:311-337 | a run in which a Start on a list that is not empty gives a second instance the number zero |
| `SupervisorExamples.HelperStarted` | internal/process/supervisor.go:339-378 | a run in which a Start without instances leaves a counted helper |
| `Scaling.Supervisor.Start` | internal/process/supervisor.go:311-381 | adds instances numbered from zero to whatever the list holds, up to the scale; success exactly when every start succeeds |
| `Scaling.Supervisor.ScaleUp` | internal/process/supervisor.go:562-618 | all new instances or none, with the next numbers |
| `Scaling.Supervisor.ScaleDown` | internal/process/supervisor.go:621-687 | the list is cut to the target whether or not the stops succeed |
| `Scaling.Supervisor.Stop` | internal/process/supervisor.go:690-757 | the list ends empty whatever the stops answer |
| `Scaling.Manager.SetScale` | internal/process/manager_scaling.go:143-151 | the scale of the manager's object changes, and that of the supervisor exactly if it shares the object |
| `Scaling.Manager.RefusalMeans` | internal/process/manager_scaling.go:13-60 | each refusal has its cause, and nothing else is refused |
| `Scaling.Manager.Outcome` | internal/process/manager_scaling.go:13-140 | the number of instances after success is the one asked for, exactly unless a stopped supervisor reads a stale configuration object |
| `Scaling.Manager.ScaleFromZero` | internal/process/manager_scaling.go:113-140 | the list is numbered from zero; success when the environment answers well |
| `Scaling.Manager.ScaleProcess` | internal/process/manager_scaling.go:13-140 | refusals change nothing; success ends at `Outcome` and keeps the numbering; the number of instances is within both maxima exactly if the list was not empty, zero was asked for, the config object is shared, or the scale in it is itself within the maxima; each failure's effect on list and configuration |
| `Scaling.Manager.AdjustScale` | internal/process/manager_scaling.go:156-190 | the same relative to the present number, never below zero |
| `Scaling.StaleScaleExample` | internal/process/manager_scaling.go:113-140 | 150 instances, a maximum of 100 and a stale config object: scaling to zero and then to one succeeds with 150 |
| `ScalingRuns.ScaleProcessOnRuns` | internal/process/manager_scaling.go:13-140 | in every run of the machine, a successful call ends with the number of instances the sequential model gives, whatever crashes, exits and restarts interleave with its operations |
| `ScalingRuns.ZeroIsStop` | internal/process/manager_scaling.go:97-110 | in every run, a successful call for zero instances is a Stop: it ends with an empty list and no context |
| `ScalingRuns.CanFinish` | internal/process/supervisor.go:311-757 | from every state that a run can reach with a Start, ScaleUp, ScaleDown or Stop under way, the operation can come to a successful end with no call of stopInstance giving up |
| `ScalingRuns.CanScale` | internal/process/manager_scaling.go:13-140 | every run that is between operations can go on by a successful call, whatever number is asked for, with no instance given up on |
| `JobHistory.StartIsValid` | internal/schedule/history.go:72-91 | ids stay consecutive and the length bounded when the oldest entry is dropped |
| `JobHistory.RetainsNewest` | internal/schedule/history.go:72-91 | of all ids ever handed out, exactly the newest are retained |
| `JobHistory.RecentMeans` | internal/schedule/history.go:124-138 | newest first: how many entries, and which in each place |
| `JobHistory.ExecutionHistory.StartExecution` | internal/schedule/history.go:72-91 | appends an open entry with the next id, trims the oldest, and it is the most recent entry |
| `JobHistory.ExecutionHistory.EndExecution` | internal/schedule/history.go:94-108 | closes the entry with that id and no other, if it is still retained |
| `JobHistory.ExecutionHistory.GetRecent` | internal/schedule/history.go:124-138 | newest first, all for a count that is not positive or too large |
| `JobHistory.ExecutionHistory.GetByID` | internal/schedule/history.go:141-151 | found exactly when the id is among the newest retained |
| `ScheduledJob.MutexStep` | internal/schedule/job.go:286-290 | at most one caller holds `executionMu` after every step |
| `ScheduledJob.HistoryStep` | internal/schedule/job.go:286-348 | every step keeps all history entries but the newest closed |
| `ScheduledJob.RunKeepsInv` | internal/schedule/job.go:195-348 | the invariant holds in every state of every run, with any number of callers |
| `ScheduledJob.AtMostOneExecution` | internal/schedule/job.go:286-348 | at most one execution is in flight, and the job shows its id |
| `ScheduledJob.AlreadyExecutingIff` | internal/schedule/job.go:286-308 | behind `executionMu` the job is found executing exactly if some execution has panicked before; without a panic the branch is dead |
| `ScheduledJob.PanicIsFinal` | internal/schedule/job.go:286-338 | after a panic the job stays executing, nothing is executed any more, and the history stays as it is |
| `ScheduledJob.OlderEntriesClosed` | internal/schedule/history.go:72-108 | an entry is open exactly if it is the newest and some caller is between start and end, or has panicked there |
| `ScheduledJob.ReadsItsOwnEntry` | internal/schedule/job.go:340-348 | the entry read after an execution is the execution's own, with its outcome |
| `ScheduledJob.StaysPaused` | internal/schedule/job.go:195-223 | after a successful Pause the job is paused until the next Resume |
| `ScheduledJob.NothingStartsWhilePaused` | internal/schedule/job.go:286-308 | in between, a caller that reaches the check is turned away and the history gains nothing |
| `JobProgress.RefusedIff` | internal/schedule/job.go:248-276 | in every run a caller of Trigger or TriggerSync is refused exactly if the job was paused or executing when that caller looked |
| `JobProgress.IdleJobExecutes` | internal/schedule/job.go:229-308 | in every run, with the job idle and `executionMu` free, a call by schedule or by hand gets through to an execution, with an open newest entry that names its trigger |
| `JobProgress.IdleJobCompletes` | internal/schedule/job.go:229-348 | and it ends with the job idle, the mutex free and one more entry: the next id, the trigger, the times and the outcome of the executor |
| `JobProgress.ResumeEndsPause` | internal/schedule/job.go:195-223 | the first Resume after a successful Pause makes the job idle, so that it executes again |
| `JobProgress.CanBePaused` | internal/schedule/job.go:195-206 | a job that does not execute can always be paused |
| `JobProgress.OnlyPanicIsFinal` | internal/schedule/job.go:195-348 | in every run the job can come back to where a call executes it, without a new call, exactly if no execution has panicked |
| `TokenBucket.TokenBucket.Allow` | internal/api/server.go:136-157 | one request refills, caps and takes a token exactly when one is there |
| `TokenBucket.LevelInRange` | internal/api/server.go:136-157 | the level stays in [0, capacity] over every run with a nondecreasing clock |
| `TokenBucket.LevelIsLeastBudget` | internal/api/server.go:126-157 | the level is the minimum over all starting points of capacity + gain since - admitted since |
| `TokenBucket.WindowBound` | internal/api/server.go:126-157 | a window of length T admits at most capacity + rate*T |
| `TokenBucket.RefusesOnlyWhenItMust` | internal/api/server.go:136-157 | a request is refused exactly when admitting it would break the bound of some window ending with it |
| `RateLimiter.RateLimiter.constructor` | internal/api/server.go:56-70 | no visitors, and the parameters as given |
| `RateLimiter.RateLimiter.Visit` | internal/api/server.go:79-92 | an unknown address gets a full bucket of its own, a known one keeps its object |
| `RateLimiter.RateLimiter.Allow` | internal/api/server.go:79-100 | only the entry of this address changes, and the answer is its own bucket's |
| `RateLimiter.RateLimiter.CleanupVisitors` | internal/api/server.go:103-123 | exactly the visitors idle for more than ten minutes are deleted |
| `VisitorCleanup.Deleted` | internal/api/server.go:103-123 | a visitor idle long enough to be deleted would have a full bucket |
| `VisitorCleanup.Simulation` | internal/api/server.go:79-123 | for the requests that are not caught, the limiter with clean-up simulates one bucket per address that is never thrown away |
| `VisitorCleanup.OwnBucketDecides` | internal/api/server.go:79-123 | an address is told what a bucket of its own would tell it, however other addresses, clean-up and caught requests interleave |
| `VisitorCleanup.CleanupIsInvisible` | internal/api/server.go:103-123 | two limiters with different clean-up passes decide alike |
| `VisitorCleanup.NewServerIsSafe` | internal/api/server.go:247 | rate 100 and burst 200 meet the condition |
| `VisitorCleanup.AddressBound` | internal/api/server.go:79-157 | the window bound holds for each address over every run, clean-up or not, with one more admission for each request that was caught by a pass |
| `VisitorCleanup.CleanupShowsWhen` | internal/api/server.go:103-123 | deleting a visitor changes the next answer exactly when its bucket would be below one token and the capacity is not |
| `VisitorCleanup.CaughtRequest` | internal/api/server.go:79-119 | the extra admission is real: after a caught request the limiter is ahead by at most one token, exactly until that token is regained |
| `VisitorCleanup.CaughtRunExceeds` | internal/api/server.go:79-119 | a run in which it happens: with one token a caught request and the next one are both admitted in the same second |
| `LogBuffer.LogBuffer.constructor` | internal/logger/log_buffer.go:28-38 | an empty ring, of default size for a size that is not positive |
| `LogBuffer.LogBuffer.Add` | internal/logger/log_buffer.go:41-52 | the line is appended to the abstract log; the ring holds its newest `size` lines |
| `LogBuffer.LogBuffer.GetAll` | internal/logger/log_buffer.go:55-76 | the last `size` lines since the last Clear, oldest first |
| `LogBuffer.LogBuffer.GetRecent` | internal/logger/log_buffer.go:79-117 | the last min(n, count) of those |
| `LogBuffer.LogBuffer.Clear` | internal/logger/log_buffer.go:120-126 | the abstract log is empty again |
| `LogBuffer.LogBuffer.Size` | internal/logger/log_buffer.go:129-137 | the number of retained lines |
| `LogMerge.AsNewFirst` | internal/process/supervisor.go:1311-1314 | cutting a list ordered newest first keeps min(n, count) of the lines as new as any given time |
| `LogMerge.AsNewLast` | internal/logger/log_buffer.go:79-117 | so does keeping the end of a buffer filled in time order |
| `LogMerge.CountsDetermineStamps` | internal/process/manager_logs.go:43-52 | ordered lists with the same counts have the same timestamps |
| `LogMerge.CutOnce` | internal/process/manager_logs.go:33-54 | cutting the parts and then the whole counts like cutting once |
| `LogMerge.SameConcat` | internal/process/manager_logs.go:37-41 | joining parts that a cut cannot tell from the full ones keeps that |
| `LogMerge.SortNewestFirst` | internal/process/supervisor.go:1306-1309 | an ordered permutation, nothing promised on equal timestamps |
| `LogMerge.HoldingsMean` | internal/process/supervisor.go:1279-1304 | what is held are the retained lines of both streams of every instance |
| `LogMerge.HeldCounts` | internal/process/supervisor.go:1279-1304 | with their multiplicities |
| `LogMerge.GetLogs` | internal/process/supervisor.go:1274-1317 | the timestamps of sorting all retained lines of the process once and cutting once |
| `LogMerge.HoldingsInAnyOrder` | internal/process/manager_logs.go:37-41 | whatever order the map is ranged over, the same lines are held |
| `LogMerge.GetStackLogs` | internal/process/manager_logs.go:33-54 | the same for all processes, for every order the map may be ranged over, although lines are cut per writer, per supervisor and per stack |
| `TimeSeries.TimeSeriesBuffer.constructor` | internal/metrics/timeseries.go:29-40 | an empty ring, of default size for a size that is not positive |
| `TimeSeries.TimeSeriesBuffer.Add` | internal/metrics/timeseries.go:43-53 | the sample is appended to the abstract log |
| `TimeSeries.TimeSeriesBuffer.GetRange` | internal/metrics/timeseries.go:56-83 | the chronological last `limit` of the retained samples at or after `since`, all of them for a limit that is not positive or too large |
| `TimeSeries.SinceMeans` | internal/metrics/timeseries.go:56-83 | the samples wanted are those at or after `since`, each as often as it is stored |
| `TimeSeries.TimeSeriesBuffer.Latest` | internal/metrics/timeseries.go:104-114 | the newest sample, if any |
| `TimeSeries.TimeSeriesBuffer.Clear` | internal/metrics/timeseries.go:117-124 | the abstract log is empty again |
| `HealthMonitor.AfterFailure` | internal/process/healthcheck.go:208-236 | a failed check takes the monitor down exactly when it completes F failures in a row |
| `HealthMonitor.AfterSuccess` | internal/process/healthcheck.go:238-267 | a monitor that is down stays down until S successes in a row are complete |
| `HealthMonitor.Monitor.PerformCheck` | internal/process/healthcheck.go:193-267 | after any history the flag is false exactly when some F failures in a row were not followed by S successes in a row; the status reported differs only on a failed check below the threshold |
| `HealthMonitor.FlapBound` | internal/process/healthcheck.go:193-267 | over n checks, falls*F + recoveries*S is at most n, and the two alternate |
| `HealthMonitor.DisagreementNeedsTwo` | internal/process/healthcheck.go:233-236 | a failed check is reported healthy while the monitor is down only if both thresholds exceed one |
| `HealthMonitor.DisagreementExists` | internal/process/healthcheck.go:233-236 | and with both above one it happens |
| `FieldPath.BuildFieldNode` | internal/config/envsubst.go:91-119 | the tree has exactly the usable fields, each under its normalised name; a later field of the same name wins |
| `FieldPath.DescribedIsWellKeyed` | internal/config/envsubst.go:91-128 | every child of such a tree sits under the normalised form of its own key |
| `FieldPath.JoinSplit` | internal/config/envsubst.go:236-238 | joining what was split gives the name back |
| `FieldPath.NormalizeMeans` | internal/config/envsubst.go:126-128 | the normal form letter by letter: hyphens become underscores, capitals small letters, the rest stays; it is idempotent |
| `FieldPath.UsableMeans` | internal/config/envsubst.go:103-111 | a field is usable exactly if its tag names it, up to the first comma, by something other than a hyphen |
| `FieldPath.MatchFieldPath` | internal/config/envsubst.go:130-148 | a path is found exactly when some cut of the tokens walks down the tree, and then along the longest-first cut of all workable ones |
| `FieldPath.LongestFirstMeans` | internal/config/envsubst.go:135-145 | longest-first: the longer group where two cuts first differ |
| `FieldPath.LongestFirstUnique` | internal/config/envsubst.go:135-145 | there is at most one longest-first cut, so the path found is determined |
| `FieldPath.PathSpellsTokens` | internal/config/envsubst.go:126-148 | the normalised keys of the path, joined, reproduce the joined tokens |
| `FieldPath.EveryPathHasACut` | internal/config/envsubst.go:126-148 | the variable spelt from any field's path has a cut that walks exactly that path |
| `FieldPath.BuildPathFromKey` | internal/config/envsubst.go:236-243 | a path is returned exactly when some field has that name; it leads to a field of that name |
| `ProcessEquality.SameIsEquivalence` | internal/config/types.go:570-614 | sameness of definitions is reflexive, symmetric and transitive |
| `ProcessEquality.StringSliceEqual` | internal/config/types.go:617-627 | true exactly for equal lists |
| `ProcessEquality.StringMapEqual` | internal/config/types.go:630-640 | true exactly for equal maps: equal size and one inclusion suffice |
| `ProcessEquality.HealthCheckEqual` | internal/config/types.go:643-661 | true exactly for equal or both absent health checks |
| `ProcessEquality.ShutdownConfigEqual` | internal/config/types.go:664-679 | true exactly for equal or both absent shutdown settings |
| `ProcessEquality.HookEqual` | internal/config/types.go:682-697 | true exactly for equal or both absent hooks |
| `ProcessEquality.Equal` | internal/config/types.go:570-614 | true exactly when both are absent, or both present and equal in each of the fourteen fields that count |
| `ProcessEquality.SameMeans` | internal/config/types.go:570-614 | sameness is equality of those fourteen fields, one by one |
| `Reload.Manager.Plan` | internal/process/manager_config.go:253-276 | the three lists hold exactly the removed, the new and the changed names |
| `Reload.Manager.StopRemovedProcesses` | internal/process/manager_config.go:305-315 | the names leave the table and exactly their supervisors are stopped, whatever errors the stops return |
| `Reload.Manager.StartNewProcesses` | internal/process/manager_config.go:318-333 | exactly the enabled names that start get new running supervisors |
| `Reload.Manager.UpdateProcess` | internal/process/manager_config.go:336-372 | one changed process: its supervisor is stopped, and kept, removed or replaced by whether the stop returns an error, it is enabled and its successor starts |
| `Reload.Manager.UpdateChangedProcesses` | internal/process/manager_config.go:336-372 | that for every changed name, and nothing else changes |
| `Reload.Manager.ReloadConfig` | internal/process/manager_config.go:237-302 | the fate of every name for any failures; the supervisors of removed and changed processes are stopped, no others, and every new one runs; nothing changes without a readable file |
| `Reload.StepsReload` | internal/process/manager_config.go:284-294 | stop, start and update compose to the fate of every name told from the two configurations |
| `ReloadConvergence.ConvergedIff` | internal/process/manager_config.go:237-372 | from an agreeing table one reload reaches agreement exactly if no failure touches a changed name or a new one |
| `ReloadConvergence.RunConverges` | internal/process/manager_config.go:237-372 | after any number of failure-free reloads the keys are the enabled names of the newest configuration and each definition is equal to the newest |
| `ReloadConvergence.StartupConverges` | internal/process/manager_lifecycle.go:204-245 | the table a successful startup leaves, with nothing scheduled, agrees with the configuration, so runs of reloads can begin there |
| `ReloadConvergence.UnchangedKeepsObject` | internal/process/manager_config.go:265-294 | while its definition stays the same a process keeps the same supervisor object |
| `ReloadConvergence.ObjectStaysIff` | internal/process/manager_config.go:265-294 | in a failure-free reload an object stays exactly when its definition does |
| `ReloadConvergence.RestartsWhenDifferent` | internal/process/manager_config.go:237-372 | a failure-free reload of a process enabled before and after replaces its supervisor by a running one with the new definition, and stops the old one, exactly when one of the fourteen fields is different |
| `ReloadConvergence.DivergenceStays` | internal/process/manager_config.go:328-369 | a name that disagrees with its definition stays so until a reload changes the definition |
| `ReloadConvergence.ChangeRepairs` | internal/process/manager_config.go:336-372 | a changed definition that meets no failure puts the name right, whatever the table held |
| `ReloadConvergence.KeptButStopped` | internal/process/manager_config.go:343-359 | a stopped supervisor stays in the table exactly when its process has changed and stopping it returned an error or its successor fails to start |
| `ReloadConvergence.StoppedExample` | internal/process/manager_config.go:343-359 | a reload for either case |
| `AutoTune.BoundsMean` | internal/autotune/calculator.go:84-133 | the worker counts by threshold and by limit mean that total memory stays below them |
| `AutoTune.OverrideReplaces` | internal/autotune/calculator.go:84-95 | a positive override acts like a profile with that threshold, any other changes nothing |
| `AutoTune.MaxChildren` | internal/autotune/calculator.go:132-162 | the pool is the largest number allowed by memory, CPUs and profile, but never below the minimum |
| `AutoTune.SpareServers` | internal/autotune/calculator.go:170-187 | 1 <= MinSpare <= StartServers <= MaxSpare <= MaxChildren, each the least number its ratio asks for |
| `AutoTune.Configure` | internal/autotune/calculator.go:164-229 | fails exactly when the pool does not fit the container; the spare checks never reject |
| `AutoTune.Calculate` | internal/autotune/calculator.go:58-200 | each error has one cause; on success memory fits, the pool is the size asked for and the spare settings are in order |
| `AutoTune.ConfiguredUnique` | internal/autotune/calculator.go:164-200 | a container has one configuration of a given size |
| `AutoTune.ConfiguredIsSafe` | internal/autotune/calculator.go:164-229 | it fits the memory limit, and its spare settings are in order and at least their ratios of the pool over the reals |
| `AutoTune.ValidateMeans` | internal/autotune/calculator.go:203-229 | the validation lets through exactly what fits and, in dynamic mode, has its settings in order |
| `AutoTune.CalculateSucceeds` | internal/autotune/calculator.go:58-200 | success is exactly `Succeeds` |
| `AutoTune.SucceedsWhen` | internal/autotune/calculator.go:84-229 | for any threshold: success exactly when one worker fits the threshold, the smallest pool fits the container, and one of the caps by threshold, CPUs or profile does |
| `AutoTune.CappedMeans` | internal/autotune/calculator.go:132-229 | a cap holds exactly if the memory of the capped pool is within the limit |
| `AutoTune.SucceedsIff` | internal/autotune/calculator.go:84-229 | for thresholds up to one: success exactly when one worker fits the threshold and the smallest pool fits the container |
| `AutoTune.PoolGrows` | internal/autotune/calculator.go:112-162 | more memory or CPUs never lowers MaxChildren |
| `AutoTune.SuccessCarriesOver` | internal/autotune/calculator.go:58-229 | for any threshold: success carries over to a container with more memory or CPUs exactly if one of its caps stays within its memory |
| `AutoTune.SuccessGrows` | internal/autotune/calculator.go:58-229 | for thresholds up to one, more memory or CPUs never turns success into failure |
| `AutoTune.EveryCpuCountSucceeds` | internal/autotune/calculator.go:132-229 | for any threshold, the exact condition under which no number of CPUs fails |
| `AutoTune.MoreCpusCanFail` | internal/autotune/calculator.go:91-162 | with threshold 1.3 a second CPU turns success into failure |
| `AutoTune.MoreMemoryCanFail` | internal/autotune/calculator.go:91-162 | with threshold 1.1 so does more memory |

## Left out

- HTTP handlers, middleware, TLS, access lists, terminal UI, tracing, metrics export, audit log, scaffolding and command-line code: plumbing around the modelled core.
- Operating system processes, signals, files, cgroups, YAML, JSON, cron expressions and regular expressions: their answers are parameters or steps that may happen at any time.
- Lifecycle hooks, one-shot history, readiness files, multiline log handling, defaults and linting: easier members than those modelled.
- Shutdown order: all stops are launched in parallel, so "dependents are down before their dependencies" does not hold; only the list order is reversed.
- Restart policies and backoff lengths: in the supervisor machine the answer to "restart?" is arbitrary, and so are exit codes and the choice between one-shot and long-running; a limit on restarts is not claimed, because the counter is written after the new monitor runs.
- Health and metrics goroutines of a supervisor are counted but have no behaviour of their own; a health kill is the exit of a process.
- The 5 s timeout of Stop is a step after which nothing is claimed about processes still running.
- A nil process state in `stopInstance` and the panic that would follow are not part of the machine.
- Scheduled job: what a panic does beyond the job is not modelled; in a goroutine of the scheduler it ends the program, in a request it is recovered.
- Integers are unbounded; the 64-bit wrap-around of ids, counters and backoff products is not modelled.
- Names and keys are sequences of characters that stand for bytes; `strings.ToLower` is modelled for ASCII letters only.
- Startup: supervisors are values here; the readiness wait and the start of a process are answers of the environment.
- Scaling: errors of a scaling call are stated for the sequential model only; on runs of the machine, successful calls are.
- Rate limiter: apart from requests that are caught by a clean-up pass, requests do not overlap in a run, and a pass reads the clock once. The answer of a caught request is left open.
- Log merge: each writer's buffer is read as a snapshot; lines added while a merge runs are not modelled, and `sort.Slice` is any stable or unstable sort.
- LogMerge.GetStackLogs: takes a limit that is not negative, since a negative one makes Go panic, and buffers whose lines were added in time order.
- LogBuffer.LogBuffer.GetRecent: takes a count that is not negative, since Go panics on a negative slice length.
- Health monitor: the ticker, the initial delay and the check itself; only the outcome of each check enters.
- Environment overrides: parsing of values and the nested map writes; only the choice of the path is modelled.
- Reload: a supervisor is its configuration and whether it is marked running; what its processes do after a stop that returned an error is the subject of the supervisor machine.
- Reload: the supervisors of scheduled processes and changes of scale between reloads; with either, the table need not agree with the configuration. Logging and heartbeat settings, which `Equal` ignores, are not fields of the model.
- AutoTune: floating-point rounding is replaced by real arithmetic, and warnings are erased.
- AutoTune.Calculate: requires a profile whose workers use memory and whose ratios lie between 0 and 1, as all five profiles of the program do.
