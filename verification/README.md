# Pipeline scheduler: a verified model

This project models the DAG task scheduler of a pipeline run and proves properties of it in Dafny 4.11.
`dafny verify dfyconfig.toml` checks everything.

A pipeline is a list of tasks linked by dependencies. A scheduler keeps a counter of open inputs per task,
queues a run for every task whose counter is zero on a bounded channel, and processes one report at a time from
an unbuffered channel. A runner takes runs from the channel and executes each in its own goroutine. A report
can be a result, an error that is retried after a while, an error of a fail-early task, which cancels everything
that has no result yet, or the news that the task stays pending, which suspends the run. At the end the results
map is folded into ordered outputs, errors and a run state. A suspended run is resumed by building a new
scheduler from its saved task runs.

## How it is organised

| module | what it is about |
|---|---|
| Values, Ordering, Keypaths, Variables | Go values and errors, sorting, keypaths, the variables of a run (class `Vars`) |
| Pipelines, Graphs | tasks and well-formed pipelines; the task graph, implicit edges and re-linking (class `Graph`) |
| Scheduling | the scheduler state and every event that can happen to it; runs as traces of events |
| Tokens, Releases, Ledgers, Invariants | the invariant of every reachable state |
| Runs, Startup, Resume | saved task runs, construction and reconstruction, suspend and resume |
| Reruns, Suspensions | when a restored task runs again, and so which suspended runs can be resumed |
| Completeness, FailEarly, Phases, Counting, Termination | properties of whole runs |
| Provenance | where every result, attempt count and flag comes from |
| Readiness, Dispatches | what a task run carries when it is dispatched: its inputs and its variables |
| Evaluation, Determinism | a recursive reference evaluation of a pipeline, and schedule independence |
| Runner | the results fold, `FinalResult`, and their agreement (class `PipelineRun`) |
| Schedulers | the scheduler as an object whose methods are proved to make the steps of the state machine (class `Scheduler`) |
| Getters | JSON interpolation on shared maps and slices (class `Memory`) |
| Worklists | when the worklist of the interpolation ends, if variables may hold markers too |

The scheduler state holds the fields of the Go struct (`dependencies`, `waiting`, `results`, `vars`, `pending`,
`exiting`, the task channel) and the goroutines around it, each of which is executing a run, sleeping until a
retry, or blocked with a report. An event is a dispatch, the return or panic of a task, a timer that fires or is
cancelled, the processing of a report, the close of the channel, the return of the runner, or the discarding of a
report through the report context. A run is any sequence of events that channels, contexts and goroutines allow.
So every statement about `IsRun(p, s0, tr)` is about every interleaving, every result and every time.

`Inv` is the invariant. It says that no task owns two tokens (queued, executing, sleeping, reporting) and that
`waiting` counts the tokens; that whoever owns a token has all inputs finally completed; that every counter is the
number of inputs that are not finally completed, that results are closed under predecessors and that no ready task
is forgotten, until the scheduler exits; that every task has a result once it exits; that `pending` is raised
exactly by a pending result; that a token carries the stored attempt count, which leaves room for one more try; and
that the channel is closed only when nothing is waiting. `Startup.StartsWell` says exactly when a new scheduler
satisfies it, and `Invariants.RunKeeps` that it then holds forever.

## Assumptions

- DotIDs are distinct and non-blank and contain no ".", where variables matter (`PlainDotIDs`). The source refuses
  other names in `Vars.Set`, logs that, and goes on; so does the model.
- Saved task runs have distinct DotIDs. That the finished ones are closed under predecessors is proved necessary and
  sufficient for the invariant (`Startup.StartsWell`) and for no restored task to run again
  (`Reruns.ClosedExactlyIfNoRerun`). `Suspensions.ResumableExactly` says which suspended runs save such a set. The
  properties of whole runs are about schedulers built from one.
- A task that stays pending returns neither a value nor an error (`BarePending`). `Resume.PendingSurvivesIffBare`
  says what happens otherwise.
- The predicates of `gopkg.in/guregu/null.v4` and of `chainlink-common/pkg/utils/jsonserializable` mean what their
  names say: a null value is zero exactly if it is not valid, and a JSON column is empty exactly if it is not valid.
- Every event is one atomic step. This includes the read of the results by a retry goroutine, whose answer
  `Readiness.RetriesGetSameInputs` shows to be independent of its time. The race of that read with a write to
  another key of the Go map is outside the model.
- `sort.Slice` may order equal keys as it likes. The inputs of a run are sorted by a stable sort in the model;
  `Determinism.InputOrderIsForced` shows that any other sort gives the same when output indices are distinct. The
  sorts of the results fold are only assumed to give some sorted permutation.
- Times are integers, with 0 as the zero time. `dependencies` and `waiting` count without bound upwards; the
  decrement wraps as the one of a 64-bit Go `uint` does, and is proved never to.
- Errors are known by their message. A wrapped error keeps the identity of what it wraps and loses the added text.
- Values are finite and immutable, except in `Getters` and `Worklists`, where maps and slices are references into one
  store. The elements of a slice are the children under index keys.
- For `Getters.Memory.MapGoValue`, no map of a variable has the reserved key of a marker. The worklist walks into the
  variables it finds, so a marker there is replaced in the variable itself and can lead back to it.
  `Worklists.EndsExactly` says when the worklist ends without this assumption, and `Worklists.MarkerInVariableLoops`
  is a variable with which it does not.
- A graph node comes with the insides of its variable expressions and with the outcome of decoding its attributes;
  a topological order comes with the graph; JSON comes decoded into maps and slices.

## Model

| member | source | states |
|---|---|---|
| Keypaths.ParseRoundTrips | pipeline/keypath.go:23-39 | keypaths are refused exactly if they have an empty segment (a leading, trailing or double dot); accepted ones split into non-empty dot-free parts that rejoin to the input, and every list of such parts is the split of its join |
| Variables.Vars.Get | pipeline/variables.go:35-78 | the segment-by-segment walk finds what navigating the tree of variables finds, with the same error |
| Variables.LookupOfName | pipeline/variables.go:48-53 | a lookup of one segment is the variable of that name, or not found |
| Variables.UnknownVariable | pipeline/variables.go:48-53 | a lookup whose first segment names no variable is not found |
| Variables.LookupOneMore | pipeline/variables.go:46-74 | one segment more: a map has the key or it is not found; a slice has the element, or is out of range, or the text is no number; a scalar has nothing; an error stays |
| Variables.LookupRefuses | pipeline/variables.go:36-43 | exactly blank keypaths ask for the root, and exactly those with an empty segment are malformed |
| Variables.NumbersAre | pipeline/variables.go:55-61 | an index may have a sign and leading zeros and must fit into 64 bits; text with any other character is none |
| Variables.NamesAccepted | pipeline/variables.go:83-88 | exactly blank and dotted names are refused, each with its error; any other is accepted without the whitespace around |
| Variables.Vars.Set | pipeline/variables.go:82-93 | assigns the trimmed name, or refuses blank and nested names and changes nothing |
| Variables.Vars.Copy | pipeline/variables.go:97-104 | a new object with the same entries |
| Variables.SetOnCopy | pipeline/variables.go:82-104 | whatever is set on a copy, no lookup in the original changes |
| Variables.StepIndexes | pipeline/variables.go:54-71 | in a slice the decimal form of an index finds its element, or is out of range beyond the end and below zero; an empty segment is no index |
| Variables.LookupComposes | pipeline/variables.go:35-78 | a lookup of "p.q" is the lookup of p followed by navigation along q, errors included |
| Variables.LookupReadsOneEntry | pipeline/variables.go:45-54 | a lookup depends only on the variable named by the first segment of its keypath |
| Variables.LookupAfterAssign | pipeline/variables.go:82-93 | an accepted assignment is read back, and is invisible to keypaths with another first segment |
| Graphs.Graph.AddImplicitDependenciesAsEdges | pipeline/graph.go:57-87 | whatever the order of visiting nodes, an edge is there exactly if it was there before or its target references its distinct source; old edges are untouched and new ones are implicit |
| Graphs.EdgesAre | pipeline/graph.go:61-86 | edge by edge: written down, or from a distinct node whose name is the first segment of one of the target's expressions |
| Keypaths.FirstSegmentIs | pipeline/graph.go:66-68 | the first segment is what precedes the first dot, without the whitespace around |
| Keypaths.TrimOfPadded | pipeline/variables.go:36 | trimming takes away exactly the whitespace around |
| Graphs.ImplicitMeansAdded | pipeline/graph.go:81-97 | for a graph without marked edges, an edge is implicit exactly if it is referenced and was not written down, and explicit exactly if it was |
| Graphs.CompletingTwice | pipeline/graph.go:57-87 | the result does not depend on the order of visiting, and a second application adds nothing |
| Graphs.ParamsAre | pipeline/graph.go:61-69 | the names a node references are the first segments of its variable expressions |
| Graphs.LinkInputs | pipeline/graph.go:238-252 | whatever the order of visiting sources, the inputs are one dependency per incoming edge, listed by id, and each source has the new position appended to its outputs once |
| Graphs.Relink | pipeline/graph.go:212-258 | given a topological order, fails exactly at the first node that has the reserved name or cannot be decoded, with its error, and else links every task |
| Graphs.FirstErrorIs | pipeline/graph.go:226-234 | the first node that is no task decides, and a reserved name comes before a failed decoding |
| Graphs.RelinkedIsWellFormed | pipeline/graph.go:213-256 | ids are positions, inputs are earlier and sorted, inputs and outputs are inverse, without repetition, and match the edges; a result is propagated exactly along explicit edges; names and attributes are those of the nodes |
| Graphs.ParsedRefsAreInputs | pipeline/graph.go:57-87 | so the re-linked tasks of a completed graph meet the hypothesis of schedule independence, if their names have no surrounding space and none references itself |
| Graphs.ReferencesBecomeInputs | pipeline/graph.go:64-86 | every other task whose variable a task references is one of its inputs |
| Pipelines.ByDotID | pipeline/graph.go:186-193 | the first task with the DotID, or none if there is none |
| Startup.RestoreCounts | pipeline/scheduler.go:113-160 | reconstruction of known, distinct task runs gives exactly the finished tasks results, and every counter is the number of inputs that are not finished |
| Startup.RestorePanics | pipeline/scheduler.go:115-120 | reconstruction panics exactly if some saved run has no task |
| Startup.FirstOwners | pipeline/scheduler.go:90-108 | the first queue holds exactly the tasks that have counter zero and no result |
| Startup.FirstConserved | pipeline/scheduler.go:82-84 | each of them once, counted by `waiting`, within the capacity of the channel |
| Startup.StartsWell | pipeline/scheduler.go:66-111 | a new scheduler satisfies the invariant of all runs exactly if the finished saved runs are closed under predecessors |
| Startup.StartsFresh | pipeline/scheduler.go:66-111 | a first run always starts in the invariant |
| Invariants.StepKeeps | pipeline/scheduler.go:162-274 | every event keeps the invariant, and a task that has a result and no token keeps that result and never gets a token again |
| Invariants.RunKeeps | pipeline/scheduler.go:162-274 | the invariant holds in every reachable state |
| Invariants.ContinuingIsStable | pipeline/scheduler.go:184-185 | a settled result stands in every later state, also while exiting |
| Invariants.ExitLedger | pipeline/scheduler.go:206-219 | the step that exits, and every report after it, gives each remaining task a cancelled result and overwrites no other result |
| Invariants.MarkRemainingFills | pipeline/scheduler.go:276-288 | cancels exactly the tasks without a result |
| Invariants.CompleteReportKeeps | pipeline/scheduler.go:257-270 | completing a task books exactly its completion: its outputs lose one open input each, and those without any left get a token |
| Invariants.NothingAfterClose | pipeline/scheduler.go:273 | after the close nothing is queued, executing, sleeping or reporting |
| Releases.ReleaseQueues | pipeline/scheduler.go:257-270 | the release loop decrements each output's counter once and queues a first run of exactly those that reach zero, in order |
| Tokens.WaitingCountsOwners | pipeline/scheduler.go:82-84 | `waiting` is the number of tasks with a token, so neither it nor the channel's occupancy exceeds the number of tasks |
| Tokens.RoomForOneMore | pipeline/scheduler.go:245-249 | while a goroutine is alive the channel has room |
| Ledgers.OutputsAreFresh | pipeline/scheduler.go:257-269 | an output of a running task has not been started, and its counter reaches zero exactly if the completing task was its last open input |
| Ledgers.CounterDropsByOne | pipeline/scheduler.go:259 | the unsigned decrement never underflows and keeps the counter equal to the number of open inputs |
| Readiness.DispatchedIsReady | pipeline/scheduler.go:14-48 | in every run of a new scheduler, every dispatched run, first try or retry, also while exiting, has all inputs finally completed and carries their current results |
| Dispatches.DispatchedGetsInputs | pipeline/scheduler.go:26-45 | field by field: a dispatched run carries the stored results of exactly the inputs that propagate, one each, by output index |
| Dispatches.DispatchedSeesInputs | pipeline/scheduler.go:87-108 | a dispatched run, first try or retry, also while exiting, finds each input under its name: its error, or else its value |
| Dispatches.VariablesFollowResults | pipeline/scheduler.go:195-204 | until exiting, the variable of a task with a result that is not pending is its error, or else its value |
| Readiness.RetriesGetSameInputs | pipeline/scheduler.go:233-251 | in every run of a new scheduler, every later try of a task gets the inputs of the earlier one |
| Readiness.CountersAddUp | pipeline/scheduler.go:257-270 | until exiting, the counters add up to the number of edges that leave tasks which are not finally completed |
| Counting.RunCounts | pipeline/scheduler.go:176-185 | in every reachable state every execution and every cancelled retry of a task has been received exactly once, except the one in flight; outside exiting the stored attempts are the reports processed |
| Provenance.ResultsAreReported | pipeline/scheduler.go:174-185 | in every reachable state a stored result is, with its value, error, pending mark and time, what its task's last received end says: a return, a panic or a cancelled retry; without one it was restored, or is cancelled in an exiting run |
| Provenance.ClosedIsExplained | pipeline/scheduler.go:162-274 | at the close every end has its result and every result its end, or it was restored, or is cancelled in an exiting run |
| Provenance.CancelledRetryIsCancelled | pipeline/scheduler.go:233-243 | once the report of a cancelled retry is received, its task has the cancelled error and no value, in every later state |
| Provenance.AttemptsAreReceipts | pipeline/scheduler.go:176-182 | the stored attempts are the reports received before the scheduler was exiting; later ones keep the count |
| Provenance.FailsOnlyAfterAllTries | pipeline/scheduler.go:222-255 | until exiting, a task that is finally completed with an error has been executed `retries` times, or once |
| Provenance.FlagsAreReported | pipeline/scheduler.go:187-216 | exiting exactly if a fail-early task has reported an error, pending exactly if a task has reported that it stays pending |
| Provenance.VariablesAreReported | pipeline/scheduler.go:187-204 | in every reachable state, exiting or not, the variable of a task is the error or else the value of its last received report that is not pending, or as at the start; other variables are as at the start |
| Counting.FirstScheduledOnce | pipeline/scheduler.go:90-108 | a task is queued for the first time at most once, by the construction or by one report, and until the scheduler exits it has been started exactly if that has happened |
| Counting.ExecutionsBounded | pipeline/scheduler.go:222-255 | a task is executed at most max(1, retries) times |
| Counting.NoExecutionAfterFinal | pipeline/scheduler.go:188-224 | after a success, a pending report, a fail-early error or the last try a task is never executed again and that report's result stands |
| Completeness.ResultsAtClose | pipeline/scheduler.go:162-274 | when the channel is closed, every task has a result if the run is exiting or nothing is pending; otherwise a task lacks one exactly when a strict ancestor is pending |
| FailEarly.FailEarlyPoisons | pipeline/scheduler.go:206-219 | once a fail-early task errs, in every later state its error stands, every strict descendant is cancelled, and none has ever been or will be dispatched |
| FailEarly.FailEarlyErrsAtTerminal | pipeline/scheduler.go:206-219 | then some terminal task has an error |
| Termination.MeasureDecreases | pipeline/scheduler.go:165-271 | every event decreases a measure made of remaining tries, the place of each token, the close and the return |
| Termination.RunsAreBounded | pipeline/scheduler.go:165-182 | the loop processes at most the sum over all tasks of max(1, retries) reports |
| Termination.NeverStuck | pipeline/scheduler.go:165-169 | until the runner returns, something can happen, and it discards no report |
| Termination.EveryoneCanMove | pipeline/runner.go:269-284 | in every reachable state an executing task may return anything or panic, whoever reports is received, a sleeping retry can fire, and be cancelled exactly while exiting, and the next run can be dispatched |
| Termination.TimersNeverBlock | pipeline/scheduler.go:244-249 | a retry timer that expires finds room in an open channel |
| Termination.NoReportIsDropped | pipeline/scheduler.go:290-296 | no report is discarded through the report context in any reachable state |
| Termination.RunsComplete | pipeline/runner.go:256-285 | every run can be continued until the channel is closed and the runner's range loop has ended |
| Evaluation.FinalIsTry | pipeline/scheduler.go:222-255 | the reference result of a task that is not restored is its first success, or its last failure, over its tries on the reference results of its inputs and the variables it references |
| Evaluation.FinalIsFirstSuccess | pipeline/scheduler.go:222-255 | that is the first try that succeeds, or else the last of the `retries` tries |
| Evaluation.VisibleIs | pipeline/scheduler.go:195-204 | a task sees, of the names it references, its inputs' errors or else values, and variables of no task as they were |
| Determinism.InputsAreFinal | pipeline/scheduler.go:26-45 | its reference inputs are the reference results of the inputs that propagate, by output index |
| Determinism.ScheduleIndependence | pipeline/scheduler.go:162-274 | for deterministic tasks that reference only variables of their inputs, started afresh or from saved runs, every run that has closed is exiting exactly if some fail-early task fails on its reference first try, and otherwise ends with the reference result of every task and with the reference variables |
| Determinism.CompletedResultsAgree | pipeline/scheduler.go:174-270 | whatever is completed before an exit, if there is one, is the reference result and stays so |
| Determinism.RunInputsAreSorted | pipeline/scheduler.go:33-45 | a run gets the results of exactly the inputs that propagate, one each, in the order of their output indices |
| Determinism.InputOrderIsForced | pipeline/scheduler.go:38-40 | any sort by output index gives a run the same inputs when the indices of propagated inputs are distinct |
| Resume.SavedResultRoundtrips | pipeline/common.go:132-143 | saving and reconstruction keep values and error messages, and a faithful result is pending afterwards exactly if it was before |
| Resume.PendingSurvivesIffBare | pipeline/models.go:306-308 | a pending result is restored as finished exactly if it has a value or an error |
| Resume.RestoreRestores | pipeline/scheduler.go:113-160 | each finished run restores its result and its task's variable, and all other variables are as given |
| Resume.RestoredFields | pipeline/scheduler.go:122-153 | a saved run is restored exactly if it has a time, an output or an error; with that time, output and error, no attempts, and its error or else its output as variable |
| Resume.ResumedFields | pipeline/scheduler.go:126-143 | a resumed result has the time, value and error text of the suspended one; a nil pointer has become nil |
| Resume.OrderOfRunsIsIrrelevant | pipeline/scheduler.go:113-160 | the same saved task runs in any order give the same scheduler |
| Resume.SuspensionIsClosed | pipeline/runner.go:302-316 | every suspension without fail-early saves a set that is closed under predecessors |
| Resume.RunSuspends | pipeline/scheduler.go:162-204 | a run that closes without exiting holds exactly its finished results in its variables |
| Resume.ResumeIsFaithful | pipeline/scheduler.go:87-160 | the scheduler built from a suspended run's saved results has the same counters, the same finished results up to saving and their variables, and queues exactly the tasks that were pending |
| Resume.SuspendAndResume | pipeline/scheduler.go:66-160 | running, suspending, saving in any order and resuming leads again to a state in which all of this holds, so it can be repeated |
| Resume.SessionsStartWell | pipeline/scheduler.go:66-160 | however often a run has been suspended and resumed, each scheduler starts in the invariant, with its finished results in its variables, as the faithful resumption of the one before |
| Reruns.ClosedExactlyIfNoRerun | pipeline/scheduler.go:257-270 | a task restored as finished is dispatched again in some run exactly if the finished saved runs are not closed under predecessors |
| Reruns.RestoredTaskRunsAgain | pipeline/scheduler.go:262-268 | with u before v and only v saved, v is restored as finished and runs again |
| Suspensions.ResumableExactly | pipeline/scheduler.go:206-219 | a suspended run saves a closed set, and resuming it runs no finished task again, exactly if it is not exiting or none of its pending tasks has an output |
| Suspensions.ExitingClosedExactly | pipeline/scheduler.go:276-288 | an exiting run saves a closed set exactly if no pending task has an output |
| Suspensions.ExitingResumes | pipeline/scheduler.go:113-160 | resuming an exiting run restores exactly its finished results, cancelled ones included, and queues exactly its pending tasks |
| Suspensions.PendingBesideFailure | pipeline/scheduler.go:188-219 | a run that closes while exiting, with a pending task that has an output |
| Suspensions.ExitingRunCanRerun | pipeline/scheduler.go:257-270 | resumed from what that run saved, a finished task runs again |
| Runner.PipelineRun.SaveTaskRuns | pipeline/runner.go:302-325 | for every iteration order, there is one task run per result, with its task's name and index and the result's output, error text and time, ordered by output index, then finishing time, where no time is the zero time |
| Runner.PipelineRun.SumUp | pipeline/runner.go:327-352 | in the order of the task runs: the errors that there are, and the outputs and errors of exactly the terminal tasks; and the state they imply |
| Runner.PipelineRun.Conclude | pipeline/runner.go:287-352 | a pending run is suspended; otherwise it is errored exactly if a terminal task has an error, else completed |
| Runner.ErroredIffTerminalErrs | pipeline/models.go:82-89 | the folded run has a fatal error exactly if some terminal task's result has one |
| Runner.ComputeFinalResult | pipeline/common.go:227-246 | sorts in place to a permutation ordered by output index, panics exactly if no task is terminal, and else lists all errors, and the values and errors of exactly the terminal tasks, in that order |
| Runner.AggregationsAgree | pipeline/common.go:227-246 | for all iteration orders and sorts, both aggregations give the same multiset of terminal outputs and errors, agree on whether there is a fatal error, and give the same sequences when terminals have distinct output indices |
| Runner.FailEarlyRunIsErrored | pipeline/runner.go:327-351 | after a fail-early error the folded run has a fatal error |
| Runner.CompleteRunHasAllRecords | pipeline/common.go:242-244 | a run that ends with nothing pending has a record for every task, so `FinalResult` does not panic on a pipeline that is not empty |
| Schedulers.Scheduler.constructor | pipeline/scheduler.go:66-85 | one counter per task, its number of inputs |
| Schedulers.Scheduler.ReconstructResults | pipeline/scheduler.go:113-160 | the loop restores what the state machine restores, and reports where it would panic |
| Schedulers.Scheduler.ScheduleFirstTasks | pipeline/scheduler.go:90-108 | queues the doable tasks; no send blocks although nobody receives yet |
| Schedulers.Scheduler.Start | pipeline/scheduler.go:66-111 | construction ends in the initial state of the state machine |
| Schedulers.Scheduler.NewRun | pipeline/scheduler.go:14-48 | builds the run with the propagated inputs sorted by output index |
| Schedulers.Scheduler.MarkRemaining | pipeline/scheduler.go:276-288 | the loop cancels all tasks without a result |
| Schedulers.Scheduler.ReleaseOutputs | pipeline/scheduler.go:257-270 | the loop over outputs makes the release step, and no send blocks |
| Schedulers.Scheduler.ProcessReport | pipeline/scheduler.go:174-270 | one iteration of the loop, field by field, makes the report step of the state machine |
| Schedulers.Scheduler.Deliver | pipeline/scheduler.go:174-270 | in a reachable state the iteration can be made and keeps the invariant |
| Schedulers.Scheduler.FireTimer | pipeline/scheduler.go:244-249 | a fired timer sends the next try without blocking |
| Schedulers.Scheduler.Run | pipeline/scheduler.go:162-274 | under every schedule the loop terminates with nothing waiting, closes the channel, and has made a run of the state machine that follows the schedule, whose results are exactly complete and explained by what happened |
| Schedulers.ScheduleDecides | pipeline/scheduler.go:162-274 | a schedule that proposes the events of a run makes that run, so every interleaving is covered |
| Schedulers.RunPipeline | pipeline/runner.go:251-352 | from saved runs to the record of the run: panics exactly if a saved run has no task, else ends with exactly complete, explained results, the right run state, and the task runs, outputs and errors that tell them |
| Getters.GetMatches | pipeline/variables.go:35-78 | a lookup through references finds a reference to what a lookup in the values finds |
| Getters.MarkerMeansLookup | pipeline/getters.go:144-157 | a marker is replaced by what a lookup of its text finds, fails with the lookup's error, or is bad input if an error is found and not allowed |
| Getters.BadMarkerFails | pipeline/getters.go:147-150 | the reserved key with anything but text under it is bad input |
| Getters.SubstituteAt | pipeline/getters.go:191-202 | substitution reaches every place below maps and slices without the reserved key |
| Getters.SubstituteKeeps | pipeline/getters.go:141-160 | scalars, rows, kinds and keys stay |
| Getters.FailureIsSomewhere | pipeline/getters.go:180-183 | every failure is that of some marker that is reached |
| Getters.FailureSpreads | pipeline/getters.go:180-183 | every marker that is reached and fails can fail the whole |
| Getters.ExpressionBecomesVariable | pipeline/getters.go:113-118 | {"k": $(x)} becomes {"k": x} and [$(x)] becomes [x] |
| Getters.FailureIsMeaningless | pipeline/getters.go:144-158 | an error comes only from a marker that has no meaning |
| Getters.MarkerFreeIsFixed | pipeline/getters.go:141-160 | a value without markers is its own substitution |
| Getters.SettledRepresents | pipeline/getters.go:166-204 | when the worklist is empty, what it has settled represents the recursive substitution |
| Getters.Memory.MapGoValue | pipeline/getters.go:141-204 | if variables hold no marker, the in-place worklist terminates, fails exactly if some marker has no meaning, with the error of such a marker, and else makes the root represent the recursive substitution exactly if the root is not itself a marker; no map or slice of a variable changes |
| Worklists.EndsExactly | pipeline/getters.go:166-204 | if no lookup meets a marker on its way, then, for all orders of map keys, the worklist ends exactly if it meets a marker without a meaning or nothing below the root contains itself once markers are followed; variables may hold markers |
| Worklists.MarkerFreeVariablesArePlain | pipeline/getters.go:144-157 | if variables hold no marker, no lookup meets one |
| Worklists.SettlingBounds | pipeline/getters.go:177-203 | the number of rounds is at most 1 + w + w^2 + ..., with one term per level down to one that is empty or has an error, where w counts the keys in memory |
| Worklists.MarkerInVariableLoops | pipeline/getters.go:181-202 | with x = {"a": $(x)} the interpolation of [$(x)] has runs of any length |
| Getters.VarExprIsLookup | pipeline/getters.go:89-110 | one expression with whitespace around is the lookup of its inside, except that an error found as a value is an error |
| Getters.OtherTextIsEmpty | pipeline/getters.go:91-102 | any other text, and a blank inside, is an empty parameter |
| Getters.VarExprReadsOneEntry | pipeline/getters.go:89-111 | a variable expression reads only the variable whose name the graph builder extracts from it |

## Left out

- HTTP, databases, IP filtering, cryptography, metrics and logging: I/O, or calls into libraries outside the
  repository.
- DOT parsing, regular expressions, JSON decoding and topological sorting: their results are inputs of the model.
- Clocks, deadlines and backoff durations: a sleeping retry may fire at any time, and be cancelled once the scheduler
  exits.
- Single task types and their parameters: a task may return anything, or in `Determinism` any function of attempt,
  inputs and referenced variables.
- `MergeTask` writes into its left map in place; a merge on a shared variable is not a function of its inputs, so
  `Determinism.ScheduleIndependence` does not cover it.
- Heap aliasing of task results in the scheduler, and data races of the Go memory model: values are immutable there
  and steps atomic.
- Schedulers.RunPipeline: requires that the finished saved runs are closed under predecessors, which `newScheduler`
  does not check; with any other set some run executes a finished task again (`Reruns.ClosedExactlyIfNoRerun`) and is
  outside the invariant.
- Determinism.ScheduleIndependence: says nothing of the results that are cancelled by an exit, nor of runs in which a
  task stays pending, because both depend on what was in flight.
- Getters.Memory.MapGoValue: requires that no variable holds a marker, because otherwise the worklist writes into
  variables and need not end (`Worklists.MarkerInVariableLoops`); what it then computes is not modelled, only whether
  it ends.
- Worklists.EndsExactly: requires that no lookup meets a marker, because what such a lookup finds depends on whether
  that marker has been overwritten yet.
- Runner.AggregationsAgree: the lists of all errors are not compared, because one keeps only errors and the other also
  keeps the nil of each success.
- Graphs.Relink: tasks are values in a sequence that is updated by position, so pointer identity of tasks is not
  modelled.
- The rest of the runner: creating, storing and resuming runs in the database, timeouts of tasks, and the reaper.
- `HasErrors`, `CombinedError`, `SingularResult`, `StringOutputs` and the setters of the model types: short accessors.
