/** The scheduler as a state machine: the fields of the Go struct, the goroutines around it, and
    every step that the scheduler loop, the runner, the tasks and the retry timers can take. */
module Scheduling {
  import opened Values
  import opened Ordering
  import opened Variables
  import opened Pipelines

  datatype TaskRunResult = TaskRunResult(
    task: nat,
    result: Result,
    attempts: nat,
    finishedAt: Option<int>,
    isPending: bool)

  datatype MemoryTaskRun = MemoryTaskRun(task: nat, inputs: seq<Result>, vars: VarMap, attempts: nat)

  /** A goroutine that will report to the scheduler: running a task, waiting to retry one, or
      blocked on the unbuffered result channel. */
  datatype Goroutine =
    | Executing(run: MemoryTaskRun)
    | Sleeping(task: nat, attempts: nat, vars: VarMap)
    | Reporting(report: TaskRunResult)
  {
    function Owner(): nat {
      match this
      case Executing(run) => run.task
      case Sleeping(task, _, _) => task
      case Reporting(report) => report.task
    }
  }

  datatype State = State(
    dependencies: map<nat, nat>,
    waiting: nat,
    results: map<nat, TaskRunResult>,
    vars: VarMap,
    pending: bool,
    exiting: bool,
    taskCh: seq<MemoryTaskRun>,
    closed: bool,
    goroutines: multiset<Goroutine>,
    returned: bool)

  const MAX_UINT: nat := 0xffff_ffff_ffff_ffff

  /** Decrement of a Go `uint`. */
  function Decrement(n: nat): nat {
    if n == 0 then MAX_UINT else n - 1
  }

  function Attempts(results: map<nat, TaskRunResult>, t: nat): nat {
    if t in results then results[t].attempts else 0
  }

  // ----- newMemoryTaskRun -----

  function ResultOf(results: map<nat, Result>, t: nat): Result {
    if t in results then results[t] else NO_RESULT
  }

  /** The propagated inputs in the order of `task.Inputs()`, keyed by output index. */
  function Propagated(p: Pipeline, deps: seq<TaskDependency>, results: map<nat, Result>): seq<Entry<Result>>
    requires forall i :: 0 <= i < |deps| ==> deps[i].inputTask < |p.tasks|
  {
    if deps == [] then []
    else
      var last := deps[|deps| - 1];
      Propagated(p, deps[..|deps| - 1], results) +
      (if last.propagateResult
       then [Entry(p.tasks[last.inputTask].index, ResultOf(results, last.inputTask))]
       else [])
  }

  function Items(entries: seq<Entry<Result>>): seq<Result> {
    if entries == [] then [] else Items(entries[..|entries| - 1]) + [entries[|entries| - 1].item]
  }

  /** The inputs of a task run, sorted by output index. */
  function RunInputs(p: Pipeline, t: nat, results: map<nat, Result>): seq<Result>
    requires InRange(p) && t < |p.tasks|
  {
    Items(Sort(Propagated(p, p.tasks[t].inputs, results)))
  }

  function PlainResults(results: map<nat, TaskRunResult>): map<nat, Result> {
    map t | t in results :: results[t].result
  }

  function NewMemoryTaskRun(p: Pipeline, results: map<nat, TaskRunResult>, vars: VarMap, t: nat, attempts: nat)
    : MemoryTaskRun
    requires InRange(p) && t < |p.tasks|
  {
    MemoryTaskRun(t, RunInputs(p, t, PlainResults(results)), vars, attempts)
  }

  // ----- the scheduler loop -----

  function TaskIds(p: Pipeline): set<nat> {
    set task <- p.tasks :: task.id
  }

  /** `markRemaining`: tasks without a result are cancelled. */
  function MarkRemaining(p: Pipeline, results: map<nat, TaskRunResult>, err: GoError, now: int)
    : map<nat, TaskRunResult>
  {
    map t | t in results.Keys + TaskIds(p) ::
      if t in results then results[t] else TaskRunResult(t, Result(NIL_VALUE, Some(err)), 0, Some(now), false)
  }

  /** Sends one run to the task channel and counts it. */
  function Enqueue(s: State, run: MemoryTaskRun): State {
    s.(taskCh := s.taskCh + [run], waiting := s.waiting + 1)
  }

  /** The counter of `o` once one more input is complete. */
  function CounterAfter(dependencies: map<nat, nat>, o: nat): nat {
    Decrement(if o in dependencies then dependencies[o] else 0)
  }

  /** One input of task `o` is complete. */
  function ReleaseOne(p: Pipeline, s: State, o: nat): State
    requires InRange(p) && o < |p.tasks|
  {
    var n := CounterAfter(s.dependencies, o);
    var s1 := s.(dependencies := s.dependencies[o := n]);
    if n == 0 then Enqueue(s1, NewMemoryTaskRun(p, s.results, s.vars, o, 0)) else s1
  }

  /** The tasks `outs` have been told, in this order, that one of their inputs is complete. */
  function Release(p: Pipeline, s: State, outs: seq<nat>): State
    requires InRange(p) && forall i :: 0 <= i < |outs| ==> outs[i] < |p.tasks|
  {
    if outs == [] then s
    else ReleaseOne(p, Release(p, s, outs[..|outs| - 1]), outs[|outs| - 1])
  }

  function SetVariable(p: Pipeline, vars: VarMap, t: nat, r: Result): VarMap
    requires t < |p.tasks|
  {
    Assign(vars, p.tasks[t].dotID, VarValue(r))
  }

  function Fails(p: Pipeline, r: TaskRunResult): bool
    requires r.task < |p.tasks|
  {
    r.result.error.Some? && p.tasks[r.task].failEarly
  }

  /** The report with its attempt count, as the scheduler stores it. */
  function Counted(s: State, r: TaskRunResult): TaskRunResult {
    var before := Attempts(s.results, r.task);
    r.(attempts := if s.exiting then before else before + 1)
  }

  function StoreReport(s: State, r: TaskRunResult): State
    requires s.waiting > 0
  {
    s.(waiting := s.waiting - 1,
       results := s.results[r.task := Counted(s, r)],
       goroutines := s.goroutines - multiset{Reporting(r)})
  }

  /** Stores the variable of a report that is not pending and notices a fail-early error. */
  function StoreVariable(p: Pipeline, s: State, r: TaskRunResult, now: int): State
    requires r.task < |p.tasks|
  {
    var s1 := s.(vars := SetVariable(p, s.vars, r.task, r.result));
    if Fails(p, r) then s1.(exiting := true, results := MarkRemaining(p, s1.results, Cancelled, now))
    else s1
  }

  function ScheduleRetry(s: State, t: nat, attempts: nat): State {
    s.(waiting := s.waiting + 1,
       goroutines := s.goroutines + multiset{Sleeping(t, attempts, s.vars)})
  }

  predicate MustRetry(p: Pipeline, attempts: nat, r: TaskRunResult)
    requires r.task < |p.tasks|
  {
    attempts < p.tasks[r.task].retries && r.result.error.Some?
  }

  /** One iteration of the loop in `Run`, for a report taken from the result channel. */
  function Receive(p: Pipeline, s: State, r: TaskRunResult, now: int): State
    requires InRange(p) && r.task < |p.tasks| && s.waiting > 0
  {
    var s1 := StoreReport(s, r);
    if r.isPending then s1.(pending := true)
    else
      var s2 := StoreVariable(p, s1, r, now);
      var attempts := Counted(s, r).attempts;
      if s2.exiting then s2
      else if MustRetry(p, attempts, r) then ScheduleRetry(s2, r.task, attempts)
      else Release(p, s2, p.tasks[r.task].outputs)
  }

  // ----- everything that can happen -----

  datatype Event =
    | Dispatch(task: nat)                                // the runner takes the next run
    | Finish(run: MemoryTaskRun, result: Result, isPending: bool, now: int)  // a task returns
    | Panic(run: MemoryTaskRun, detail: string, now: int) // a task panics and is recovered
    | Fire(sleeper: Goroutine)                           // a retry timer expires
    | Cancel(sleeper: Goroutine, now: int)               // a retry is cancelled
    | Deliver(report: TaskRunResult, now: int)           // the scheduler receives a report
    | Close                                              // the scheduler loop ends
    | Return                                             // the runner's range loop ends
    | Drop(report: TaskRunResult)                        // a report is discarded

  /** Channels, contexts and goroutines decide what can happen. A send needs room and an open
      channel; the retry context is cancelled on exit; the report context when the runner returns. */
  predicate Enabled(p: Pipeline, s: State, e: Event) {
    match e
    case Dispatch(t) => s.taskCh != [] && s.taskCh[0].task == t
    case Finish(run, _, _, _) => Executing(run) in s.goroutines
    case Panic(run, _, _) => Executing(run) in s.goroutines
    case Fire(g) => g.Sleeping? && g in s.goroutines && g.task < |p.tasks| && |s.taskCh| < |p.tasks| && !s.closed
    case Cancel(g, _) => g.Sleeping? && g in s.goroutines && (s.exiting || s.closed)
    case Deliver(r, _) => Reporting(r) in s.goroutines && r.task < |p.tasks| && s.waiting > 0 && !s.closed
    case Close => s.waiting == 0 && !s.closed
    case Return => s.closed && s.taskCh == [] && !s.returned
    case Drop(r) => Reporting(r) in s.goroutines && s.returned
  }

  function Become(s: State, before: Goroutine, after: Goroutine): State {
    s.(goroutines := s.goroutines - multiset{before} + multiset{after})
  }

  /** The report that `executeTaskRun` makes. */
  function Executed(run: MemoryTaskRun, result: Result, isPending: bool, now: int): TaskRunResult {
    TaskRunResult(run.task, result, 0, if isPending then None else Some(now), isPending)
  }

  function Errored(t: nat, e: GoError, now: int): TaskRunResult {
    TaskRunResult(t, Result(NIL_VALUE, Some(e)), 0, Some(now), false)
  }

  function Apply(p: Pipeline, s: State, e: Event): State
    requires InRange(p) && Enabled(p, s, e)
  {
    match e
    case Dispatch(_) =>
      s.(taskCh := s.taskCh[1..], goroutines := s.goroutines + multiset{Executing(s.taskCh[0])})
    case Finish(run, result, isPending, now) =>
      Become(s, Executing(run), Reporting(Executed(run, result, isPending, now)))
    case Panic(run, detail, now) =>
      Become(s, Executing(run), Reporting(Errored(run.task, Panicked(detail), now)))
    case Fire(g) =>
      s.(taskCh := s.taskCh + [NewMemoryTaskRun(p, s.results, g.vars, g.task, g.attempts)],
         goroutines := s.goroutines - multiset{g})
    case Cancel(g, now) => Become(s, g, Reporting(Errored(g.task, Cancelled, now)))
    case Deliver(r, now) => Receive(p, s, r, now)
    case Close => s.(closed := true)
    case Return => s.(returned := true)
    case Drop(r) => s.(goroutines := s.goroutines - multiset{Reporting(r)})
  }

  // ----- runs -----

  datatype Trace = Start | Then(prev: Trace, event: Event)

  ghost predicate IsRun(p: Pipeline, s0: State, tr: Trace)
    requires InRange(p)
    decreases tr, 0
  {
    tr.Then? ==> IsRun(p, s0, tr.prev) && Enabled(p, After(p, s0, tr.prev), tr.event)
  }

  ghost function After(p: Pipeline, s0: State, tr: Trace): State
    requires InRange(p) && IsRun(p, s0, tr)
    decreases tr, 1
  {
    if tr.Start? then s0 else Apply(p, After(p, s0, tr.prev), tr.event)
  }

  /** `later` continues `tr`. */
  ghost predicate Continues(tr: Trace, later: Trace) {
    tr == later || (later.Then? && Continues(tr, later.prev))
  }
}
