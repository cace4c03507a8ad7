/** The scheduler as an object: construction, reconstruction and the loop of `Run`, each proved to do
    what the state machine does. */
module Schedulers {
  import opened Values
  import opened Ordering
  import opened Variables
  import opened Pipelines
  import opened Runs
  import opened Scheduling
  import opened Tokens
  import opened Releases
  import opened Ledgers
  import opened Invariants
  import opened Startup
  import opened Completeness
  import FailEarly
  import Resume
  import Runner
  import opened Counting
  import opened Termination
  import opened Provenance

  /** A pipeline of the first tasks only. */
  function Prefix(p: Pipeline, k: nat): Pipeline
    requires k <= |p.tasks|
  {
    Pipeline(p.tasks[..k])
  }

  lemma MarkOneMore(p: Pipeline, results: map<nat, TaskRunResult>, err: GoError, now: int, k: nat)
    requires k < |p.tasks|
    ensures MarkRemaining(Prefix(p, k + 1), results, err, now) ==
      var before := MarkRemaining(Prefix(p, k), results, err, now);
      if p.tasks[k].id in before then before
      else before[p.tasks[k].id := TaskRunResult(p.tasks[k].id, Result(NIL_VALUE, Some(err)), 0, Some(now), false)]
  {
    assert p.tasks[..k + 1] == p.tasks[..k] + [p.tasks[k]];
    assert TaskIds(Prefix(p, k + 1)) == TaskIds(Prefix(p, k)) + {p.tasks[k].id};
  }

  class Scheduler {
    const p: Pipeline
    var dependencies: map<nat, nat>
    var waiting: nat
    var results: map<nat, TaskRunResult>
    var vars: VarMap
    var pending: bool
    var exiting: bool
    var taskCh: seq<MemoryTaskRun>
    var closed: bool

    // the goroutines around the scheduler
    var goroutines: multiset<Goroutine>
    var returned: bool

    function View(): State
      reads this
    {
      State(dependencies, waiting, results, vars, pending, exiting, taskCh, closed, goroutines, returned)
    }

    ghost predicate Valid()
      reads this
    {
      WellFormed(p) && Inv(p, View())
    }

    /** The scheduler before reconstruction. */
    constructor (p: Pipeline, vars: VarMap)
      ensures this.p == p && View() == EmptyState(p, vars)
    {
      this.p := p;
      this.vars := vars;
      dependencies, waiting, results, pending, exiting := map[], 0, map[], false, false;
      taskCh, closed, goroutines, returned := [], false, multiset{}, false;
      new;
      for id := 0 to |p.tasks|
        invariant View() == EmptyState(p, vars).(dependencies := InitialCounters(p, id))
      {
        dependencies := dependencies[id := |p.tasks[id].inputs|];
      }
    }

    /** `reconstructResults`; `ok` is false where it panics, because a saved run has no task. */
    method ReconstructResults(runs: seq<TaskRun>) returns (ok: bool)
      requires InRange(p)
      modifies this
      ensures ok <==> Restore(p, old(View()), runs).Some?
      ensures ok ==> View() == Restore(p, old(View()), runs).value
    {
      ghost var s0 := View();
      for i := 0 to |runs|
        invariant Restore(p, s0, runs[..i]) == Some(View())
      {
        assert runs[..i + 1][..i] == runs[..i];
        var r := runs[i];
        var task := ByDotID(p, r.dotID);
        if task == None {
          RestoreStops(p, s0, runs, i + 1);
          return false;
        }
        if IsPending(r) {
          continue;
        }
        RestoreTask(task.value, r);
      }
      assert runs[..|runs|] == runs;
      ok := true;
    }

    /** One finished task run. */
    method RestoreTask(t: nat, r: TaskRun)
      requires InRange(p) && t < |p.tasks|
      modifies this
      ensures View() == RestoreFinished(p, old(View()), t, r)
    {
      var result := SavedResult(r);
      results := results[t := TaskRunResult(t, result, 0, r.finishedAt, false)];
      vars := SetVariable(p, vars, t, result);
      var outs := p.tasks[t].outputs;
      ghost var before := View();
      for k := 0 to |outs|
        invariant View() == before.(dependencies := Decremented(before.dependencies, outs[..k]))
      {
        assert outs[..k + 1][..k] == outs[..k];
        var o := outs[k];
        dependencies := dependencies[o := Decrement(if o in dependencies then dependencies[o] else 0)];
      }
      assert outs[..|outs|] == outs;
    }

    /** `newMemoryTaskRun`. */
    method NewRun(t: nat, copy: VarMap, attempts: nat) returns (run: MemoryTaskRun)
      requires InRange(p) && t < |p.tasks|
      ensures run == NewMemoryTaskRun(p, results, copy, t, attempts)
    {
      var deps := p.tasks[t].inputs;
      var plain := PlainResults(results);
      var inputs: seq<Entry<Result>> := [];
      for i := 0 to |deps|
        invariant inputs == Propagated(p, deps[..i], plain)
      {
        assert deps[..i + 1][..i] == deps[..i];
        var d := deps[i];
        if d.propagateResult {
          inputs := inputs + [Entry(p.tasks[d.inputTask].index, ResultOf(plain, d.inputTask))];
        }
      }
      assert deps[..|deps|] == deps;
      run := MemoryTaskRun(t, Items(Sort(inputs)), copy, attempts);
    }

    /** A send on the task channel. It never blocks: the channel is open and has room. */
    method Send(run: MemoryTaskRun)
      requires |taskCh| < |p.tasks| && !closed
      modifies this`taskCh
      ensures taskCh == old(taskCh) + [run]
    {
      taskCh := taskCh + [run];
    }

    /** Schedules all doable tasks, before anyone receives from the channel. */
    method ScheduleFirstTasks()
      requires InRange(p) && taskCh == [] && waiting == 0 && !closed
      modifies this
      ensures View() == ScheduleFirst(p, old(View()), |p.tasks|)
    {
      ghost var s0 := View();
      for id := 0 to |p.tasks|
        invariant View() == ScheduleFirst(p, s0, id)
        invariant |taskCh| <= id && !closed
      {
        hide NewMemoryTaskRun, InRange;
        if id !in dependencies || dependencies[id] != 0 {
          continue;
        }
        if id in results {
          continue;
        }
        SendFirst(id);
      }
    }

    /** Queues and counts the first run of a task. */
    method SendFirst(t: nat)
      requires InRange(p) && t < |p.tasks| && |taskCh| < |p.tasks| && !closed
      modifies this`taskCh, this`waiting
      ensures View() == Enqueue(old(View()), NewMemoryTaskRun(p, results, vars, t, 0))
    {
      var run := NewRun(t, vars, 0);
      hide NewMemoryTaskRun, InRange;
      Send(run);
      waiting := waiting + 1;
    }

    /** `newScheduler`; `None` where `reconstructResults` panics. */
    static method Start(p: Pipeline, runs: seq<TaskRun>, vars: VarMap) returns (s: Option<Scheduler>)
      requires InRange(p)
      ensures s.None? <==> NewScheduler(p, runs, vars).None?
      ensures s.Some? ==> fresh(s.value) && s.value.p == p && NewScheduler(p, runs, vars) == Some(s.value.View())
    {
      var sched := new Scheduler(p, vars);
      var ok := sched.ReconstructResults(runs);
      if !ok {
        return None;
      }
      RestoreTouches(p, EmptyState(p, vars), runs);
      sched.ScheduleFirstTasks();
      s := Some(sched);
    }

    /** `markRemaining`. */
    method MarkRemaining(err: GoError, now: int)
      modifies this`results
      ensures results == Scheduling.MarkRemaining(p, old(results), err, now)
    {
      ghost var before := results;
      assert Prefix(p, 0).tasks == [];
      for k := 0 to |p.tasks|
        invariant results == Scheduling.MarkRemaining(Prefix(p, k), before, err, now)
      {
        MarkOneMore(p, before, err, now, k);
        var id := p.tasks[k].id;
        if id !in results {
          results := results[id := TaskRunResult(id, Result(NIL_VALUE, Some(err)), 0, Some(now), false)];
        }
      }
      assert p.tasks[..|p.tasks|] == p.tasks;
    }

    /** One input of task `o` is complete. */
    method ReleaseOutput(o: nat)
      requires InRange(p) && o < |p.tasks| && !closed
      requires CounterAfter(dependencies, o) == 0 ==> |taskCh| < |p.tasks|
      modifies this
      ensures View() == ReleaseOne(p, old(View()), o)
    {
      dependencies := dependencies[o := Decrement(if o in dependencies then dependencies[o] else 0)];
      if dependencies[o] == 0 {
        SendFirst(o);
      }
    }

    /** The loop over the outputs of a completed task. */
    method ReleaseOutputs(t: nat)
      requires WellFormed(p) && t < |p.tasks| && Conserved(p, View()) && !closed
      requires forall o :: o in p.tasks[t].outputs ==> o !in Owners(View())
      modifies this
      ensures View() == Release(p, old(View()), p.tasks[t].outputs)
    {
      ghost var s2 := View();
      var outs := p.tasks[t].outputs;
      for i := 0 to |outs|
        invariant View() == Release(p, s2, outs[..i]) && !closed
      {
        hide Conserved, Owners, NewMemoryTaskRun;
        assert outs[..i + 1][..i] == outs[..i];
        ghost var before := RoomForFreed(p, s2, t, i);
        assert before == View();
        ReleaseOutput(outs[i]);
      }
      assert outs[..|outs|] == outs;
    }

    /** Takes a report off the result channel and stores it with its attempt count. */
    method StoreResult(report: TaskRunResult) returns (result: TaskRunResult)
      requires waiting > 0
      modifies this
      ensures View() == StoreReport(old(View()), report) && result == Counted(old(View()), report)
    {
      goroutines := goroutines - multiset{Reporting(report)};
      waiting := waiting - 1;
      var attempts := if report.task in results then results[report.task].attempts else 0;
      if !exiting {
        attempts := attempts + 1;
      }
      result := report.(attempts := attempts);
      results := results[report.task := result];
    }

    /** Stores the value or error of a task that is not pending, and starts to exit on a fail-early
        error. */
    method StoreVars(result: TaskRunResult, now: int)
      requires result.task < |p.tasks|
      modifies this
      ensures View() == StoreVariable(p, old(View()), result, now)
    {
      hide Scheduling.MarkRemaining;
      var task := p.tasks[result.task];
      match result.result.error {
        case Some(e) => vars := Assign(vars, task.dotID, Scalar(Failure(e)));
        case None => vars := Assign(vars, task.dotID, result.result.value);
      }
      if result.result.error.Some? && task.failEarly {
        exiting := true;
        MarkRemaining(Cancelled, now);
      }
    }

    /** Starts the goroutine that waits for the next try, with its own copy of the variables. */
    method Retry(t: nat, attempts: nat)
      modifies this
      ensures View() == ScheduleRetry(old(View()), t, attempts)
    {
      waiting := waiting + 1;
      goroutines := goroutines + multiset{Sleeping(t, attempts, vars)};
    }

    /** One iteration of the loop in `Run`, for a report received from the result channel. */
    method ProcessReport(report: TaskRunResult, now: int)
      requires WellFormed(p) && report.task < |p.tasks| && waiting > 0
      requires CanRelease(p, View(), report, now)
      modifies this
      ensures View() == Receive(p, old(View()), report, now)
    {
      ghost var s := View();
      StartsExiting(p, s, report, now);
      hide StoreVariable, StoreReport, ScheduleRetry, Release, Counted, Conserved, Owners, SortedLinks, InverseLinks,
        Fails;
      var result := StoreResult(report);
      if report.isPending {
        pending := true;
        return;
      }
      StoreVars(report, now);
      if exiting {
        return;
      }
      if result.attempts < p.tasks[report.task].retries && report.result.error.Some? {
        Retry(report.task, result.attempts);
        return;
      }
      ReleaseOutputs(report.task);
    }

    /** The same, in a reachable state: nothing else is needed, and the invariant is kept. */
    method Deliver(report: TaskRunResult, now: int)
      requires Valid() && ReportReady(p, View(), report)
      modifies this
      ensures View() == Receive(p, old(View()), report, now)
      ensures Valid()
    {
      DeliverStep(p, View(), report, now);
      ReadyToRelease(p, View(), report, now);
      hide Inv, Receive, CanRelease;
      ProcessReport(report, now);
    }

    /** The runner takes the next run from the channel and starts a goroutine for it. */
    method TakeRun(e: Event)
      requires InRange(p) && Enabled(p, View(), e) && e.Dispatch?
      modifies this
      ensures View() == Apply(p, old(View()), e)
    {
      goroutines := goroutines + multiset{Executing(taskCh[0])};
      taskCh := taskCh[1..];
    }

    /** A goroutine now has something to report. */
    method HaveReport(before: Goroutine, report: TaskRunResult)
      modifies this`goroutines
      ensures View() == Become(old(View()), before, Reporting(report))
    {
      goroutines := goroutines - multiset{before} + multiset{Reporting(report)};
    }

    /** A timer fires: the retry goroutine builds the run from the results as they are now. */
    method FireTimer(e: Event)
      requires InRange(p) && Enabled(p, View(), e) && e.Fire?
      modifies this
      ensures View() == Apply(p, old(View()), e)
    {
      var g := e.sleeper;
      var run := NewRun(g.task, g.vars, g.attempts);
      Send(run);
      goroutines := goroutines - multiset{g};
    }

    /** What the goroutines around the scheduler loop do: the runner takes a run from the channel, a
        task returns or panics, a timer fires or is cancelled. */
    method Move(e: Event)
      requires Valid() && Enabled(p, View(), e) && IsMove(e)
      modifies this
      ensures View() == Apply(p, old(View()), e)
      ensures Valid()
    {
      MoveStep(p, View(), e);
      hide Inv, Become, NewMemoryTaskRun, Enabled, SortedLinks, InverseLinks, PositionalIds;
      match e
      case Dispatch(_) => TakeRun(e);
      case Finish(run, result, isPending, now) => HaveReport(Executing(run), Executed(run, result, isPending, now));
      case Panic(run, detail, now) => HaveReport(Executing(run), Errored(run.task, Panicked(detail), now));
      case Fire(_) => FireTimer(e);
      case Cancel(g, now) => HaveReport(g, Errored(g.task, Cancelled, now));
    }

    /** Something that can happen while the loop waits. */
    method Pick() returns (e: Event)
      requires Valid() && waiting > 0
      ensures Enabled(p, View(), e) && (IsMove(e) || e.Deliver?)
    {
      if taskCh != [] {
        return Dispatch(taskCh[0].task);
      }
      SomethingMoves(p, View());
      var g :| g in goroutines;
      GoroutinesMove(p, View(), g);
      match g
      case Executing(run) => e := Finish(run, NO_RESULT, false, 0);
      case Sleeping(_, _, _) => e := Fire(g);
      case Reporting(r) => e := Event.Deliver(r, 0);
    }

    /** The proposed event if it can happen before the close, else one that can. */
    method NextEvent(proposed: Event) returns (e: Event)
      requires Valid() && waiting > 0
      ensures Enabled(p, View(), e) && (IsMove(e) || e.Deliver?)
      ensures Enabled(p, View(), proposed) && (IsMove(proposed) || proposed.Deliver?) ==> e == proposed
    {
      e := proposed;
      if !Enabled(p, View(), e) || !(IsMove(e) || e.Deliver?) {
        e := Pick();
      }
    }

    /** `Run`, with everything that happens around it. `schedule` decides what happens next, as long
        as it proposes something that can happen; so this covers every interleaving. The loop ends,
        with nothing waiting, and closes the channel. */
    method Run(schedule: nat -> Event) returns (ghost tr: Trace)
      requires Valid() && !closed
      modifies this
      ensures Valid() && closed && waiting == 0
      ensures IsRun(p, old(View()), tr) && View() == After(p, old(View()), tr)
      ensures taskCh == [] && goroutines == multiset{} && ExactlyComplete(p, LedgerOf(View()))
      ensures tr.Then? && tr.event == Close && Follows(p, old(View()), schedule, tr.prev)
      ensures Fresh(old(View())) ==> Explained(old(View()), tr, View())
    {
      ghost var s0 := View();
      tr := Trace.Start;
      var i := 0;
      hide Inv, Measure, Apply, Enabled, ExactlyComplete, IsMove, SortedLinks, InverseLinks, PositionalIds, InRange,
        Fresh, Explained;
      while waiting > 0
        invariant Valid() && !closed
        invariant IsRun(p, s0, tr) && View() == After(p, s0, tr)
        invariant Length(tr) == i && Follows(p, s0, schedule, tr)
        decreases Measure(p, View())
      {
        var e := NextEvent(schedule(i));
        MeasureDecreases(p, View(), e);
        Happen(e);
        tr := Then(tr, e);
        i := i + 1;
      }
      ClosesRun(p, s0, tr);
      closed := true;
      tr := Then(tr, Close);
      if Fresh(s0) {
        ClosedIsExplained(p, s0, tr);
      }
    }

    /** An event before the close. */
    method Happen(e: Event)
      requires Valid() && !closed && Enabled(p, View(), e) && (IsMove(e) || e.Deliver?)
      modifies this
      ensures View() == Apply(p, old(View()), e)
      ensures Valid() && !closed
    {
      StepKeepsEnds(p, View(), e);
      hide Inv, Apply, Receive, IsMove;
      if e.Deliver? {
        Deliver(e.report, e.now);
      } else {
        Move(e);
      }
    }
  }

  /** Whatever `schedule` proposes has happened, if it could happen. */
  ghost predicate Follows(p: Pipeline, s0: State, schedule: nat -> Event, tr: Trace)
    requires InRange(p) && IsRun(p, s0, tr)
  {
    tr.Then? ==>
      && Follows(p, s0, schedule, tr.prev)
      && var proposed := schedule(Length(tr.prev));
         Enabled(p, After(p, s0, tr.prev), proposed) && (IsMove(proposed) || proposed.Deliver?) ==> tr.event == proposed
  }

  /** A run of goroutine steps and reports. */
  ghost predicate InLoop(tr: Trace) {
    tr.Then? ==> InLoop(tr.prev) && (IsMove(tr.event) || tr.event.Deliver?)
  }

  /** `schedule` proposes the events of `tr`. */
  ghost predicate Proposes(schedule: nat -> Event, tr: Trace) {
    tr.Then? ==> Proposes(schedule, tr.prev) && schedule(Length(tr.prev)) == tr.event
  }

  ghost function FirstSteps(tr: Trace, n: nat): Trace {
    if tr.Start? || Length(tr) <= n then tr else FirstSteps(tr.prev, n)
  }

  /** So every interleaving is some schedule's: a loop that follows the events of a run makes that run. */
  lemma {:induction false} ScheduleDecides(p: Pipeline, s0: State, schedule: nat -> Event, wanted: Trace, tr: Trace)
    requires InRange(p) && IsRun(p, s0, wanted) && InLoop(wanted) && Proposes(schedule, wanted)
    requires IsRun(p, s0, tr) && Follows(p, s0, schedule, tr) && Length(wanted) <= Length(tr)
    ensures FirstSteps(tr, Length(wanted)) == wanted
    decreases tr
  {
    hide Enabled, IsMove, Apply, InRange;
    if Length(wanted) < Length(tr) {
      ScheduleDecides(p, s0, schedule, wanted, tr.prev);
    } else if wanted.Then? {
      ScheduleDecides(p, s0, schedule, wanted.prev, tr.prev);
      assert FirstSteps(tr.prev, Length(wanted.prev)) == tr.prev;
    }
  }

  /** The end of the loop. */
  lemma ClosesRun(p: Pipeline, s0: State, tr: Trace)
    requires WellFormed(p) && Inv(p, s0) && IsRun(p, s0, tr)
    requires After(p, s0, tr).waiting == 0 && !After(p, s0, tr).closed
    ensures IsRun(p, s0, Then(tr, Close))
    ensures After(p, s0, Then(tr, Close)) == After(p, s0, tr).(closed := true)
    ensures Inv(p, After(p, s0, Then(tr, Close))) && ExactlyComplete(p, LedgerOf(After(p, s0, Then(tr, Close))))
    ensures After(p, s0, tr).taskCh == [] && After(p, s0, tr).goroutines == multiset{}
  {
    hide Inv, ExactlyComplete;
    RunKeeps(p, s0, Then(tr, Close));
    ResultsAtClose(p, s0, Then(tr, Close));
  }

  lemma SomethingMoves(p: Pipeline, s: State)
    requires Inv(p, s) && s.waiting > 0 && s.taskCh == []
    ensures exists g :: g in s.goroutines
  {
    assert (forall g :: g !in s.goroutines) ==> s.goroutines == multiset{};
  }

  /** No goroutine around the loop can be stuck. */
  lemma GoroutinesMove(p: Pipeline, s: State, g: Goroutine)
    requires Inv(p, s) && g in s.goroutines
    ensures match g
      case Executing(run) => Enabled(p, s, Finish(run, NO_RESULT, false, 0))
      case Sleeping(_, _, _) => Enabled(p, s, Fire(g))
      case Reporting(r) => Enabled(p, s, Event.Deliver(r, 0))
  {
    hide Core, OwnersRetry, TokenAttempts;
    if g.Sleeping? {
      TimersNeverBlock(p, s, g);
    } else if g.Reporting? {
      TakeReport(p, s, g.report);
    }
  }

  /** If the report completes its task, its outputs own no token. */
  ghost predicate CanRelease(p: Pipeline, s: State, r: TaskRunResult, now: int)
    requires WellFormed(p) && r.task < |p.tasks| && s.waiting > 0
  {
    !r.isPending && !s.exiting && !Fails(p, r) && !MustRetry(p, Counted(s, r).attempts, r) ==>
      var s2 := StoreVariable(p, StoreReport(s, r), r, now);
      && Conserved(p, s2) && !s2.closed
      && forall o :: o in p.tasks[r.task].outputs ==> o !in Owners(s2)
  }

  lemma StartsExiting(p: Pipeline, s: State, r: TaskRunResult, now: int)
    requires r.task < |p.tasks| && s.waiting > 0
    ensures StoreVariable(p, StoreReport(s, r), r, now).exiting <==> s.exiting || Fails(p, r)
  {
  }

  lemma ReadyToRelease(p: Pipeline, s: State, r: TaskRunResult, now: int)
    requires WellFormed(p) && ReportReady(p, s, r)
    ensures CanRelease(p, s, r, now)
  {
    hide Owners, Core, OwnersRetry, TokenAttempts, Unique, SetVariable;
    if !r.isPending && !s.exiting && !Fails(p, r) && !MustRetry(p, Counted(s, r).attempts, r) {
      BookedTokens(p, s, r, StoreVariable(p, StoreReport(s, r), r, now));
      CompleteReportKeeps(p, s, r, now);
    }
  }

  /** Reconstruction leaves queue, count and flags alone. */
  lemma {:induction false} RestoreTouches(p: Pipeline, s: State, runs: seq<TaskRun>)
    requires Restore(p, s, runs).Some?
    ensures var s' := Restore(p, s, runs).value;
      s' == s.(dependencies := s'.dependencies, results := s'.results, vars := s'.vars)
  {
    if runs != [] {
      RestoreTouches(p, s, runs[..|runs| - 1]);
    }
  }

  /** While outputs are released, a freed task finds room in the channel. */
  lemma RoomForFreed(p: Pipeline, s: State, t: nat, i: nat) returns (before: State)
    requires WellFormed(p) && t < |p.tasks| && i < |p.tasks[t].outputs| && Conserved(p, s)
    requires forall o :: o in p.tasks[t].outputs ==> o !in Owners(s)
    ensures before == Release(p, s, p.tasks[t].outputs[..i])
    ensures CounterAfter(before.dependencies, p.tasks[t].outputs[i]) == 0 ==> |before.taskCh| < |p.tasks|
  {
    var outs := p.tasks[t].outputs;
    before := Release(p, s, outs[..i]);
    var after := Release(p, s, outs[..i + 1]);
    OutputsDistinct(p, t);
    ReleaseAddsOwners(p, s, outs[..i + 1]);
    WaitingCountsOwners(p, after);
    assert outs[..i + 1][..i] == outs[..i];
    assert after == ReleaseOne(p, before, outs[i]);
  }


  lemma {:induction false} RestoreStops(p: Pipeline, s: State, runs: seq<TaskRun>, k: nat)
    requires k <= |runs| && Restore(p, s, runs[..k]).None?
    ensures Restore(p, s, runs).None?
    decreases |runs|
  {
    if k < |runs| {
      assert runs[..|runs| - 1][..k] == runs[..k];
      RestoreStops(p, s, runs[..|runs| - 1], k);
    } else {
      assert runs[..k] == runs;
    }
  }

  // ----- a whole run -----

  /** The keys of the results map, in some order. */
  method Iterate(results: map<nat, TaskRunResult>) returns (order: seq<nat>)
    ensures Distinct(order) && forall t :: t in order <==> t in results
  {
    order := [];
    var todo := results.Keys;
    while todo != {}
      invariant todo <= results.Keys && Distinct(order)
      invariant forall t :: t in order <==> t in results && t !in todo
      decreases |todo|
    {
      var t :| t in todo;
      assert forall i :: 0 <= i < |order| ==> order[i] in order;
      order := order + [t];
      todo := todo - {t};
    }
  }

  lemma {:induction false} RestoredAreKeyed(p: Pipeline, vars: VarMap, runs: seq<TaskRun>)
    requires Restore(p, EmptyState(p, vars), runs).Some?
    ensures Runner.Keyed(p, Restore(p, EmptyState(p, vars), runs).value.results)
  {
    hide InitialCounters, Decremented, SetVariable;
    if runs != [] {
      RestoredAreKeyed(p, vars, runs[..|runs| - 1]);
    }
  }

  lemma {:induction false} FirstQueueKeepsResults(p: Pipeline, s: State, k: nat)
    requires InRange(p) && k <= |p.tasks|
    ensures ScheduleFirst(p, s, k).results == s.results
  {
    hide NewMemoryTaskRun;
    if k > 0 {
      FirstQueueKeepsResults(p, s, k - 1);
    }
  }

  lemma StartsKeyed(p: Pipeline, runs: seq<TaskRun>, vars: VarMap)
    requires InRange(p) && NewScheduler(p, runs, vars).Some?
    ensures Runner.Keyed(p, NewScheduler(p, runs, vars).value.results)
  {
    RestoredAreKeyed(p, vars, runs);
    FirstQueueKeepsResults(p, Restore(p, EmptyState(p, vars), runs).value, |p.tasks|);
  }

  /** What the record says at the end: suspended if a task is pending, else errored exactly if a
      terminal task has an error. */
  ghost function FinalState(p: Pipeline, s: State): Runner.RunStatus {
    if s.pending then Runner.Suspended else if FailEarly.TerminalErrs(p, s) then Runner.Errored else Runner.Completed
  }

  /** `runner.run`, from saved task runs to the record of the run, under every schedule: it panics
      exactly if a saved run has no task; otherwise it ends, the results are exactly complete, and
      the state says whether the run is suspended, errored or completed. */
  method RunPipeline(p: Pipeline, runs: seq<TaskRun>, vars: VarMap, schedule: nat -> Event, record: Runner.PipelineRun,
      now: int)
      returns (s: Option<Scheduler>, ghost tr: Trace)
    requires WellFormed(p) && DistinctRuns(runs) && ClosedRuns(p, runs) && record.finishedAt.None?
    modifies record
    ensures s.None? <==> !Known(p, runs)
    ensures s.Some? ==> s.value.p == p && ExactlyComplete(p, LedgerOf(s.value.View()))
    ensures s.Some? ==> record.pending == s.value.pending && record.failSilently == s.value.exiting
    ensures s.Some? ==> record.state == FinalState(p, s.value.View())
    ensures s.Some? ==>
      && NewScheduler(p, runs, vars).Some?
      && Explained(NewScheduler(p, runs, vars).value, tr, s.value.View())
      && Runner.InTimeOrder(p, record.taskRuns) && Runner.RecordsTell(p, s.value.results, record.taskRuns)
    ensures s.Some? && !s.value.pending ==>
      Runner.SumsTell(p, record.taskRuns, record.allErrors, record.fatalErrors, record.outputs)
  {
    StartsOrPanics(p, runs, vars);
    hide Inv, Known, NewScheduler, ClosedRuns, DistinctRuns, ExactlyComplete, FailEarly.TerminalErrs, Runner.Keyed,
      SortedLinks, InverseLinks, PositionalIds, IsRun, After, Fresh, Explained, Runner.InTimeOrder, Runner.RecordsTell,
      Runner.SumsTell, Follows;
    tr := Trace.Start;
    s := Scheduler.Start(p, runs, vars);
    if s == None {
      return;
    }
    ghost var s0 := s.value.View();
    tr := s.value.Run(schedule);
    Runner.KeyedRun(p, s0, tr);
    RecordRun(s.value, record, now);
  }

  /** The second half of `runner.run`: the scheduler is read, the record is written. */
  method RecordRun(s: Scheduler, record: Runner.PipelineRun, now: int)
    requires Runner.Keyed(s.p, s.results) && record.finishedAt.None?
    modifies record
    ensures record.pending == s.pending && record.failSilently == s.exiting
    ensures record.state == FinalState(s.p, s.View())
    ensures Runner.InTimeOrder(s.p, record.taskRuns) && Runner.RecordsTell(s.p, s.results, record.taskRuns)
    ensures !s.pending ==>
      Runner.SumsTell(s.p, record.taskRuns, record.allErrors, record.fatalErrors, record.outputs)
  {
    hide FailEarly.TerminalErrs, Runner.Collect, Runner.Listed, Runner.Records, Runner.FatalErrors, Runner.Outputs,
      Runner.InOrder, Runner.InTimeOrder, Runner.RecordsTell, Runner.SumsTell;
    var order := Iterate(s.results);
    KeyedOrder(s.p, s.results, order);
    record.Conclude(s.p, s.View(), order, now);
  }

  lemma StartsOrPanics(p: Pipeline, runs: seq<TaskRun>, vars: VarMap)
    requires WellFormed(p) && DistinctRuns(runs) && ClosedRuns(p, runs)
    ensures NewScheduler(p, runs, vars).None? <==> !Known(p, runs)
    ensures NewScheduler(p, runs, vars).Some? ==>
      var s := NewScheduler(p, runs, vars).value;
      Inv(p, s) && !s.closed && Fresh(s) && Runner.Keyed(p, s.results)
  {
    hide Inv, Known, ClosedRuns, Runner.Keyed;
    RestorePanics(p, EmptyState(p, vars), runs);
    if Known(p, runs) {
      StartsWell(p, runs, vars);
      StartsKeyed(p, runs, vars);
    }
  }

  lemma KeyedOrder(p: Pipeline, results: map<nat, TaskRunResult>, order: seq<nat>)
    requires Runner.Keyed(p, results) && Distinct(order) && forall t :: t in order <==> t in results
    ensures Resume.Enumerates(p, results, order)
  {
    assert forall i :: 0 <= i < |order| ==> order[i] in order;
  }
}
