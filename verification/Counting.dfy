/** Attempts, conservation of runs and reports, termination and progress. */
module Counting {
  import opened Values
  import opened Pipelines
  import opened Scheduling
  import opened Tokens
  import opened Ledgers
  import opened Invariants
  import opened Startup
  import opened Phases
  import opened FailEarly

  // ----- what a step does to phases and attempts -----

  ghost predicate Starts(e: Event, t: nat) { e == Dispatch(t) }

  ghost predicate Cancels(e: Event, t: nat) { e.Cancel? && e.sleeper.Owner() == t }

  ghost predicate Receives(e: Event, t: nat) { e.Deliver? && e.report.task == t }

  ghost predicate Busy(phase: Phase) { phase == Working || phase == Ready }

  /** How the phase of `t` may change on an event. */
  ghost predicate PhaseStep(p: Pipeline, s: State, e: Event, t: nat)
    requires InRange(p) && Enabled(p, s, e)
  {
    var before, after := PhaseOf(s, t), PhaseOf(Apply(p, s, e), t);
    if Starts(e, t) then before == Waiting && after == Working
    else if Cancels(e, t) then before == Asleep && after == Ready
    else if Receives(e, t) then before == Ready && (after == Idle || (after == Asleep && !Apply(p, s, e).exiting))
    else || before == after
         || (before == Asleep && after == Waiting && e.Fire?)
         || (before == Working && after == Ready && (e.Finish? || e.Panic?))
         || (before == Idle && after == Waiting && e.Deliver? && !s.exiting && t !in s.results)
  }

  function Mover(e: Event): nat {
    match e
    case Dispatch(t) => t
    case Finish(run, _, _, _) => run.task
    case Panic(run, _, _) => run.task
    case Fire(g) => g.Owner()
    case Cancel(g, _) => g.Owner()
    case Deliver(r, _) => r.task
    case Drop(r) => r.task
    case _ => 0
  }

  predicate IsMove(e: Event) {
    e.Dispatch? || e.Finish? || e.Panic? || e.Fire? || e.Cancel?
  }

  function From(e: Event): Phase {
    match e case Dispatch(_) => Waiting case Fire(_) => Asleep case Cancel(_, _) => Asleep case _ => Working
  }

  function To(e: Event): Phase {
    match e case Dispatch(_) => Working case Fire(_) => Waiting case _ => Ready
  }

  lemma MoveEffect(p: Pipeline, s: State, e: Event)
    requires InRange(p) && Unique(s) && Enabled(p, s, e) && IsMove(e)
    ensures PhaseOf(s, Mover(e)) == From(e) && Moved(s, Apply(p, s, e), Mover(e), To(e))
  {
    hide Owners, NewMemoryTaskRun, Unique, Moved, PhaseOf;
    match e
    case Dispatch(x) => DispatchMovesPhase(p, s, x);
    case Finish(run, result, isPending, now) =>
      WorkingPhase(s, run);
      BecomeMovesPhase(s, Executing(run), Executed(run, result, isPending, now));
    case Panic(run, detail, now) =>
      WorkingPhase(s, run);
      BecomeMovesPhase(s, Executing(run), Errored(run.task, Panicked(detail), now));
    case Fire(g) => FireMovesPhase(p, s, g);
    case Cancel(g, now) =>
      AsleepPhase(s, g);
      BecomeMovesPhase(s, g, Errored(g.task, Cancelled, now));
  }

  lemma MovedAt(s: State, s': State, x: nat, phase: Phase, t: nat)
    requires Moved(s, s', x, phase)
    ensures PhaseOf(s', t) == if t == x then phase else PhaseOf(s, t)
  {
    hide PhaseOf;
  }

  lemma MoverPhases(p: Pipeline, s: State, e: Event, t: nat)
    requires InRange(p) && Unique(s) && Enabled(p, s, e) && IsMove(e)
    ensures PhaseStep(p, s, e, t)
  {
    hide Apply, Enabled, PhaseOf, Owners, Unique, Moved, InRange;
    MoveEffect(p, s, e);
    MovedAt(s, Apply(p, s, e), Mover(e), To(e), t);
  }

  lemma EndPhases(p: Pipeline, s: State, e: Event, t: nat)
    requires InRange(p) && Inv(p, s) && Enabled(p, s, e) && (e.Close? || e.Return?)
    ensures PhaseStep(p, s, e, t)
  {
    hide Inv, PhaseOf, NewMemoryTaskRun;
    SameTokensSamePhase(s, Apply(p, s, e), t);
  }

  lemma MovePhases(p: Pipeline, s: State, e: Event, t: nat)
    requires InRange(p) && Inv(p, s) && Enabled(p, s, e) && !e.Deliver?
    ensures PhaseStep(p, s, e, t)
  {
    assert Unique(s);
    hide PhaseStep, Unique, Core, TokenAttempts, OwnersRetry, Owners;
    if IsMove(e) {
      MoverPhases(p, s, e, t);
    } else if e.Drop? {
      NothingAfterClose(p, s);
    } else {
      EndPhases(p, s, e, t);
    }
  }

  lemma WorkingPhase(s: State, run: MemoryTaskRun)
    requires Unique(s) && Executing(run) in s.goroutines
    ensures PhaseOf(s, run.task) == Working
  {
    PhaseIsUnique(s, run.task, Working);
  }

  lemma AsleepPhase(s: State, g: Goroutine)
    requires Unique(s) && g in s.goroutines && g.Sleeping?
    ensures PhaseOf(s, g.task) == Asleep && g.Owner() == g.task
  {
    PhaseIsUnique(s, g.task, Asleep);
  }

  /** A report of `x` leaves it idle, or asleep if it is retried, and wakes freed tasks. */
  lemma QuietReportPhases(p: Pipeline, s: State, r: TaskRunResult, now: int, t: nat)
    requires WellFormed(p) && ReportReady(p, s, r) && (r.isPending || s.exiting || Fails(p, r))
    ensures PhaseOf(s, r.task) == Ready
    ensures PhaseOf(Receive(p, s, r, now), t) == if t == r.task then Idle else PhaseOf(s, t)
  {
    hide Owners, Core, OwnersRetry, TokenAttempts, Unique, MarkRemaining, SetVariable;
    TakenPhase(s, r, StoreReport(s, r));
    SameTokensSamePhase(StoreReport(s, r), Receive(p, s, r, now), t);
  }

  lemma RetryReportPhases(p: Pipeline, s: State, r: TaskRunResult, now: int, t: nat)
    requires WellFormed(p) && ReportReady(p, s, r) && !r.isPending && !s.exiting && !Fails(p, r)
    requires MustRetry(p, Counted(s, r).attempts, r)
    ensures !Receive(p, s, r, now).exiting
    ensures PhaseOf(s, r.task) == Ready
    ensures PhaseOf(Receive(p, s, r, now), t) == if t == r.task then Asleep else PhaseOf(s, t)
  {
    hide Owners, Core, OwnersRetry, TokenAttempts, Unique, SetVariable;
    var s2 := StoreVariable(p, StoreReport(s, r), r, now);
    TakenPhase(s, r, s2);
    BookedTokens(p, s, r, s2);
    assert !Receive(p, s, r, now).exiting;
    SpawnedPhase(s2, r.task, Counted(s, r).attempts);
  }

  lemma CompleteReportPhases(p: Pipeline, s: State, r: TaskRunResult, now: int, t: nat)
    requires WellFormed(p) && ReportReady(p, s, r) && !r.isPending && !s.exiting && !Fails(p, r)
    requires !MustRetry(p, Counted(s, r).attempts, r)
    ensures PhaseOf(s, r.task) == Ready
    ensures PhaseOf(Receive(p, s, r, now), t) ==
      if t == r.task then Idle
      else if t in p.tasks[r.task].outputs && CounterAfter(s.dependencies, t) == 0 then Waiting
      else PhaseOf(s, t)
    ensures t in p.tasks[r.task].outputs ==> t != r.task && t !in s.results && PhaseOf(s, t) == Idle
  {
    hide Owners, Core, OwnersRetry, TokenAttempts, Unique, SetVariable;
    var s2 := StoreVariable(p, StoreReport(s, r), r, now);
    TakenPhase(s, r, s2);
    BookedTokens(p, s, r, s2);
    CompleteReportKeeps(p, s, r, now);
    OutputsDistinct(p, r.task);
    ReleasedPhase(p, s2, p.tasks[r.task].outputs, t);
    OwnersHavePhases(s, t);
  }

  lemma ReportPhases(p: Pipeline, s: State, r: TaskRunResult, now: int, t: nat)
    requires WellFormed(p) && ReportReady(p, s, r)
    ensures PhaseStep(p, s, Deliver(r, now), t)
  {
    hide Owners, Core, OwnersRetry, TokenAttempts, Unique, Receive;
    if r.isPending || s.exiting || Fails(p, r) {
      QuietReportPhases(p, s, r, now, t);
      QuietReportPhases(p, s, r, now, r.task);
    } else if MustRetry(p, Counted(s, r).attempts, r) {
      RetryReportPhases(p, s, r, now, t);
    } else {
      CompleteReportPhases(p, s, r, now, t);
    }
  }

  lemma StepPhases(p: Pipeline, s: State, e: Event, t: nat)
    requires WellFormed(p) && Inv(p, s) && Enabled(p, s, e)
    ensures PhaseStep(p, s, e, t)
  {
    hide Owners, Core, OwnersRetry, TokenAttempts, Unique, Receive, PhaseStep;
    if e.Deliver? {
      ReportPhases(p, s, e.report, e.now, t);
    } else {
      MovePhases(p, s, e, t);
    }
  }

  lemma AttemptReport(p: Pipeline, s: State, r: TaskRunResult, now: int, t: nat)
    requires WellFormed(p) && ReportReady(p, s, r) && !s.exiting
    ensures Attempts(Receive(p, s, r, now).results, t) == Attempts(s.results, t) + (if r.task == t then 1 else 0)
  {
    hide Owners, OwnersRetry, TokenAttempts, Unique, Receive, Conserved, ResultsClosed, CountersExact, OwnersReady,
      Fails;
    if r.isPending {
      PendingOwners(p, s, r, now);
    } else if Fails(p, r) {
      ExitLedger(p, s, r, now);
    } else {
      RunningOwners(p, s, r, now);
    }
  }

  /** Outside exiting, a processed report is counted as an attempt of its task, and of no other. */
  lemma AttemptStep(p: Pipeline, s: State, e: Event, t: nat)
    requires WellFormed(p) && Inv(p, s) && Enabled(p, s, e) && !s.exiting
    ensures Attempts(Apply(p, s, e).results, t) == Attempts(s.results, t) + (if Receives(e, t) then 1 else 0)
  {
    hide Owners, OwnersRetry, TokenAttempts, Unique, Receive, Core;
    if e.Deliver? {
      AttemptReport(p, s, e.report, e.now, t);
    } else {
      MoveStep(p, s, e);
      assert LedgerOf(Apply(p, s, e)).results == LedgerOf(s).results;
    }
  }

  lemma AsleepHasTriesLeft(p: Pipeline, s: State, t: nat)
    requires TokenAttempts(p, s) && PhaseOf(s, t) == Asleep && !s.exiting && t < |p.tasks|
    ensures Attempts(s.results, t) < Tries(p, t)
  {
    var g :| g in s.goroutines && g.Sleeping? && g.task == t;
  }

  // ----- counting over runs -----

  /** How often task `t` was executed. */
  ghost function Executions(tr: Trace, t: nat): nat {
    if tr.Start? then 0 else Executions(tr.prev, t) + (if Starts(tr.event, t) then 1 else 0)
  }

  /** How many retries of `t` were cancelled. */
  ghost function Cancellations(tr: Trace, t: nat): nat {
    if tr.Start? then 0 else Cancellations(tr.prev, t) + (if Cancels(tr.event, t) then 1 else 0)
  }

  /** How many reports of `t` the scheduler has processed. */
  ghost function Receipts(tr: Trace, t: nat): nat {
    if tr.Start? then 0 else Receipts(tr.prev, t) + (if Receives(tr.event, t) then 1 else 0)
  }

  lemma FreshPhase(s: State, t: nat)
    requires Fresh(s)
    ensures PhaseOf(s, t) == Idle || PhaseOf(s, t) == Waiting
    ensures Attempts(s.results, t) == 0
  {
  }

  lemma ReceiptsStep(p: Pipeline, s: State, e: Event, t: nat, receipts: nat)
    requires WellFormed(p) && Inv(p, s) && Enabled(p, s, e) && Inv(p, Apply(p, s, e)) && t < |p.tasks|
    requires PhaseStep(p, s, e, t)
    requires !s.exiting ==> receipts == Attempts(s.results, t)
    requires receipts + (if PhaseOf(s, t) == Idle then 0 else 1) <= Tries(p, t)
    ensures var after := receipts + (if Receives(e, t) then 1 else 0);
      && (!Apply(p, s, e).exiting ==> after == Attempts(Apply(p, s, e).results, t))
      && after + (if PhaseOf(Apply(p, s, e), t) == Idle then 0 else 1) <= Tries(p, t)
  {
    hide Owners, Core, OwnersRetry, Unique, Apply, Enabled, PhaseOf, TokenAttempts;
    var s' := Apply(p, s, e);
    if !s.exiting {
      AttemptStep(p, s, e, t);
    } else {
      ExitingOwnersShrink(p, s, e);
    }
    if PhaseOf(s', t) == Asleep && !s'.exiting {
      AsleepHasTriesLeft(p, s', t);
    }
  }

  /** In every reachable state: every execution and every cancelled retry of a task has been
      reported and received exactly once, except the one in flight; outside exiting the stored
      attempts are the reports processed; and no task gets more tries than it may. */
  lemma {:induction false} RunCounts(p: Pipeline, s0: State, tr: Trace, t: nat)
    requires WellFormed(p) && Inv(p, s0) && Fresh(s0) && IsRun(p, s0, tr) && t < |p.tasks|
    ensures var s := After(p, s0, tr);
      && Executions(tr, t) + Cancellations(tr, t) == Receipts(tr, t) + (if Busy(PhaseOf(s, t)) then 1 else 0)
      && (!s.exiting ==> Receipts(tr, t) == Attempts(s.results, t))
      && Receipts(tr, t) + (if PhaseOf(s, t) == Idle then 0 else 1) <= Tries(p, t)
  {
    hide Owners, Core, OwnersRetry, Unique, PhaseOf, TokenAttempts, Apply, Enabled;
    if tr.Start? {
      FreshPhase(s0, t);
    } else {
      var s := After(p, s0, tr.prev);
      RunCounts(p, s0, tr.prev, t);
      RunKeeps(p, s0, tr.prev);
      RunKeeps(p, s0, tr);
      StepPhases(p, s, tr.event, t);
      ReceiptsStep(p, s, tr.event, t, Receipts(tr.prev, t));
    }
  }

  /** In one run of the scheduler a task is executed at most max(1, retries) times. */
  lemma ExecutionsBounded(p: Pipeline, s0: State, tr: Trace, t: nat)
    requires WellFormed(p) && Inv(p, s0) && Fresh(s0) && IsRun(p, s0, tr) && t < |p.tasks|
    ensures Executions(tr, t) <= Tries(p, t)
  {
    hide Owners, Core, PhaseOf, TokenAttempts, Apply, Enabled, After;
    RunCounts(p, s0, tr, t);
  }

  /** Reports after which a task is never executed again: success, pending, fail-early error, or the
      last try. */
  ghost predicate Conclusive(p: Pipeline, s: State, r: TaskRunResult)
    requires r.task < |p.tasks|
  {
    r.isPending || r.result.error.None? || p.tasks[r.task].failEarly || s.exiting
    || Counted(s, r).attempts >= p.tasks[r.task].retries
  }

  lemma FinalReportSettles(p: Pipeline, s: State, r: TaskRunResult, now: int)
    requires WellFormed(p) && ReportReady(p, s, r) && Conclusive(p, s, r)
    ensures r.task in Receive(p, s, r, now).results && r.task !in Owners(Receive(p, s, r, now))
    ensures Receive(p, s, r, now).results[r.task] == Counted(s, r)
  {
    if r.isPending {
      PendingOwners(p, s, r, now);
    } else if s.exiting || Fails(p, r) {
      ExitOwners(p, s, r, now);
      assert KnownResults(p, LedgerOf(s));
      ExitLedger(p, s, r, now);
    } else {
      RunningOwners(p, s, r, now);
      CompleteReportPhases(p, s, r, now, r.task);
      CompleteReportKeeps(p, s, r, now);
      assert Unique(Receive(p, s, r, now));
      OwnersHavePhases(Receive(p, s, r, now), r.task);
    }
  }

  lemma {:induction false} SettledIsNotExecuted(p: Pipeline, s0: State, tr: Trace, later: Trace, t: nat)
    requires WellFormed(p) && Inv(p, s0) && IsRun(p, s0, later) && Continues(tr, later) && IsRun(p, s0, tr)
    requires t in After(p, s0, tr).results && t !in Owners(After(p, s0, tr))
    ensures Executions(later, t) == Executions(tr, t)
    decreases later
  {
    hide Owners, Core, OwnersRetry, Unique, TokenAttempts;
    if tr != later {
      SettledIsNotExecuted(p, s0, tr, later.prev, t);
      ContinuingIsStable(p, s0, tr, later.prev);
      assert t !in LedgerOf(After(p, s0, later.prev)).owners;
      if later.event == Dispatch(t) {
        DispatchTakesOwner(p, After(p, s0, later.prev), t);
      }
    }
  }

  /** Once a final report of a task is processed, its result stands and it is not executed again. */
  lemma NoExecutionAfterFinal(p: Pipeline, s0: State, before: Trace, later: Trace, r: TaskRunResult, now: int)
    requires WellFormed(p) && Inv(p, s0) && IsRun(p, s0, later) && Continues(Then(before, Deliver(r, now)), later)
    requires IsRun(p, s0, Then(before, Deliver(r, now))) && r.task < |p.tasks| && Conclusive(p, After(p, s0, before), r)
    ensures Executions(later, r.task) == Executions(before, r.task)
    ensures r.task in After(p, s0, later).results
    ensures After(p, s0, later).results[r.task] == Counted(After(p, s0, before), r)
  {
    hide Owners, Core, OwnersRetry, Unique, PhaseOf, TokenAttempts, Conclusive, Fails, Receive, Counted;
    var s, tr := After(p, s0, before), Then(before, Deliver(r, now));
    RunKeeps(p, s0, before);
    FinalReportSettles(p, s, r, now);
    ContinuingIsStable(p, s0, tr, later);
    assert r.task !in LedgerOf(After(p, s0, tr)).owners;
    SettledIsNotExecuted(p, s0, tr, later, r.task);
  }

  // ----- first schedules -----

  /** A report queues a first run of `t`. */
  ghost predicate QueuesFirst(p: Pipeline, s: State, e: Event, t: nat)
    requires InRange(p) && Enabled(p, s, e)
  {
    e.Deliver? && PhaseOf(s, t) == Idle && PhaseOf(Apply(p, s, e), t) == Waiting
  }

  /** How often a first run of `t` was queued by a report. */
  ghost function FirstSchedules(p: Pipeline, s0: State, tr: Trace, t: nat): nat
    requires InRange(p) && IsRun(p, s0, tr)
  {
    if tr.Start? then 0
    else FirstSchedules(p, s0, tr.prev, t) + (if QueuesFirst(p, After(p, s0, tr.prev), tr.event, t) then 1 else 0)
  }

  ghost predicate Started(s: State, t: nat) {
    PhaseOf(s, t) != Idle || t in s.results
  }

  /** Outside exiting, only a report of `t` itself gives `t` a result. */
  lemma NewResultIsReported(p: Pipeline, s: State, r: TaskRunResult, now: int, t: nat)
    requires WellFormed(p) && ReportReady(p, s, r) && !Receive(p, s, r, now).exiting
    ensures t in Receive(p, s, r, now).results ==> t in s.results || t == r.task
  {
    if s.exiting {
      ExitingOwnersShrink(p, s, Deliver(r, now));
    }
    hide Inv, Receive, Owners;
    if r.isPending {
      PendingOwners(p, s, r, now);
    } else {
      NotExitingNotFails(p, s, r, now);
      RunningOwners(p, s, r, now);
    }
  }

  lemma NotExitingNotFails(p: Pipeline, s: State, r: TaskRunResult, now: int)
    requires InRange(p) && r.task < |p.tasks| && s.waiting > 0 && !r.isPending && !Receive(p, s, r, now).exiting
    ensures !Fails(p, r)
  {
    hide MarkRemaining, SetVariable;
  }

  lemma StartedStep(p: Pipeline, s: State, e: Event, t: nat)
    requires WellFormed(p) && Inv(p, s) && Enabled(p, s, e) && Inv(p, Apply(p, s, e)) && t < |p.tasks|
    ensures Started(s, t) ==> Started(Apply(p, s, e), t) && !QueuesFirst(p, s, e, t)
    ensures QueuesFirst(p, s, e, t) ==> Started(Apply(p, s, e), t)
    ensures !Apply(p, s, e).exiting && Started(Apply(p, s, e), t) ==> Started(s, t) || QueuesFirst(p, s, e, t)
  {
    hide Unique, Core, TokenAttempts, OwnersRetry, Owners, PhaseOf, Receive, SortedLinks, InverseLinks, PositionalIds,
      UniqueQueue, UniqueLive;
    StepPhases(p, s, e, t);
    OwnersHavePhases(s, t);
    OwnersHavePhases(Apply(p, s, e), t);
    if Started(s, t) {
      OwnersLeaveResults(p, s, e, t);
    }
    if !e.Deliver? {
      MoveStep(p, s, e);
      assert LedgerOf(Apply(p, s, e)).results == LedgerOf(s).results;
    } else if !Apply(p, s, e).exiting {
      NewResultIsReported(p, s, e.report, e.now, t);
    }
  }

  /** A task is first-scheduled at most once: by the construction of the scheduler or by one report.
      Until the scheduler exits, a task has been started exactly if that has happened. */
  lemma {:induction false} FirstScheduledOnce(p: Pipeline, s0: State, tr: Trace, t: nat)
    requires WellFormed(p) && Inv(p, s0) && IsRun(p, s0, tr) && t < |p.tasks|
    ensures FirstSchedules(p, s0, tr, t) + (if Started(s0, t) then 1 else 0) <=
      (if Started(After(p, s0, tr), t) then 1 else 0)
    ensures !After(p, s0, tr).exiting ==>
      FirstSchedules(p, s0, tr, t) + (if Started(s0, t) then 1 else 0) ==
        (if Started(After(p, s0, tr), t) then 1 else 0)
  {
    hide Inv, PhaseOf, Started, Apply, Enabled, QueuesFirst;
    if tr.Then? {
      FirstScheduledOnce(p, s0, tr.prev, t);
      RunKeeps(p, s0, tr.prev);
      RunKeeps(p, s0, tr);
      StartedStep(p, After(p, s0, tr.prev), tr.event, t);
      if After(p, s0, tr.prev).exiting {
        ExitingOwnersShrink(p, After(p, s0, tr.prev), tr.event);
      }
    }
  }
}
