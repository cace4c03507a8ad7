/** Every run is finite, can always be continued until the runner returns, and never gets stuck. */
module Termination {
  import opened Values
  import opened Pipelines
  import opened Scheduling
  import opened Tokens
  import opened Ledgers
  import opened Invariants
  import opened Startup
  import opened Phases
  import opened FailEarly
  import opened Counting

  function Progress(phase: Phase): nat {
    match phase case Idle => 0 case Asleep => 0 case Waiting => 1 case Working => 2 case Ready => 3
  }

  /** What task `t` can still do: four steps for every try that is left, or for the token in flight
      once the scheduler exits. */
  ghost function Budget(p: Pipeline, s: State, t: nat): int
    requires t < |p.tasks|
  {
    var phase := PhaseOf(s, t);
    if phase == Idle then
      if t in s.results || s.exiting then 0 else 4 * Tries(p, t)
    else
      (if s.exiting then 4 else 4 * (Tries(p, t) - Attempts(s.results, t))) - Progress(phase)
  }

  ghost function Total(p: Pipeline, s: State, n: nat): int
    requires n <= |p.tasks|
  {
    if n == 0 then 0 else Total(p, s, n - 1) + Budget(p, s, n - 1)
  }

  /** The decreasing measure: the budgets of all tasks, the close and the return. */
  ghost function Measure(p: Pipeline, s: State): int {
    Total(p, s, |p.tasks|) + (if s.closed then 0 else 1) + (if s.returned then 0 else 1)
  }

  function SumOfTries(p: Pipeline, n: nat): nat
    requires n <= |p.tasks|
  {
    if n == 0 then 0 else SumOfTries(p, n - 1) + Tries(p, n - 1)
  }

  // ----- budgets are not negative -----

  lemma PhaseLeavesTries(p: Pipeline, s: State, t: nat)
    requires Inv(p, s) && t < |p.tasks| && PhaseOf(s, t) != Idle && !s.exiting
    ensures Attempts(s.results, t) < Tries(p, t)
  {
    hide Core, TokenAttempts, Owners, PhaseOf;
    OwnersHavePhases(s, t);
    assert t in s.results ==> Retrying(p, LedgerOf(s).results[t], t);
  }

  lemma {:induction false} TotalIsNat(p: Pipeline, s: State, n: nat)
    requires Inv(p, s) && n <= |p.tasks|
    ensures Total(p, s, n) >= 0
  {
    hide Inv, Budget;
    if n > 0 {
      TotalIsNat(p, s, n - 1);
      BudgetIsNat(p, s, n - 1);
    }
  }

  lemma BudgetIsNat(p: Pipeline, s: State, t: nat)
    requires Inv(p, s) && t < |p.tasks|
    ensures Budget(p, s, t) >= 0
    ensures PhaseOf(s, t) != Idle ==> Budget(p, s, t) >= 4 - Progress(PhaseOf(s, t))
  {
    hide Owners, Core, OwnersRetry, Unique, PhaseOf, TokenAttempts;
    if PhaseOf(s, t) != Idle && !s.exiting {
      PhaseLeavesTries(p, s, t);
    }
  }

  // ----- every event spends -----

  /** The task whose token an event moves spends at least one step; no other task gains. */
  lemma BudgetStep(p: Pipeline, s: State, e: Event, t: nat)
    requires WellFormed(p) && Inv(p, s) && Enabled(p, s, e) && Inv(p, Apply(p, s, e)) && t < |p.tasks|
    ensures Budget(p, Apply(p, s, e), t) <= Budget(p, s, t)
    ensures (IsMove(e) || e.Deliver?) && Mover(e) == t ==> Budget(p, Apply(p, s, e), t) < Budget(p, s, t)
  {
    hide Owners, Core, OwnersRetry, Unique, PhaseOf, TokenAttempts, Apply, Enabled;
    StepPhases(p, s, e, t);
    StepResults(p, s, e, t);
    BudgetIsNat(p, s, t);
    if IsMove(e) {
      StepMovesMover(p, s, e);
    }
    if !s.exiting {
      AttemptStep(p, s, e, t);
      if PhaseOf(s, t) != Idle {
        PhaseLeavesTries(p, s, t);
      }
    }
  }

  lemma StepMovesMover(p: Pipeline, s: State, e: Event)
    requires WellFormed(p) && Inv(p, s) && Enabled(p, s, e) && IsMove(e)
    ensures PhaseOf(s, Mover(e)) == From(e) && PhaseOf(Apply(p, s, e), Mover(e)) == To(e)
  {
    hide Owners, Core, OwnersRetry, PhaseOf, TokenAttempts, Apply, Enabled, Unique;
    MoveEffect(p, s, e);
  }

  lemma ReportResults(p: Pipeline, s: State, r: TaskRunResult, now: int, t: nat)
    requires WellFormed(p) && ReportReady(p, s, r)
    ensures t in s.results || r.task == t ==> t in Receive(p, s, r, now).results
  {
    hide Inv, Receive, Owners;
    if r.isPending {
      PendingOwners(p, s, r, now);
    } else if s.exiting || Fails(p, r) {
      ExitOwners(p, s, r, now);
    } else {
      RunningOwners(p, s, r, now);
    }
  }

  /** Results are never removed, a received report leaves one, and exiting is for good. */
  lemma StepResults(p: Pipeline, s: State, e: Event, t: nat)
    requires WellFormed(p) && Inv(p, s) && Enabled(p, s, e) && t < |p.tasks|
    ensures s.exiting ==> Apply(p, s, e).exiting
    ensures !e.Deliver? ==> Apply(p, s, e).exiting == s.exiting && Apply(p, s, e).results == s.results
    ensures t in s.results || Receives(e, t) ==> t in Apply(p, s, e).results
  {
    hide Owners, Core, OwnersRetry, TokenAttempts, Unique, NewMemoryTaskRun, Receive, SortedLinks, InverseLinks;
    if s.exiting {
      ExitingOwnersShrink(p, s, e);
    }
    if e.Deliver? {
      ReportResults(p, s, e.report, e.now, t);
    } else {
      MoveStep(p, s, e);
      assert LedgerOf(Apply(p, s, e)).results == LedgerOf(s).results;
      assert LedgerOf(Apply(p, s, e)).exiting == LedgerOf(s).exiting;
    }
  }

  lemma {:induction false} TotalStep(p: Pipeline, s: State, e: Event, n: nat)
    requires WellFormed(p) && Inv(p, s) && Enabled(p, s, e) && Inv(p, Apply(p, s, e)) && n <= |p.tasks|
    ensures Total(p, Apply(p, s, e), n) <= Total(p, s, n)
    ensures (IsMove(e) || e.Deliver?) && Mover(e) < n ==> Total(p, Apply(p, s, e), n) < Total(p, s, n)
  {
    hide Inv, Budget, Apply, Enabled, WellFormed;
    if n > 0 {
      TotalStep(p, s, e, n - 1);
      BudgetStep(p, s, e, n - 1);
    }
  }

  lemma MoverIsTask(p: Pipeline, s: State, e: Event)
    requires WellFormed(p) && Inv(p, s) && Enabled(p, s, e) && (IsMove(e) || e.Deliver?)
    ensures Mover(e) < |p.tasks|
  {
    if IsMove(e) {
      StepMovesMover(p, s, e);
      OwnersHavePhases(s, Mover(e));
    }
  }

  /** Every event decreases the measure. */
  lemma MeasureDecreases(p: Pipeline, s: State, e: Event)
    requires WellFormed(p) && Inv(p, s) && Enabled(p, s, e)
    ensures 0 <= Measure(p, Apply(p, s, e)) < Measure(p, s)
  {
    hide Owners, Core, OwnersRetry, Unique, PhaseOf, TokenAttempts, Budget, Total;
    StepKeeps(p, s, e);
    TotalIsNat(p, Apply(p, s, e), |p.tasks|);
    TotalStep(p, s, e, |p.tasks|);
    if IsMove(e) || e.Deliver? {
      MoverIsTask(p, s, e);
      StepKeepsEnds(p, s, e);
    } else if e.Drop? {
      NothingAfterClose(p, s);
    }
  }

  lemma StepKeepsEnds(p: Pipeline, s: State, e: Event)
    requires WellFormed(p) && Enabled(p, s, e) && (IsMove(e) || e.Deliver?)
    ensures Apply(p, s, e).closed == s.closed && Apply(p, s, e).returned == s.returned
  {
    hide NewMemoryTaskRun, SetVariable;
    if e.Deliver? {
      var r := e.report;
      var s2 := StoreVariable(p, StoreReport(s, r), r, e.now);
      if !r.isPending && !s2.exiting && !MustRetry(p, Counted(s, r).attempts, r) {
        OutputsDistinct(p, r.task);
        Releases.ReleaseQueues(p, s2, p.tasks[r.task].outputs);
      }
    }
  }

  ghost function Length(tr: Trace): nat {
    if tr.Start? then 0 else Length(tr.prev) + 1
  }

  /** No run is longer than the measure of its first state. */
  lemma {:induction false} RunsAreFinite(p: Pipeline, s0: State, tr: Trace)
    requires WellFormed(p) && Inv(p, s0) && IsRun(p, s0, tr)
    ensures 0 <= Length(tr) + Measure(p, After(p, s0, tr)) <= Measure(p, s0)
    ensures Measure(p, After(p, s0, tr)) >= 0
  {
    hide Inv, Measure, Apply, Enabled;
    if tr.Start? {
      MeasureIsNat(p, s0);
    } else {
      RunsAreFinite(p, s0, tr.prev);
      RunKeeps(p, s0, tr.prev);
      MeasureDecreases(p, After(p, s0, tr.prev), tr.event);
    }
  }

  lemma MeasureIsNat(p: Pipeline, s: State)
    requires Inv(p, s)
    ensures Measure(p, s) >= 0
  {
    TotalIsNat(p, s, |p.tasks|);
  }

  lemma {:induction false} FreshTotal(p: Pipeline, s: State, n: nat)
    requires Fresh(s) && n <= |p.tasks|
    ensures Total(p, s, n) <= 4 * SumOfTries(p, n)
  {
    if n > 0 {
      FreshTotal(p, s, n - 1);
      FreshBudget(p, s, n - 1);
    }
  }

  lemma FreshBudget(p: Pipeline, s: State, t: nat)
    requires Fresh(s) && t < |p.tasks|
    ensures Budget(p, s, t) <= 4 * Tries(p, t)
  {
    FreshPhase(s, t);
  }

  /** All reports processed in a run. */
  ghost function AllReceipts(tr: Trace): nat {
    if tr.Start? then 0 else AllReceipts(tr.prev) + (if tr.event.Deliver? then 1 else 0)
  }

  ghost function ReceiptsBelow(tr: Trace, n: nat): nat {
    if n == 0 then 0 else ReceiptsBelow(tr, n - 1) + Receipts(tr, n - 1)
  }

  lemma {:induction false} ReceiptsBelowStep(tr: Trace, n: nat)
    requires tr.Then?
    ensures ReceiptsBelow(tr, n) == ReceiptsBelow(tr.prev, n) +
      (if tr.event.Deliver? && tr.event.report.task < n then 1 else 0)
  {
    if n > 0 {
      ReceiptsBelowStep(tr, n - 1);
    }
  }

  lemma {:induction false} ReceiptsAddUp(p: Pipeline, s0: State, tr: Trace)
    requires WellFormed(p) && IsRun(p, s0, tr)
    ensures AllReceipts(tr) == ReceiptsBelow(tr, |p.tasks|)
  {
    if tr.Start? {
      NoReceipts(|p.tasks|);
    } else {
      ReceiptsAddUp(p, s0, tr.prev);
      ReceiptsBelowStep(tr, |p.tasks|);
    }
  }

  lemma {:induction false} NoReceipts(n: nat)
    ensures ReceiptsBelow(Start, n) == 0
  {
    if n > 0 {
      NoReceipts(n - 1);
    }
  }

  lemma {:induction false} ReceiptsBelowBounded(p: Pipeline, s0: State, tr: Trace, n: nat)
    requires WellFormed(p) && Inv(p, s0) && Fresh(s0) && IsRun(p, s0, tr) && n <= |p.tasks|
    ensures ReceiptsBelow(tr, n) <= SumOfTries(p, n)
  {
    hide Inv, Fresh, IsRun, After, Tries, PhaseOf, Receipts, SortedLinks, InverseLinks, PositionalIds, InRange;
    if n > 0 {
      ReceiptsBelowBounded(p, s0, tr, n - 1);
      RunCounts(p, s0, tr, n - 1);
    }
  }

  /** The scheduler loop processes at most the sum over all tasks of max(1, retries) reports, and a
      run has at most four events for each of these, the close and the return. */
  lemma RunsAreBounded(p: Pipeline, s0: State, tr: Trace)
    requires WellFormed(p) && Inv(p, s0) && Fresh(s0) && IsRun(p, s0, tr)
    ensures AllReceipts(tr) <= SumOfTries(p, |p.tasks|)
    ensures Length(tr) <= 4 * SumOfTries(p, |p.tasks|) + 2
  {
    hide Inv, Fresh;
    ReceiptsAddUp(p, s0, tr);
    ReceiptsBelowBounded(p, s0, tr, |p.tasks|);
    RunsAreFinite(p, s0, tr);
    FreshTotal(p, s0, |p.tasks|);
  }

  // ----- progress -----

  /** Something that can happen next. */
  ghost function Next(p: Pipeline, s: State): Event
    requires Inv(p, s) && !s.returned
  {
    if s.taskCh != [] then Dispatch(s.taskCh[0].task)
    else if s.goroutines != multiset{} then
      var g :| g in s.goroutines;
      match g
      case Executing(run) => Finish(run, NO_RESULT, false, 0)
      case Sleeping(_, _, _) => Fire(g)
      case Reporting(r) => Deliver(r, 0)
    else if !s.closed then Close
    else Return
  }

  /** No deadlock: until the runner returns, something can happen that discards no report. */
  lemma NeverStuck(p: Pipeline, s: State)
    requires WellFormed(p) && Inv(p, s) && !s.returned
    ensures Enabled(p, s, Next(p, s)) && !Next(p, s).Drop?
  {
    hide Owners, Core, OwnersRetry, TokenAttempts;
    var e := Next(p, s);
    if s.goroutines != multiset{} && s.taskCh == [] {
      RoomForOneMore(p, s);
      if e.Deliver? {
        TakeReport(p, s, e.report);
      }
      if e.Fire? {
        SleeperIsTask(p, s, e.sleeper);
      }
    }
  }

  lemma SleeperIsTask(p: Pipeline, s: State, g: Goroutine)
    requires Conserved(p, s) && g in s.goroutines && g.Sleeping?
    ensures g.task < |p.tasks|
  {
    assert g.Owner() in Owners(s);
  }

  /** Any retry timer that expires finds room in the task channel. */
  lemma TimersNeverBlock(p: Pipeline, s: State, g: Goroutine)
    requires Inv(p, s) && g in s.goroutines && g.Sleeping?
    ensures Enabled(p, s, Fire(g))
  {
    hide Core, OwnersRetry, TokenAttempts;
    RoomForOneMore(p, s);
    SleeperIsTask(p, s, g);
  }

  /** A report is discarded in no reachable state. */
  lemma NoReportIsDropped(p: Pipeline, s: State, r: TaskRunResult)
    requires Inv(p, s)
    ensures !Enabled(p, s, Drop(r))
  {
    if s.closed {
      NothingAfterClose(p, s);
    }
  }

  /** Every run can be continued until the channel is closed and the runner has returned. */
  lemma {:induction false} RunsComplete(p: Pipeline, s0: State, tr: Trace) returns (later: Trace)
    requires WellFormed(p) && Inv(p, s0) && IsRun(p, s0, tr)
    ensures IsRun(p, s0, later) && Continues(tr, later) && After(p, s0, later).returned && After(p, s0, later).closed
    decreases Measure(p, After(p, s0, tr))
  {
    hide Measure, Next, Apply, Enabled, Core, Owners, Conserved, TokenAttempts, OwnersRetry;
    var s := After(p, s0, tr);
    RunKeeps(p, s0, tr);
    if s.returned {
      later := tr;
    } else {
      var e := Next(p, s);
      NeverStuck(p, s);
      MeasureDecreases(p, s, e);
      later := RunsComplete(p, s0, Then(tr, e));
      ContinuesIsTransitive(tr, Then(tr, e), later);
    }
  }

  lemma {:induction false} ContinuesIsTransitive(a: Trace, b: Trace, c: Trace)
    requires Continues(a, b) && Continues(b, c)
    ensures Continues(a, c)
    decreases c
  {
    if b != c {
      ContinuesIsTransitive(a, b, c.prev);
    }
  }

  /** Nobody is stuck, and nobody decides for the others. In every reachable state an executing task may
      return anything at any time, or panic; whoever reports can be received; a sleeping retry can
      fire, and be cancelled once the scheduler is exiting; the next run can be dispatched; and with
      nothing waiting the channel can be closed. */
  lemma EveryoneCanMove(p: Pipeline, s0: State, tr: Trace, run: MemoryTaskRun, result: Result, isPending: bool,
      detail: string, g: Goroutine, r: TaskRunResult, now: int)
    requires WellFormed(p) && Inv(p, s0) && IsRun(p, s0, tr)
    ensures var s := After(p, s0, tr);
      && (Executing(run) in s.goroutines ==>
            Enabled(p, s, Finish(run, result, isPending, now)) && Enabled(p, s, Panic(run, detail, now)))
      && (Reporting(r) in s.goroutines ==> Enabled(p, s, Deliver(r, now)))
      && (g in s.goroutines && g.Sleeping? ==>
            Enabled(p, s, Fire(g)) && (Enabled(p, s, Cancel(g, now)) <==> s.exiting))
      && (s.taskCh != [] ==> Enabled(p, s, Dispatch(s.taskCh[0].task)))
      && (Enabled(p, s, Close) <==> s.waiting == 0 && !s.closed)
  {
    hide IsRun, After, SortedLinks, InverseLinks, PositionalIds, InRange, Inv, Enabled;
    RunKeeps(p, s0, tr);
    var s := After(p, s0, tr);
    ExecutingMoves(p, s, run, result, isPending, detail, now);
    QueueMoves(p, s);
    if g in s.goroutines && g.Sleeping? {
      TimersNeverBlock(p, s, g);
      SleeperIsOpen(p, s, g);
      SleeperMoves(p, s, g, now);
    }
    if Reporting(r) in s.goroutines {
      ReportMoves(p, s, r, now);
    }
  }

  lemma ExecutingMoves(p: Pipeline, s: State, run: MemoryTaskRun, result: Result, isPending: bool, detail: string,
      now: int)
    ensures Executing(run) in s.goroutines ==>
      Enabled(p, s, Finish(run, result, isPending, now)) && Enabled(p, s, Panic(run, detail, now))
  {
  }

  lemma QueueMoves(p: Pipeline, s: State)
    ensures s.taskCh != [] ==> Enabled(p, s, Dispatch(s.taskCh[0].task))
    ensures Enabled(p, s, Close) <==> s.waiting == 0 && !s.closed
  {
  }

  lemma SleeperMoves(p: Pipeline, s: State, g: Goroutine, now: int)
    requires g in s.goroutines && g.Sleeping? && !s.closed
    ensures Enabled(p, s, Cancel(g, now)) <==> s.exiting
  {
  }

  lemma SleeperIsOpen(p: Pipeline, s: State, g: Goroutine)
    requires Inv(p, s) && g in s.goroutines
    ensures !s.closed
  {
    if s.closed {
      NothingAfterClose(p, s);
    }
  }

  lemma ReportMoves(p: Pipeline, s: State, r: TaskRunResult, now: int)
    requires Inv(p, s) && Reporting(r) in s.goroutines
    ensures Enabled(p, s, Deliver(r, now))
  {
    ReporterIsTask(p, s, r);
    SleeperIsOpen(p, s, Reporting(r));
    hide Inv;
  }

  lemma ReporterIsTask(p: Pipeline, s: State, r: TaskRunResult)
    requires Inv(p, s) && Reporting(r) in s.goroutines
    ensures r.task < |p.tasks| && s.waiting > 0
  {
    TakeReport(p, s, r);
    hide OwnersRetry, TokenAttempts, Owners, Conserved;
    assert r.task in LedgerOf(s).owners;
  }
}
