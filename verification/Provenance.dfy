/** Where results come from. Every stored result is what the last received end of its task says: what
    the task returned, a panic, or a cancelled retry. Or the task never reported in this run, and then
    its result was restored, or filled in when the scheduler exited. */
module Provenance {
  import opened Values
  import Keypaths
  import opened Variables
  import opened Pipelines
  import opened Scheduling
  import opened Tokens
  import opened Releases
  import opened Ledgers
  import opened Invariants
  import opened Startup
  import opened FailEarly
  import opened Phases
  import opened Counting
  import opened Evaluation
  import Resume

  /** Event `e` ends an execution or a retry of task `t`, so that `t` reports. */
  ghost predicate EndOf(e: Event, t: nat) {
    || (e.Finish? && e.run.task == t)
    || (e.Panic? && e.run.task == t)
    || (e.Cancel? && e.sleeper.Owner() == t)
  }

  /** The last end of `t`. */
  ghost function LastEnd(tr: Trace, t: nat): Option<Event> {
    if tr.Start? then None
    else if EndOf(tr.event, t) then Some(tr.event)
    else LastEnd(tr.prev, t)
  }

  /** The last end of `t` of which the scheduler has received the report. */
  ghost function LastReceived(tr: Trace, t: nat): Option<Event> {
    if tr.Start? then None
    else if Receives(tr.event, t) then LastEnd(tr.prev, t)
    else LastReceived(tr.prev, t)
  }

  /** What the end of a task says about its result. */
  ghost predicate EndSays(e: Event, r: TaskRunResult) {
    match e
    case Finish(run, result, isPending, now) =>
      && r.task == run.task && r.result == result && r.isPending == isPending
      && (if isPending then r.finishedAt == None else r.finishedAt == Some(now))
    case Panic(run, detail, now) =>
      && r.task == run.task && r.result.value == Scalar(Nil) && r.result.error == Some(Panicked(detail))
      && !r.isPending && r.finishedAt == Some(now)
    case Cancel(g, now) => r.task == g.Owner() && IsCancelled(r) && r.finishedAt == Some(now)
    case _ => false
  }

  /** The error of fail-early, and no value. */
  ghost predicate IsCancelled(r: TaskRunResult) {
    r.result.value == Scalar(Nil) && r.result.error == Some(Cancelled) && !r.isPending
  }

  /** How many reports of `t` were received before the scheduler was exiting. */
  ghost function CountedReceipts(p: Pipeline, s0: State, tr: Trace, t: nat): nat
    requires InRange(p) && IsRun(p, s0, tr)
  {
    if tr.Start? then 0
    else
      CountedReceipts(p, s0, tr.prev, t) +
      (if Receives(tr.event, t) && !After(p, s0, tr.prev).exiting then 1 else 0)
  }

  // ----- one step -----

  /** What one report does to the results. */
  ghost predicate Stores(s: State, r: TaskRunResult, s': State) {
    && r.task in s'.results
    && s'.results[r.task].task == r.task && s'.results[r.task].result == r.result
    && s'.results[r.task].isPending == r.isPending && s'.results[r.task].finishedAt == r.finishedAt
    && s'.results[r.task].attempts == Attempts(s.results, r.task) + (if s.exiting then 0 else 1)
    && (forall t :: t in s.results && t != r.task ==> t in s'.results && s'.results[t] == s.results[t])
    && (forall t :: t in s'.results && t !in s.results && t != r.task ==>
          s'.exiting && IsCancelled(s'.results[t]) && s'.results[t].attempts == 0 && s'.results[t].finishedAt.Some?)
  }

  lemma PendingStores(p: Pipeline, s: State, r: TaskRunResult, now: int)
    requires WellFormed(p) && ReportReady(p, s, r) && r.isPending
    ensures Stores(s, r, Receive(p, s, r, now))
  {
    hide Inv, Receive, Owners, WellFormed;
    PendingOwners(p, s, r, now);
  }

  lemma ExitResultsStore(p: Pipeline, s: State, r: TaskRunResult, now: int, s': State)
    requires ExitResults(p, s, r, now, s'.results) && s'.exiting
    ensures Stores(s, r, s')
  {
  }

  lemma ExitStores(p: Pipeline, s: State, r: TaskRunResult, now: int)
    requires WellFormed(p) && ReportReady(p, s, r) && !r.isPending && (s.exiting || Fails(p, r))
    ensures Stores(s, r, Receive(p, s, r, now))
  {
    assert KnownResults(p, LedgerOf(s));
    hide Core, Conserved, TokenAttempts, OwnersRetry, Receive, Fails, KnownResults, SortedLinks, InverseLinks,
      Stores, ExitResults;
    ExitLedger(p, s, r, now);
    ExitResultsStore(p, s, r, now, Receive(p, s, r, now));
  }

  lemma RunningStores(p: Pipeline, s: State, r: TaskRunResult, now: int)
    requires WellFormed(p) && ReportReady(p, s, r) && !r.isPending && !s.exiting && !Fails(p, r)
    ensures Stores(s, r, Receive(p, s, r, now))
  {
    hide Inv, Receive, Owners, Fails, WellFormed;
    RunningOwners(p, s, r, now);
  }

  lemma ReportStores(p: Pipeline, s: State, r: TaskRunResult, now: int)
    requires WellFormed(p) && ReportReady(p, s, r)
    ensures Stores(s, r, Receive(p, s, r, now))
  {
    hide Inv, Receive, Fails, Stores, WellFormed;
    if r.isPending {
      PendingStores(p, s, r, now);
    } else if s.exiting || Fails(p, r) {
      ExitStores(p, s, r, now);
    } else {
      RunningStores(p, s, r, now);
    }
  }

  ghost predicate ReportsSay(s: State, end: Option<Event>, t: nat) {
    forall r :: Reporting(r) in s.goroutines && r.task == t ==> end.Some? && EndSays(end.value, r)
  }

  /** Where the result of `t` comes from, if `received` is the last end of which it was told. */
  ghost predicate ResultSays(s0: State, s: State, received: Option<Event>, t: nat) {
    match received
    case Some(e) => t in s.results && EndSays(e, s.results[t])
    case None =>
      t in s.results ==>
        || (t in s0.results && s.results[t] == s0.results[t])
        || (s.exiting && IsCancelled(s.results[t]) && s.results[t].finishedAt.Some?)
  }

  lemma NoOtherReport(s: State, run: MemoryTaskRun, r: TaskRunResult)
    requires Unique(s) && Executing(run) in s.goroutines && Reporting(r) in s.goroutines
    ensures r.task != run.task
  {
    if r.task == run.task {
      assert Has(s, run.task, Working) && Has(s, run.task, Ready);
      PlacesAreExclusive(s, run.task, Working, Ready);
    }
  }

  lemma NoReportAsleep(s: State, g: Goroutine, r: TaskRunResult)
    requires Unique(s) && g in s.goroutines && g.Sleeping? && Reporting(r) in s.goroutines
    ensures r.task != g.Owner()
  {
    if r.task == g.Owner() {
      assert Has(s, r.task, Asleep) && Has(s, r.task, Ready);
      PlacesAreExclusive(s, r.task, Asleep, Ready);
    }
  }

  lemma BecomeReports(s: State, before: Goroutine, r: TaskRunResult, e: Event, t: nat)
    requires EndSays(e, r) && forall r' :: Reporting(r') in s.goroutines ==> r'.task != t
    ensures ReportsSay(Become(s, before, Reporting(r)), Some(e), t)
  {
    hide EndSays;
    var s' := Become(s, before, Reporting(r));
    assert forall g :: g in s'.goroutines ==> g in s.goroutines || g == Reporting(r);
  }

  lemma EndReports(p: Pipeline, s: State, e: Event, t: nat)
    requires InRange(p) && Unique(s) && Enabled(p, s, e) && EndOf(e, t)
    ensures ReportsSay(Apply(p, s, e), Some(e), t)
  {
    hide Unique, Become, ReportsSay, InRange, NewMemoryTaskRun, Receive;
    forall r | Reporting(r) in s.goroutines ensures r.task != t {
      if e.Cancel? {
        NoReportAsleep(s, e.sleeper, r);
      } else {
        NoOtherReport(s, e.run, r);
      }
    }
    match e
    case Finish(run, result, isPending, now) =>
      BecomeReports(s, Executing(run), Executed(run, result, isPending, now), e, t);
    case Panic(run, detail, now) => BecomeReports(s, Executing(run), Errored(run.task, Panicked(detail), now), e, t);
    case Cancel(g, now) => BecomeReports(s, g, Errored(g.task, Cancelled, now), e, t);
  }

  /** A step that is no end of `t` adds no report of `t`. */
  lemma OtherStepReports(p: Pipeline, s: State, e: Event, t: nat, end: Option<Event>)
    requires InRange(p) && Enabled(p, s, e) && !e.Deliver? && !EndOf(e, t) && ReportsSay(s, end, t)
    ensures ReportsSay(Apply(p, s, e), end, t)
  {
    hide NewMemoryTaskRun, InRange, Receive, Become, ReportsSay;
    var s' := Apply(p, s, e);
    match e
    case Finish(run, result, isPending, now) =>
      OtherBecomes(s, Executing(run), Executed(run, result, isPending, now), t, end);
    case Panic(run, detail, now) => OtherBecomes(s, Executing(run), Errored(run.task, Panicked(detail), now), t, end);
    case Cancel(g, now) => OtherBecomes(s, g, Errored(g.task, Cancelled, now), t, end);
    case Dispatch(_) => SameReports(s, s', t, end);
    case Fire(_) => SameReports(s, s', t, end);
    case Drop(_) => SameReports(s, s', t, end);
    case _ => SameReports(s, s', t, end);
  }

  lemma OtherBecomes(s: State, before: Goroutine, r: TaskRunResult, t: nat, end: Option<Event>)
    requires ReportsSay(s, end, t) && r.task != t
    ensures ReportsSay(Become(s, before, Reporting(r)), end, t)
  {
    hide ReportsSay;
    var s' := Become(s, before, Reporting(r));
    forall r' | Reporting(r') in s'.goroutines && r'.task == t ensures Reporting(r') in s.goroutines {
      assert Reporting(r') in s.goroutines || Reporting(r') == Reporting(r);
    }
    FewerReports(s, s', t, end);
  }

  lemma FewerReports(s: State, s': State, t: nat, end: Option<Event>)
    requires ReportsSay(s, end, t)
    requires forall r :: Reporting(r) in s'.goroutines && r.task == t ==> Reporting(r) in s.goroutines
    ensures ReportsSay(s', end, t)
  {
    hide EndSays;
  }

  lemma SameReports(s: State, s': State, t: nat, end: Option<Event>)
    requires ReportsSay(s, end, t)
    requires forall g :: g in s'.goroutines && g.Reporting? ==> g in s.goroutines
    ensures ReportsSay(s', end, t)
  {
    hide EndSays;
  }

  lemma ReceiveReports(p: Pipeline, s: State, r: TaskRunResult, now: int, t: nat, end: Option<Event>)
    requires WellFormed(p) && ReportReady(p, s, r) && ReportsSay(s, end, t)
    ensures ReportsSay(Receive(p, s, r, now), end, t)
  {
    ReceivedReportsLeave(p, s, r, now);
    hide Receive, Inv, WellFormed, EndSays;
  }

  lemma ReceivedReportsLeave(p: Pipeline, s: State, r: TaskRunResult, now: int)
    requires WellFormed(p) && ReportReady(p, s, r)
    ensures forall r' :: Reporting(r') in Receive(p, s, r, now).goroutines ==> Reporting(r') in s.goroutines
  {
    hide SetVariable, MarkRemaining, NewMemoryTaskRun, SortedLinks, InverseLinks, Release, Counted, Inv;
    var s2 := StoreVariable(p, StoreReport(s, r), r, now);
    assert forall g :: g in s2.goroutines ==> g in s.goroutines;
    if !r.isPending && !s2.exiting && !MustRetry(p, Counted(s, r).attempts, r) {
      OutputsDistinct(p, r.task);
      ReleaseQueues(p, s2, p.tasks[r.task].outputs);
    }
  }

  // ----- runs -----

  lemma SaysTheSame(e: Event, r: TaskRunResult, stored: TaskRunResult)
    requires stored.task == r.task && stored.result == r.result && stored.isPending == r.isPending
    requires stored.finishedAt == r.finishedAt && EndSays(e, r)
    ensures EndSays(e, stored)
  {
  }

  lemma ReceivedReportSays(p: Pipeline, s0: State, s: State, r: TaskRunResult, now: int, t: nat, end: Option<Event>,
      received: Option<Event>)
    requires WellFormed(p) && ReportReady(p, s, r) && ReportsSay(s, end, t) && ResultSays(s0, s, received, t)
    ensures ResultSays(s0, Receive(p, s, r, now), if r.task == t then end else received, t)
  {
    hide Receive, Core, Conserved, TokenAttempts, OwnersRetry, SortedLinks, InverseLinks, PositionalIds, InRange,
      EndSays, IsCancelled;
    ReportStores(p, s, r, now);
    StaysExiting(p, s, r, now);
    var s' := Receive(p, s, r, now);
    if r.task == t {
      SaysTheSame(end.value, r, s'.results[t]);
    }
  }

  lemma StaysExiting(p: Pipeline, s: State, r: TaskRunResult, now: int)
    requires WellFormed(p) && ReportReady(p, s, r)
    ensures s.exiting ==> Receive(p, s, r, now).exiting
  {
    hide SetVariable, MarkRemaining, Inv;
  }

  lemma MovedResultSays(p: Pipeline, s0: State, s: State, e: Event, t: nat, received: Option<Event>)
    requires InRange(p) && Enabled(p, s, e) && !e.Deliver? && ResultSays(s0, s, received, t)
    ensures ResultSays(s0, Apply(p, s, e), received, t)
  {
    MoveKeepsRest(p, s, e);
    hide Apply, Enabled, EndSays, InRange;
  }

  lemma BecomeKeepsRest(s: State, before: Goroutine, after: Goroutine)
    ensures Become(s, before, after).results == s.results && Become(s, before, after).exiting == s.exiting
    ensures Become(s, before, after).vars == s.vars
  {
  }

  lemma MoveKeepsRest(p: Pipeline, s: State, e: Event)
    requires InRange(p) && Enabled(p, s, e) && !e.Deliver?
    ensures Apply(p, s, e).results == s.results && Apply(p, s, e).exiting == s.exiting
    ensures Apply(p, s, e).vars == s.vars
  {
    hide NewMemoryTaskRun, InRange, Receive, Executed, Errored, Become;
    match e
    case Finish(run, result, isPending, now) =>
      BecomeKeepsRest(s, Executing(run), Reporting(Executed(run, result, isPending, now)));
    case Panic(run, detail, now) =>
      BecomeKeepsRest(s, Executing(run), Reporting(Errored(run.task, Panicked(detail), now)));
    case Cancel(g, now) => BecomeKeepsRest(s, g, Reporting(Errored(g.task, Cancelled, now)));
    case _ =>
  }

  /** What the last end of `t`, and the last one of which the scheduler was told, say in each state. */
  ghost predicate Told(s0: State, s: State, end: Option<Event>, received: Option<Event>, t: nat) {
    && ReportsSay(s, end, t) && ResultSays(s0, s, received, t)
    && (PhaseOf(s, t) != Ready ==> received == end)
  }

  lemma ReadyUntilReceived(p: Pipeline, s: State, e: Event, t: nat)
    requires InRange(p) && Enabled(p, s, e) && PhaseStep(p, s, e, t) && !Receives(e, t) && PhaseOf(s, t) == Ready
    ensures PhaseOf(Apply(p, s, e), t) == Ready
  {
    hide PhaseOf, Apply, Enabled, InRange;
  }

  lemma EndIsReady(p: Pipeline, s: State, e: Event, t: nat)
    requires InRange(p) && Unique(s) && Enabled(p, s, e) && EndOf(e, t)
    ensures PhaseOf(Apply(p, s, e), t) == Ready
  {
    hide PhaseOf, Apply, Enabled, InRange, Unique, Moved;
    MoveEffect(p, s, e);
    MovedAt(s, Apply(p, s, e), Mover(e), To(e), t);
  }

  /** Outside Ready, the scheduler has been told of the last end. */
  lemma ToldPhase(p: Pipeline, s: State, e: Event, t: nat)
    requires WellFormed(p) && Inv(p, s) && Enabled(p, s, e)
    ensures EndOf(e, t) ==> PhaseOf(Apply(p, s, e), t) == Ready
    ensures !EndOf(e, t) && !Receives(e, t) && PhaseOf(Apply(p, s, e), t) != Ready ==> PhaseOf(s, t) != Ready
  {
    assert Unique(s);
    hide Unique, Inv, PhaseOf, PhaseStep, Apply, Enabled, EndOf, Receives, SortedLinks, InverseLinks, PositionalIds,
      InRange;
    if EndOf(e, t) {
      EndIsReady(p, s, e, t);
    } else if !Receives(e, t) && PhaseOf(s, t) == Ready {
      StepPhases(p, s, e, t);
      ReadyUntilReceived(p, s, e, t);
    }
  }

  lemma ToldNext(p: Pipeline, s0: State, s: State, e: Event, end: Option<Event>, received: Option<Event>, t: nat)
    requires WellFormed(p) && Inv(p, s) && Enabled(p, s, e) && Told(s0, s, end, received, t)
    ensures Told(s0, Apply(p, s, e), if EndOf(e, t) then Some(e) else end, if Receives(e, t) then end else received, t)
  {
    assert Unique(s);
    hide Unique, Inv, PhaseOf, Receive, ReportsSay, ResultSays, SortedLinks, InverseLinks, PositionalIds, InRange,
      Enabled, Apply, EndOf;
    ToldPhase(p, s, e, t);
    if e.Deliver? {
      NoEnd(e, t);
      Readied(p, s, e);
      AppliesReceive(p, s, e);
      ReceiveReports(p, s, e.report, e.now, t, end);
      ReceivedReportSays(p, s0, s, e.report, e.now, t, end, received);
    } else {
      MovedResultSays(p, s0, s, e, t, received);
      if EndOf(e, t) {
        EndReports(p, s, e, t);
      } else {
        OtherStepReports(p, s, e, t, end);
      }
    }
  }

  lemma NoEnd(e: Event, t: nat)
    requires e.Deliver?
    ensures !EndOf(e, t)
  {
  }

  lemma AppliesReceive(p: Pipeline, s: State, e: Event)
    requires InRange(p) && Enabled(p, s, e) && e.Deliver?
    ensures e.report.task < |p.tasks| && s.waiting > 0 && Apply(p, s, e) == Receive(p, s, e.report, e.now)
  {
    hide Receive;
  }

  lemma Readied(p: Pipeline, s: State, e: Event)
    requires Inv(p, s) && Enabled(p, s, e) && e.Deliver?
    ensures ReportReady(p, s, e.report)
  {
  }

  lemma {:induction false} RunTells(p: Pipeline, s0: State, tr: Trace, t: nat)
    requires WellFormed(p) && Inv(p, s0) && Fresh(s0) && IsRun(p, s0, tr)
    ensures Told(s0, After(p, s0, tr), LastEnd(tr, t), LastReceived(tr, t), t)
  {
    hide Inv, Told, Apply, Enabled, EndOf, Receives;
    if tr.Start? {
      NothingTold(s0, t);
    } else {
      RunTells(p, s0, tr.prev, t);
      RunKeeps(p, s0, tr.prev);
      ToldNext(p, s0, After(p, s0, tr.prev), tr.event, LastEnd(tr.prev, t), LastReceived(tr.prev, t), t);
    }
  }

  lemma NothingTold(s0: State, t: nat)
    requires Fresh(s0)
    ensures Told(s0, s0, None, None, t)
  {
    hide PhaseOf, Owners;
  }

  /** In every reachable state: a stored result says what the last received end of its task says; if
      there is none, it was restored, or is the cancelled result of an exiting scheduler. */
  lemma ResultsAreReported(p: Pipeline, s0: State, tr: Trace, t: nat)
    requires WellFormed(p) && Inv(p, s0) && Fresh(s0) && IsRun(p, s0, tr)
    ensures match LastReceived(tr, t)
      case Some(e) => t in After(p, s0, tr).results && EndSays(e, After(p, s0, tr).results[t])
      case None =>
        t in After(p, s0, tr).results ==>
          || (t in s0.results && After(p, s0, tr).results[t] == s0.results[t])
          || (After(p, s0, tr).exiting && IsCancelled(After(p, s0, tr).results[t]))
  {
    RunTells(p, s0, tr, t);
    hide Inv, Fresh, IsRun, After, WellFormed, EndSays, IsCancelled, PhaseOf;
  }

  /** The stored attempts are the reports received before the scheduler was exiting. */
  lemma {:induction false} AttemptsAreReceipts(p: Pipeline, s0: State, tr: Trace, t: nat)
    requires WellFormed(p) && Inv(p, s0) && Fresh(s0) && IsRun(p, s0, tr) && t in After(p, s0, tr).results
    ensures After(p, s0, tr).results[t].attempts == CountedReceipts(p, s0, tr, t)
  {
    AttemptsCount(p, s0, tr, t);
  }

  lemma {:induction false} AttemptsCount(p: Pipeline, s0: State, tr: Trace, t: nat)
    requires WellFormed(p) && Inv(p, s0) && Fresh(s0) && IsRun(p, s0, tr)
    ensures Attempts(After(p, s0, tr).results, t) == CountedReceipts(p, s0, tr, t)
  {
    hide Inv, Apply, Enabled, SortedLinks, InverseLinks, PositionalIds, InRange;
    if tr.Then? {
      AttemptsCount(p, s0, tr.prev, t);
      RunKeeps(p, s0, tr.prev);
      AttemptsNext(p, After(p, s0, tr.prev), tr.event, t);
    }
  }

  lemma AttemptsNext(p: Pipeline, s: State, e: Event, t: nat)
    requires WellFormed(p) && Inv(p, s) && Enabled(p, s, e)
    ensures Attempts(Apply(p, s, e).results, t) ==
      Attempts(s.results, t) + (if Receives(e, t) && !s.exiting then 1 else 0)
  {
    if e.Deliver? {
      ReportStores(p, s, e.report, e.now);
      hide Inv, Receive, WellFormed;
    } else {
      MoveKeepsRest(p, s, e);
    }
  }

  // ----- cancelled retries -----

  /** Once a retry of `t` has been cancelled, the scheduler is exiting and `t` ends with that. */
  lemma {:induction false} CancelledIsLast(p: Pipeline, s0: State, tr: Trace, t: nat)
    requires WellFormed(p) && Inv(p, s0) && IsRun(p, s0, tr) && Cancellations(tr, t) > 0
    ensures After(p, s0, tr).exiting && PhaseOf(After(p, s0, tr), t) in {Ready, Idle}
    ensures LastEnd(tr, t).Some? && LastEnd(tr, t).value.Cancel?
  {
    hide Inv, PhaseOf, Apply, Enabled, SortedLinks, InverseLinks, PositionalIds, InRange, EndOf;
    var s := After(p, s0, tr.prev);
    RunKeeps(p, s0, tr.prev);
    if Cancels(tr.event, t) {
      CancelEnds(p, s, tr.event, t);
    } else {
      CancelledIsLast(p, s0, tr.prev, t);
      CancelledStep(p, s, tr.event, t);
    }
  }

  lemma CancelEnds(p: Pipeline, s: State, e: Event, t: nat)
    requires WellFormed(p) && Inv(p, s) && Enabled(p, s, e) && Cancels(e, t)
    ensures EndOf(e, t) && e.Cancel? && Apply(p, s, e).exiting && PhaseOf(Apply(p, s, e), t) == Ready
  {
    if s.closed {
      NothingAfterClose(p, s);
    }
    StepPhases(p, s, e, t);
    hide Inv, PhaseOf, WellFormed;
  }

  lemma CancelledStep(p: Pipeline, s: State, e: Event, t: nat)
    requires WellFormed(p) && Inv(p, s) && Enabled(p, s, e) && !Cancels(e, t)
    requires s.exiting && PhaseOf(s, t) in {Ready, Idle}
    ensures !EndOf(e, t) && Apply(p, s, e).exiting && PhaseOf(Apply(p, s, e), t) in {Ready, Idle}
  {
    assert Unique(s);
    hide Inv, PhaseOf, PhaseStep, Unique, Receive, Apply, Enabled, EndOf, Cancels, SortedLinks, InverseLinks,
      PositionalIds, InRange;
    StepPhases(p, s, e, t);
    if e.Deliver? {
      Readied(p, s, e);
      AppliesReceive(p, s, e);
      StaysExiting(p, s, e.report, e.now);
    } else {
      MoveKeepsRest(p, s, e);
    }
    ExitingPhases(p, s, e, t);
  }

  /** While exiting, a task that is not working or asleep only reports. */
  lemma ExitingPhases(p: Pipeline, s: State, e: Event, t: nat)
    requires InRange(p) && Unique(s) && Enabled(p, s, e) && PhaseStep(p, s, e, t) && !Cancels(e, t)
    requires s.exiting && Apply(p, s, e).exiting && PhaseOf(s, t) in {Ready, Idle}
    ensures !EndOf(e, t) && PhaseOf(Apply(p, s, e), t) in {Ready, Idle}
  {
    hide PhaseOf, Apply, Enabled, InRange, Unique, Moved;
    if EndOf(e, t) {
      MoveEffect(p, s, e);
    }
  }

  /** Once the report of a cancelled retry has been received, its task has the cancelled result, in
      every later state. */
  lemma CancelledRetryIsCancelled(p: Pipeline, s0: State, tr: Trace, t: nat)
    requires WellFormed(p) && Inv(p, s0) && Fresh(s0) && IsRun(p, s0, tr)
    requires Cancellations(tr, t) > 0 && t !in Owners(After(p, s0, tr))
    ensures t in After(p, s0, tr).results && IsCancelled(After(p, s0, tr).results[t])
  {
    CancelledIsLast(p, s0, tr, t);
    RunTells(p, s0, tr, t);
    NotReady(After(p, s0, tr), t);
    hide Inv, Fresh, IsRun, After, WellFormed, PhaseOf, Owners;
  }

  lemma NotReady(s: State, t: nat)
    requires t !in Owners(s)
    ensures PhaseOf(s, t) != Ready
  {
    if PhaseOf(s, t) == Ready {
      PlaceMakesOwner(s, t, Ready);
    }
  }

  // ----- the end of a run -----

  /** Every result says what the last end of its task says, and every end has a result; the result of
      a task that did not run was restored, or is cancelled, the latter only in an exiting run. */
  ghost predicate Explained(s0: State, tr: Trace, s: State) {
    forall t: nat :: ExplainedAt(s0, tr, s, t)
  }

  ghost predicate ExplainedAt(s0: State, tr: Trace, s: State, t: nat) {
    && (LastEnd(tr, t).Some? ==> t in s.results && EndSays(LastEnd(tr, t).value, s.results[t]))
    && (t in s.results && LastEnd(tr, t).None? ==>
          (t in s0.results && s.results[t] == s0.results[t]) || (s.exiting && IsCancelled(s.results[t])))
    && (LastEnd(tr, t).Some? && LastEnd(tr, t).value.Cancel? ==> s.exiting)
  }

  lemma {:induction false} LastCancelCounts(tr: Trace, t: nat)
    requires LastEnd(tr, t).Some? && LastEnd(tr, t).value.Cancel?
    ensures Cancellations(tr, t) > 0
  {
    if !EndOf(tr.event, t) {
      LastCancelCounts(tr.prev, t);
    }
  }

  /** At the close all results are explained by what happened. */
  lemma ClosedIsExplained(p: Pipeline, s0: State, tr: Trace)
    requires WellFormed(p) && Inv(p, s0) && Fresh(s0) && IsRun(p, s0, tr) && After(p, s0, tr).closed
    ensures Explained(s0, tr, After(p, s0, tr))
  {
    hide Inv, Fresh, IsRun, After, SortedLinks, InverseLinks, PositionalIds, InRange, PhaseOf, ExplainedAt;
    var s := After(p, s0, tr);
    RunKeeps(p, s0, tr);
    NothingAfterClose(p, s);
    forall t: nat ensures ExplainedAt(s0, tr, s, t) {
      RunTells(p, s0, tr, t);
      NotReadyAtClose(s, t);
      if LastEnd(tr, t).Some? && LastEnd(tr, t).value.Cancel? {
        LastCancelCounts(tr, t);
        CancelledIsLast(p, s0, tr, t);
      }
      ToldAtClose(s0, tr, s, t);
    }
  }

  lemma ToldAtClose(s0: State, tr: Trace, s: State, t: nat)
    requires Told(s0, s, LastEnd(tr, t), LastReceived(tr, t), t) && PhaseOf(s, t) == Idle
    requires LastEnd(tr, t).Some? && LastEnd(tr, t).value.Cancel? ==> s.exiting
    ensures ExplainedAt(s0, tr, s, t)
  {
    hide PhaseOf, EndSays, IsCancelled, LastEnd, LastReceived;
  }

  lemma NotReadyAtClose(s: State, t: nat)
    requires s.goroutines == multiset{} && s.taskCh == []
    ensures PhaseOf(s, t) == Idle
  {
  }

  // ----- tries -----

  /** A task that is finally completed with an error, and was not restored, has had all its tries. */
  ghost predicate TriesUsed(p: Pipeline, s0: State, s: State) {
    forall t :: t in Done(LedgerOf(s)) && t !in s0.results && t < |p.tasks| && s.results[t].result.error.Some? ==>
      s.results[t].attempts >= p.tasks[t].retries
  }

  lemma TriesAfterReport(p: Pipeline, s0: State, s: State, r: TaskRunResult, now: int)
    requires WellFormed(p) && ReportReady(p, s, r) && TriesUsed(p, s0, s) && !Receive(p, s, r, now).exiting
    ensures TriesUsed(p, s0, Receive(p, s, r, now))
  {
    var s' := Receive(p, s, r, now);
    DeliverStep(p, s, r, now);
    ReportStores(p, s, r, now);
    forall t | t in Done(LedgerOf(s')) && t !in s0.results && t < |p.tasks| && s'.results[t].result.error.Some?
      ensures s'.results[t].attempts >= p.tasks[t].retries
    {
      if t == r.task {
        LastTry(p, s, r, now);
      } else {
        OthersAreDone(p, s, r, now, t);
      }
    }
  }

  lemma OthersAreDone(p: Pipeline, s: State, r: TaskRunResult, now: int, t: nat)
    requires WellFormed(p) && ReportReady(p, s, r) && !Receive(p, s, r, now).exiting && t != r.task
    requires t in Done(LedgerOf(Receive(p, s, r, now)))
    ensures t in Done(LedgerOf(s)) && t in s.results && Receive(p, s, r, now).results[t] == s.results[t]
  {
    StaysExiting(p, s, r, now);
    ReportStores(p, s, r, now);
    if r.isPending {
      PendingOwners(p, s, r, now);
    } else {
      NotExitingNotFails(p, s, r, now);
      RunningOwners(p, s, r, now);
    }
    hide Inv, Receive, Owners, WellFormed;
    assert LedgerOf(s).results == s.results;
  }

  lemma RetryOwns(p: Pipeline, s: State, r: TaskRunResult, now: int)
    requires InRange(p) && r.task < |p.tasks| && s.waiting > 0 && !r.isPending && !Receive(p, s, r, now).exiting
    requires Attempts(s.results, r.task) + 1 < p.tasks[r.task].retries && r.result.error.Some? && !s.exiting
    ensures r.task in Owners(Receive(p, s, r, now))
  {
    hide SetVariable, MarkRemaining, Release, InRange;
    var s2 := StoreVariable(p, StoreReport(s, r), r, now);
    var g := Sleeping(r.task, Counted(s, r).attempts, s2.vars);
    assert !s2.exiting;
    assert g in ScheduleRetry(s2, r.task, Counted(s, r).attempts).goroutines && g.Owner() == r.task;
  }

  /** A failing report that is not followed by a retry is that of the last try. */
  lemma LastTry(p: Pipeline, s: State, r: TaskRunResult, now: int)
    requires WellFormed(p) && ReportReady(p, s, r) && !Receive(p, s, r, now).exiting
    requires r.task in Done(LedgerOf(Receive(p, s, r, now))) && Receive(p, s, r, now).results[r.task].result.error.Some?
    ensures Receive(p, s, r, now).results[r.task].attempts >= p.tasks[r.task].retries
  {
    hide Inv, Receive, Owners, SortedLinks, InverseLinks, PositionalIds, InRange;
    ReportStores(p, s, r, now);
    StaysExiting(p, s, r, now);
    if Attempts(s.results, r.task) + 1 < p.tasks[r.task].retries {
      RetryOwns(p, s, r, now);
    }
  }

  lemma {:induction false} RunUsesTries(p: Pipeline, s0: State, tr: Trace)
    requires WellFormed(p) && Inv(p, s0) && Fresh(s0) && IsRun(p, s0, tr) && !After(p, s0, tr).exiting
    ensures TriesUsed(p, s0, After(p, s0, tr))
  {
    hide Inv, Apply, Enabled, SortedLinks, InverseLinks, PositionalIds, InRange, TriesUsed, Fresh;
    if tr.Start? {
      NoTriesYet(p, s0);
    } else {
      NeverExited(p, s0, tr);
      RunUsesTries(p, s0, tr.prev);
      RunKeeps(p, s0, tr.prev);
      TriesNext(p, s0, After(p, s0, tr.prev), tr.event);
    }
  }

  lemma NoTriesYet(p: Pipeline, s0: State)
    ensures TriesUsed(p, s0, s0)
  {
  }

  lemma TriesNext(p: Pipeline, s0: State, s: State, e: Event)
    requires WellFormed(p) && Inv(p, s) && Enabled(p, s, e) && TriesUsed(p, s0, s) && !Apply(p, s, e).exiting
    ensures TriesUsed(p, s0, Apply(p, s, e))
  {
    hide Inv, Receive, SortedLinks, InverseLinks, PositionalIds, InRange, Done;
    if e.Deliver? {
      Readied(p, s, e);
      TriesAfterReport(p, s0, s, e.report, e.now);
    } else {
      MoveStep(p, s, e);
      MoveKeepsRest(p, s, e);
      hide Apply;
      assert LedgerOf(Apply(p, s, e)) == LedgerOf(s);
    }
  }

  /** Until the scheduler exits, a task ends with an error only after all its tries: it has then been
      executed `retries` times, or once. */
  lemma FailsOnlyAfterAllTries(p: Pipeline, s0: State, tr: Trace, t: nat)
    requires WellFormed(p) && Inv(p, s0) && Fresh(s0) && IsRun(p, s0, tr) && !After(p, s0, tr).exiting
    requires t < |p.tasks| && t !in s0.results && t in Done(LedgerOf(After(p, s0, tr)))
    requires After(p, s0, tr).results[t].result.error.Some?
    ensures Executions(tr, t) == if p.tasks[t].retries == 0 then 1 else p.tasks[t].retries
  {
    var s := After(p, s0, tr);
    DoneParts(s, t);
    hide Inv, Fresh, IsRun, After, SortedLinks, InverseLinks, PositionalIds, InRange, Owners, Done, Executions;
    RunUsesTriesOf(p, s0, tr, t);
    CountsOfDone(p, s0, tr, t);
    WasReceived(p, s0, tr, t);
  }

  lemma RunUsesTriesOf(p: Pipeline, s0: State, tr: Trace, t: nat)
    requires WellFormed(p) && Inv(p, s0) && Fresh(s0) && IsRun(p, s0, tr) && !After(p, s0, tr).exiting
    requires t < |p.tasks| && t !in s0.results && t in Done(LedgerOf(After(p, s0, tr)))
    requires t in After(p, s0, tr).results && After(p, s0, tr).results[t].result.error.Some?
    ensures After(p, s0, tr).results[t].attempts >= p.tasks[t].retries
  {
    RunUsesTries(p, s0, tr);
    hide *;
    var s := After(p, s0, tr);
    TriesUsedBy(p, s0, s, t);
  }

  lemma TriesUsedBy(p: Pipeline, s0: State, s: State, t: nat)
    requires TriesUsed(p, s0, s) && t in Done(LedgerOf(s)) && t !in s0.results && t < |p.tasks|
    requires t in s.results && s.results[t].result.error.Some?
    ensures s.results[t].attempts >= p.tasks[t].retries
  {
    hide Owners;
  }

  /** Every report of a task that owns no token was of an execution, and is counted. */
  lemma CountsOfDone(p: Pipeline, s0: State, tr: Trace, t: nat)
    requires WellFormed(p) && Inv(p, s0) && Fresh(s0) && IsRun(p, s0, tr) && !After(p, s0, tr).exiting
    requires t < |p.tasks| && t in After(p, s0, tr).results && t !in Owners(After(p, s0, tr))
    ensures Executions(tr, t) == Receipts(tr, t) == After(p, s0, tr).results[t].attempts <= Tries(p, t)
  {
    hide Inv, Fresh, IsRun, After, SortedLinks, InverseLinks, PositionalIds, InRange, Owners, PhaseOf, Busy,
      Executions, Receipts, Cancellations;
    RunCounts(p, s0, tr, t);
    NotBusy(After(p, s0, tr), t);
    if Cancellations(tr, t) > 0 {
      CancelledIsLast(p, s0, tr, t);
    }
  }

  lemma WasReceived(p: Pipeline, s0: State, tr: Trace, t: nat)
    requires WellFormed(p) && Inv(p, s0) && Fresh(s0) && IsRun(p, s0, tr) && !After(p, s0, tr).exiting
    requires t in After(p, s0, tr).results && t !in s0.results
    ensures Receipts(tr, t) > 0
  {
    hide Inv, Fresh, IsRun, After, SortedLinks, InverseLinks, PositionalIds, InRange, EndSays, IsCancelled, Receipts,
      LastReceived;
    ResultsAreReported(p, s0, tr, t);
    if Receipts(tr, t) == 0 {
      NeverReceived(tr, t);
    }
  }

  lemma DoneParts(s: State, t: nat)
    requires t in Done(LedgerOf(s))
    ensures t in s.results && t !in Owners(s)
  {
  }

  lemma NotBusy(s: State, t: nat)
    requires t !in Owners(s)
    ensures !Busy(PhaseOf(s, t))
  {
    if Busy(PhaseOf(s, t)) {
      PlaceMakesOwner(s, t, PhaseOf(s, t));
    }
  }

  lemma {:induction false} NeverReceived(tr: Trace, t: nat)
    requires Receipts(tr, t) == 0
    ensures LastReceived(tr, t) == None
  {
    if tr.Then? {
      NeverReceived(tr.prev, t);
    }
  }

  // ----- flags -----

  /** Some fail-early task has reported an error. */
  ghost predicate FailEarlyReported(p: Pipeline, tr: Trace) {
    tr.Then? &&
      (FailEarlyReported(p, tr.prev) ||
        (tr.event.Deliver? && tr.event.report.task < |p.tasks| && p.tasks[tr.event.report.task].failEarly
         && tr.event.report.result.error.Some? && !tr.event.report.isPending))
  }

  /** Some task has reported that it stays pending. */
  ghost predicate PendingReported(tr: Trace) {
    tr.Then? && (PendingReported(tr.prev) || (tr.event.Deliver? && tr.event.report.isPending))
  }

  lemma FlagsNext(p: Pipeline, s: State, e: Event)
    requires WellFormed(p) && Enabled(p, s, e)
    ensures Apply(p, s, e).pending <==> s.pending || (e.Deliver? && e.report.isPending)
    ensures Apply(p, s, e).exiting <==>
      || s.exiting
      || (e.Deliver? && e.report.task < |p.tasks| && p.tasks[e.report.task].failEarly
       && e.report.result.error.Some? && !e.report.isPending)
  {
    hide SetVariable, MarkRemaining, NewMemoryTaskRun, SortedLinks, InverseLinks, Release, Counted;
    if e.Deliver? {
      var r := e.report;
      var s2 := StoreVariable(p, StoreReport(s, r), r, e.now);
      if !r.isPending && !s2.exiting && !MustRetry(p, Counted(s, r).attempts, r) {
        OutputsDistinct(p, r.task);
        ReleaseQueues(p, s2, p.tasks[r.task].outputs);
      }
    }
  }

  /** The scheduler is exiting exactly if a fail-early task has reported an error, and pending exactly
      if a task has reported that it stays pending. */
  lemma {:induction false} FlagsAreReported(p: Pipeline, s0: State, tr: Trace)
    requires WellFormed(p) && Fresh(s0) && IsRun(p, s0, tr)
    ensures After(p, s0, tr).exiting <==> FailEarlyReported(p, tr)
    ensures After(p, s0, tr).pending <==> PendingReported(tr)
  {
    hide Apply, Enabled, SortedLinks, InverseLinks, PositionalIds, InRange;
    if tr.Then? {
      FlagsAreReported(p, s0, tr.prev);
      FlagsNext(p, After(p, s0, tr.prev), tr.event);
    }
  }

  // ----- variables -----

  /** The last report of `t` that was received and was not pending. */
  ghost function LastReturned(tr: Trace, t: nat): Option<TaskRunResult> {
    if tr.Start? then None
    else if Receives(tr.event, t) && !tr.event.report.isPending then Some(tr.event.report)
    else LastReturned(tr.prev, t)
  }

  /** The variable under a name: the error or else the value of `r`, or what it was at the start. */
  ghost predicate VariableSays(before: VarMap, vars: VarMap, name: string, r: Option<TaskRunResult>) {
    match r
    case None => SameEntry(before, vars, name)
    case Some(report) =>
      && name in vars
      && match report.result.error
         case Some(e) => vars[name] == Scalar(Failure(e))
         case None => vars[name] == report.result.value
  }

  lemma ReleaseKeepsVariables(p: Pipeline, s: State, t: nat)
    requires WellFormed(p) && t < |p.tasks|
    ensures Release(p, s, p.tasks[t].outputs).vars == s.vars
  {
    OutputsDistinct(p, t);
    ReleaseQueues(p, s, p.tasks[t].outputs);
    hide Release, SortedLinks, InverseLinks, PositionalIds, NewMemoryTaskRun;
  }

  lemma StoredVariable(p: Pipeline, s1: State, r: TaskRunResult, now: int)
    requires r.task < |p.tasks|
    ensures StoreVariable(p, s1, r, now).vars == SetVariable(p, s1.vars, r.task, r.result)
  {
    hide SetVariable, MarkRemaining, Fails;
  }

  lemma StoringKeepsVariables(s: State, r: TaskRunResult)
    requires s.waiting > 0
    ensures StoreReport(s, r).vars == s.vars
  {
    hide Counted;
  }

  lemma ReportVariables(p: Pipeline, s: State, r: TaskRunResult, now: int)
    requires WellFormed(p) && r.task < |p.tasks| && s.waiting > 0
    ensures Receive(p, s, r, now).vars == if r.isPending then s.vars else SetVariable(p, s.vars, r.task, r.result)
  {
    hide StoreReport, StoreVariable, Release, Counted, SetVariable, SortedLinks, InverseLinks, PositionalIds, InRange,
      MustRetry;
    StoringKeepsVariables(s, r);
    StoredVariable(p, StoreReport(s, r), r, now);
    ReleaseKeepsVariables(p, StoreVariable(p, StoreReport(s, r), r, now), r.task);
  }

  lemma ReportSetsVariable(p: Pipeline, s: State, r: TaskRunResult, now: int)
    requires WellFormed(p) && PlainDotIDs(p) && r.task < |p.tasks| && s.waiting > 0
    ensures r.isPending ==> Receive(p, s, r, now).vars == s.vars
    ensures !r.isPending ==> VariableSays(s.vars, Receive(p, s, r, now).vars, Name(p, r.task), Some(r))
    ensures !r.isPending ==>
      forall x :: x != Name(p, r.task) ==> SameEntry(s.vars, Receive(p, s, r, now).vars, x)
  {
    hide Receive, SetVariable, PlainDotIDs, Keypaths.Trim, SortedLinks, InverseLinks, PositionalIds, InRange;
    ReportVariables(p, s, r, now);
    Resume.AssignedVariable(p, s.vars, r.task, r.result);
  }

  lemma NamesAreDistinct(p: Pipeline, t: nat, u: nat)
    requires PlainDotIDs(p) && t < |p.tasks| && u < |p.tasks| && Name(p, t) == Name(p, u)
    ensures t == u
  {
    hide Keypaths.Trim;
  }

  lemma VariableNext(p: Pipeline, before: VarMap, s: State, e: Event, x: string, t: nat, r: Option<TaskRunResult>)
    requires WellFormed(p) && PlainDotIDs(p) && Enabled(p, s, e) && VariableSays(before, s.vars, x, r)
    requires t < |p.tasks| ==> Name(p, t) == x
    requires t >= |p.tasks| ==> !IsTaskName(p, x)
    ensures VariableSays(before, Apply(p, s, e).vars, x,
      if Receives(e, t) && !e.report.isPending then Some(e.report) else r)
  {
    hide Receive, Apply, Enabled, Name, SortedLinks, InverseLinks, PositionalIds, InRange, PlainDotIDs, IsTaskName;
    if e.Deliver? {
      AppliesReceive(p, s, e);
      ReportSetsVariable(p, s, e.report, e.now);
      if !e.report.isPending && Name(p, e.report.task) == x {
        SameName(p, e.report.task, x, t);
      } else if !e.report.isPending {
        assert SameEntry(s.vars, Receive(p, s, e.report, e.now).vars, x);
      }
    } else {
      MoveKeepsRest(p, s, e);
    }
  }

  lemma SameName(p: Pipeline, u: nat, x: string, t: nat)
    requires PlainDotIDs(p) && u < |p.tasks| && Name(p, u) == x
    requires t < |p.tasks| ==> Name(p, t) == x
    requires t >= |p.tasks| ==> !IsTaskName(p, x)
    ensures t == u
  {
    assert IsTaskName(p, x);
    NamesAreDistinct(p, t, u);
  }

  /** In every reachable state, exiting or not: the variable of a task is the error, or else the value,
      of the last report of it that was received and was not pending; without one it is as at the
      start, and so are all variables of no task. */
  lemma {:induction false} VariablesAreReported(p: Pipeline, s0: State, tr: Trace, x: string, t: nat)
    requires WellFormed(p) && PlainDotIDs(p) && IsRun(p, s0, tr)
    requires t < |p.tasks| ==> Name(p, t) == x
    requires t >= |p.tasks| ==> !IsTaskName(p, x)
    ensures VariableSays(s0.vars, After(p, s0, tr).vars, x, LastReturned(tr, t))
  {
    hide Apply, Enabled, SortedLinks, InverseLinks, PositionalIds, InRange, PlainDotIDs, IsTaskName, VariableSays,
      Keypaths.Trim;
    if tr.Start? {
      NoVariableYet(s0.vars, x);
    } else {
      VariablesAreReported(p, s0, tr.prev, x, t);
      VariableNext(p, s0.vars, After(p, s0, tr.prev), tr.event, x, t, LastReturned(tr.prev, t));
    }
  }

  lemma NoVariableYet(vars: VarMap, x: string)
    ensures VariableSays(vars, vars, x, None)
  {
  }
}
