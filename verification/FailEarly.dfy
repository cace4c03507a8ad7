/** Once a fail-early task errs, nothing downstream of it ever runs. */
module FailEarly {
  import opened Values
  import opened Pipelines
  import opened Scheduling
  import opened Tokens
  import opened Ledgers
  import opened Invariants
  import opened Startup
  import opened Completeness

  ghost predicate Dispatched(tr: Trace, t: nat) {
    tr.Then? && (tr.event == Dispatch(t) || Dispatched(tr.prev, t))
  }

  /** Cancelled for good. */
  ghost predicate Poisoned(b: Ledger, d: nat) {
    && d in b.results && d !in b.owners && !b.results[d].isPending
    && b.results[d].result == Result(NIL_VALUE, Some(Cancelled))
  }

  lemma DispatchTakesOwner(p: Pipeline, s: State, t: nat)
    requires InRange(p) && Enabled(p, s, Dispatch(t))
    ensures t in Owners(s)
  {
    assert s.taskCh[0] in s.taskCh;
  }

  /** Only a report ends the ownership of a token, and it leaves a result. */
  lemma OwnersLeaveResults(p: Pipeline, s: State, e: Event, t: nat)
    requires WellFormed(p) && Inv(p, s) && Enabled(p, s, e) && (t in Owners(s) || t in s.results)
    ensures t in Owners(Apply(p, s, e)) || t in Apply(p, s, e).results
  {
    if e.Deliver? {
      ReportLeavesResult(p, s, e.report, e.now, t);
    } else {
      MoveStep(p, s, e);
      assert LedgerOf(Apply(p, s, e)).owners == LedgerOf(s).owners;
      assert LedgerOf(Apply(p, s, e)).results == LedgerOf(s).results;
    }
  }

  lemma ReportLeavesResult(p: Pipeline, s: State, r: TaskRunResult, now: int, t: nat)
    requires WellFormed(p) && ReportReady(p, s, r) && (t in Owners(s) || t in s.results)
    ensures t in Owners(Receive(p, s, r, now)) || t in Receive(p, s, r, now).results
  {
    hide Unique, TokenAttempts, Core, Owners, NewMemoryTaskRun, SetVariable;
    if r.isPending {
      PendingOwners(p, s, r, now);
    } else if s.exiting || Fails(p, r) {
      ExitOwners(p, s, r, now);
    } else {
      RunningOwners(p, s, r, now);
    }
  }

  lemma PendingOwners(p: Pipeline, s: State, r: TaskRunResult, now: int)
    requires WellFormed(p) && ReportReady(p, s, r) && r.isPending
    ensures var s' := Receive(p, s, r, now);
      s'.results == s.results[r.task := Counted(s, r)] && Owners(s') == Owners(s) - {r.task}
  {
    TakeReport(p, s, r);
    assert Owners(Receive(p, s, r, now)) == Owners(StoreReport(s, r));
  }

  lemma ExitOwners(p: Pipeline, s: State, r: TaskRunResult, now: int)
    requires WellFormed(p) && ReportReady(p, s, r) && !r.isPending && (s.exiting || Fails(p, r))
    ensures var s' := Receive(p, s, r, now);
      && (forall t :: t in s.results ==> t in s'.results) && r.task in s'.results
      && Owners(s') == Owners(s) - {r.task}
  {
    assert Core(p, LedgerOf(s)) && KnownResults(p, LedgerOf(s));
    ExitLedger(p, s, r, now);
    TakeReport(p, s, r);
    assert Owners(Receive(p, s, r, now)) == Owners(StoreReport(s, r));
  }

  lemma RunningOwners(p: Pipeline, s: State, r: TaskRunResult, now: int)
    requires WellFormed(p) && ReportReady(p, s, r) && !r.isPending && !s.exiting && !Fails(p, r)
    ensures var s' := Receive(p, s, r, now);
      s'.results == s.results[r.task := Counted(s, r)] && Owners(s) - {r.task} <= Owners(s')
  {
    hide Unique, TokenAttempts, Owners, NewMemoryTaskRun, SetVariable;
    var s2 := StoreVariable(p, StoreReport(s, r), r, now);
    BookedTokens(p, s, r, s2);
    if MustRetry(p, Counted(s, r).attempts, r) {
      RetryTokens(p, s2, r.task, Counted(s, r).attempts);
    } else {
      CompleteReportKeeps(p, s, r, now);
      assert LedgerOf(Receive(p, s, r, now)).owners == Owners(Receive(p, s, r, now));
    }
  }

  /** Whoever was ever dispatched owns a token or has a result. */
  lemma {:induction false} DispatchedIsStarted(p: Pipeline, s0: State, tr: Trace, t: nat)
    requires WellFormed(p) && Inv(p, s0) && IsRun(p, s0, tr) && Dispatched(tr, t)
    ensures t in Owners(After(p, s0, tr)) || t in After(p, s0, tr).results
  {
    var s := After(p, s0, tr.prev);
    RunKeeps(p, s0, tr.prev);
    if tr.event == Dispatch(t) {
      DispatchTakesOwner(p, s, t);
    } else {
      DispatchedIsStarted(p, s0, tr.prev, t);
    }
    OwnersLeaveResults(p, s, tr.event, t);
  }

  /** A task that is settled is not dispatched any more. */
  lemma {:induction false} SettledIsNotDispatched(p: Pipeline, s0: State, tr: Trace, later: Trace, t: nat)
    requires WellFormed(p) && Inv(p, s0) && IsRun(p, s0, later) && Continues(tr, later) && IsRun(p, s0, tr)
    requires t in After(p, s0, tr).results && t !in Owners(After(p, s0, tr))
    ensures Dispatched(later, t) ==> Dispatched(tr, t)
    decreases later
  {
    if tr != later {
      SettledIsNotDispatched(p, s0, tr, later.prev, t);
      ContinuingIsStable(p, s0, tr, later.prev);
      assert t !in LedgerOf(After(p, s0, later.prev)).owners;
      if later.event == Dispatch(t) {
        DispatchTakesOwner(p, After(p, s0, later.prev), t);
      }
    }
  }

  /** The step that starts to exit cancels everything below every task that owns a token. */
  lemma ExitPoisons(p: Pipeline, s: State, r: TaskRunResult, now: int, x: nat, d: nat)
    requires WellFormed(p) && ReportReady(p, s, r) && !r.isPending && !s.exiting && Fails(p, r)
    requires x in Owners(s) && d < |p.tasks| && Ancestor(p, x, d)
    ensures d !in s.results && d !in Owners(s)
    ensures Poisoned(LedgerOf(Receive(p, s, r, now)), d)
  {
    assert x !in Done(LedgerOf(s));
    if d in s.results || d in Owners(s) {
      AncestorsAreDone(p, LedgerOf(s), d, x);
    }
    PoisonedByExit(p, s, r, now, d);
  }

  lemma PoisonedByExit(p: Pipeline, s: State, r: TaskRunResult, now: int, d: nat)
    requires WellFormed(p) && ReportReady(p, s, r) && !r.isPending && !s.exiting && Fails(p, r)
    requires d < |p.tasks| && d !in s.results && d !in Owners(s)
    ensures Poisoned(LedgerOf(Receive(p, s, r, now)), d)
  {
    TakeReport(p, s, r);
    assert KnownResults(p, LedgerOf(s));
    ExitLedger(p, s, r, now);
    ExitOwners(p, s, r, now);
  }

  /** Below every task that still owns a token while exiting, all is cancelled and never ran. */
  ghost predicate OwnersPoison(p: Pipeline, tr: Trace, s: State)
    requires WellFormed(p)
  {
    s.exiting ==> forall x, d :: x in Owners(s) && 0 <= d < |p.tasks| && Ancestor(p, x, d) ==>
      Poisoned(LedgerOf(s), d) && !Dispatched(tr, d)
  }

  lemma ExitingOwnersShrink(p: Pipeline, s: State, e: Event)
    requires WellFormed(p) && Inv(p, s) && Enabled(p, s, e) && s.exiting
    ensures Apply(p, s, e).exiting && Owners(Apply(p, s, e)) <= Owners(s)
  {
    if e.Deliver? {
      if e.report.isPending {
        PendingOwners(p, s, e.report, e.now);
      } else {
        ExitOwners(p, s, e.report, e.now);
        ExitReportKeeps(p, s, e.report, e.now);
      }
    } else {
      MoveStep(p, s, e);
      assert LedgerOf(Apply(p, s, e)) == LedgerOf(s);
    }
  }

  lemma StablePoison(b: Ledger, b': Ledger, d: nat)
    requires Stable(b, b') && Poisoned(b, d)
    ensures Poisoned(b', d)
  {
  }

  lemma OwnersPoisonStep(p: Pipeline, s0: State, tr: Trace)
    requires WellFormed(p) && Inv(p, s0) && IsRun(p, s0, tr) && tr.Then?
    requires OwnersPoison(p, tr.prev, After(p, s0, tr.prev))
    ensures OwnersPoison(p, tr, After(p, s0, tr))
  {
    hide Owners, Inv, Poisoned, Stable, Ancestor, Apply;
    var s, e := After(p, s0, tr.prev), tr.event;
    RunKeeps(p, s0, tr.prev);
    if After(p, s0, tr).exiting {
      forall x, d | x in Owners(After(p, s0, tr)) && 0 <= d < |p.tasks| && Ancestor(p, x, d)
        ensures Poisoned(LedgerOf(After(p, s0, tr)), d) && !Dispatched(tr, d)
      {
        OwnerPoisonStep(p, s0, tr, x, d);
      }
    }
  }

  /** While exiting, no step wakes what lies below an owner. */
  lemma PoisonStays(p: Pipeline, s0: State, tr: Trace, s: State, e: Event, x: nat, d: nat)
    requires WellFormed(p) && Inv(p, s) && Enabled(p, s, e) && s.exiting && OwnersPoison(p, tr, s)
    requires x in Owners(Apply(p, s, e)) && d < |p.tasks| && Ancestor(p, x, d)
    ensures Poisoned(LedgerOf(Apply(p, s, e)), d) && !Dispatched(Then(tr, e), d)
  {
    hide Inv, Owners, Stable, Ancestor, Apply, Enabled, SortedLinks, InverseLinks, PositionalIds, InRange, Poisoned;
    ExitingOwnersShrink(p, s, e);
    assert Poisoned(LedgerOf(s), d) && !Dispatched(tr, d);
    StepKeeps(p, s, e);
    StablePoison(LedgerOf(s), LedgerOf(Apply(p, s, e)), d);
    if e == Dispatch(d) {
      DispatchTakesOwner(p, s, d);
      PoisonedOwnsNothing(s, d);
    }
  }

  lemma PoisonedOwnsNothing(s: State, d: nat)
    requires Poisoned(LedgerOf(s), d)
    ensures d !in Owners(s)
  {
    hide Owners;
  }

  /** The step that starts to exit poisons what lies below the remaining owners. */
  lemma PoisonStarts(p: Pipeline, s0: State, tr: Trace, e: Event, x: nat, d: nat)
    requires WellFormed(p) && Inv(p, s0) && IsRun(p, s0, tr) && Inv(p, After(p, s0, tr))
    requires Enabled(p, After(p, s0, tr), e) && !After(p, s0, tr).exiting && Apply(p, After(p, s0, tr), e).exiting
    requires x in Owners(Apply(p, After(p, s0, tr), e)) && d < |p.tasks| && Ancestor(p, x, d)
    ensures Poisoned(LedgerOf(Apply(p, After(p, s0, tr), e)), d) && !Dispatched(Then(tr, e), d)
  {
    var s := After(p, s0, tr);
    ExitNeedsReport(p, s, e);
    var r := e.report;
    assert ReportReady(p, s, r);
    hide Inv, Owners, Ancestor, Receive, SortedLinks, InverseLinks, PositionalIds, InRange, Poisoned, Fails, IsRun,
      After;
    StartsToExit(p, s, r, e.now);
    ExitOwners(p, s, r, e.now);
    ExitPoisons(p, s, r, e.now, x, d);
    if Dispatched(tr, d) {
      DispatchedIsStarted(p, s0, tr, d);
    }
  }

  lemma OwnerPoisonStep(p: Pipeline, s0: State, tr: Trace, x: nat, d: nat)
    requires WellFormed(p) && Inv(p, s0) && IsRun(p, s0, tr) && tr.Then? && After(p, s0, tr).exiting
    requires OwnersPoison(p, tr.prev, After(p, s0, tr.prev)) && Inv(p, After(p, s0, tr.prev))
    requires x in Owners(After(p, s0, tr)) && d < |p.tasks| && Ancestor(p, x, d)
    ensures Poisoned(LedgerOf(After(p, s0, tr)), d) && !Dispatched(tr, d)
  {
    hide Inv, Owners, Ancestor, Apply, Enabled, SortedLinks, InverseLinks, PositionalIds, InRange, Poisoned,
      OwnersPoison;
    if After(p, s0, tr.prev).exiting {
      PoisonStays(p, s0, tr.prev, After(p, s0, tr.prev), tr.event, x, d);
    } else {
      PoisonStarts(p, s0, tr.prev, tr.event, x, d);
    }
  }

  lemma ExitNeedsReport(p: Pipeline, s: State, e: Event)
    requires WellFormed(p) && Inv(p, s) && Enabled(p, s, e) && !s.exiting && Apply(p, s, e).exiting
    ensures e.Deliver?
  {
    if !e.Deliver? {
      MoveStep(p, s, e);
    }
  }

  lemma StartsToExit(p: Pipeline, s: State, r: TaskRunResult, now: int)
    requires WellFormed(p) && ReportReady(p, s, r) && !s.exiting && Receive(p, s, r, now).exiting
    ensures !r.isPending && Fails(p, r)
  {
    var s2 := StoreVariable(p, StoreReport(s, r), r, now);
    if !r.isPending && !Fails(p, r) && !MustRetry(p, Counted(s, r).attempts, r) {
      OutputsDistinct(p, r.task);
      Releases.ReleaseQueues(p, s2, p.tasks[r.task].outputs);
    }
  }

  lemma {:induction false} RunPoisons(p: Pipeline, s0: State, tr: Trace)
    requires WellFormed(p) && Inv(p, s0) && !s0.exiting && IsRun(p, s0, tr)
    ensures OwnersPoison(p, tr, After(p, s0, tr))
  {
    if tr.Then? {
      RunPoisons(p, s0, tr.prev);
      OwnersPoisonStep(p, s0, tr);
    }
  }

  /** Fail-early poisons downstream: when a fail-early task reports an error, then in every later
      state its own error stands, every strict descendant is cancelled, and no descendant has ever
      been or will ever be dispatched. */
  lemma FailEarlyPoisons(p: Pipeline, s0: State, tr: Trace, later: Trace, r: TaskRunResult, now: int)
    requires WellFormed(p) && Inv(p, s0) && !s0.exiting && IsRun(p, s0, later) && Continues(tr, later)
    requires tr.Then? && tr.event == Deliver(r, now) && IsRun(p, s0, tr)
    requires r.task < |p.tasks| && Fails(p, r) && !r.isPending
    ensures var s := After(p, s0, later);
      && s.exiting && r.task in s.results && s.results[r.task].result == r.result
      && forall d :: 0 <= d < |p.tasks| && Ancestor(p, r.task, d) ==>
           Poisoned(LedgerOf(s), d) && !Dispatched(later, d)
  {
    hide Owners, Core, Unique, TokenAttempts, OwnersRetry, Ancestor, Fails;
    var s, s' := After(p, s0, tr.prev), After(p, s0, tr);
    RunKeeps(p, s0, tr.prev);
    ExitOwners(p, s, r, now);
    FailureIsStored(p, s, r, now);
    ContinuingIsStable(p, s0, tr, later);
    StaysExiting(p, s0, tr, later);
    forall d | 0 <= d < |p.tasks| && Ancestor(p, r.task, d)
      ensures Poisoned(LedgerOf(After(p, s0, later)), d) && !Dispatched(later, d)
    {
      FailurePoisons(p, s0, tr, r, now, d);
      StablePoison(LedgerOf(s'), LedgerOf(After(p, s0, later)), d);
      SettledIsNotDispatched(p, s0, tr, later, d);
    }
  }

  lemma FailureIsStored(p: Pipeline, s: State, r: TaskRunResult, now: int)
    requires WellFormed(p) && ReportReady(p, s, r) && !r.isPending && Fails(p, r)
    ensures Receive(p, s, r, now).exiting
    ensures r.task in Receive(p, s, r, now).results
    ensures Receive(p, s, r, now).results[r.task].result == r.result
  {
    assert KnownResults(p, LedgerOf(s));
    ExitLedger(p, s, r, now);
  }

  lemma FailurePoisons(p: Pipeline, s0: State, tr: Trace, r: TaskRunResult, now: int, d: nat)
    requires WellFormed(p) && Inv(p, s0) && !s0.exiting && IsRun(p, s0, tr)
    requires tr.Then? && tr.event == Deliver(r, now)
    requires r.task < |p.tasks| && Fails(p, r) && !r.isPending && d < |p.tasks| && Ancestor(p, r.task, d)
    ensures Poisoned(LedgerOf(After(p, s0, tr)), d) && !Dispatched(tr, d)
  {
    hide Core, Unique, TokenAttempts, OwnersRetry, Ancestor, Fails;
    var s := After(p, s0, tr.prev);
    RunKeeps(p, s0, tr.prev);
    TakeReport(p, s, r);
    if s.exiting {
      RunPoisons(p, s0, tr.prev);
      StepKeeps(p, s, tr.event);
      StablePoison(LedgerOf(s), LedgerOf(After(p, s0, tr)), d);
    } else {
      ExitPoisons(p, s, r, now, r.task, d);
      if Dispatched(tr.prev, d) {
        DispatchedIsStarted(p, s0, tr.prev, d);
      }
    }
  }

  lemma {:induction false} StaysExiting(p: Pipeline, s0: State, tr: Trace, later: Trace)
    requires WellFormed(p) && Inv(p, s0) && IsRun(p, s0, later) && Continues(tr, later) && IsRun(p, s0, tr)
    requires After(p, s0, tr).exiting
    ensures After(p, s0, later).exiting
    decreases later
  {
    if tr != later {
      StaysExiting(p, s0, tr, later.prev);
      RunKeeps(p, s0, later.prev);
      ExitingOwnersShrink(p, After(p, s0, later.prev), later.event);
    }
  }

  /** Every task lies on an output path to a terminal task. */
  lemma {:induction false} TerminalBelow(p: Pipeline, x: nat) returns (t: nat)
    requires WellFormed(p) && x < |p.tasks|
    ensures t < |p.tasks| && p.tasks[t].outputs == [] && (t == x || Ancestor(p, x, t))
    decreases |p.tasks| - x
  {
    if p.tasks[x].outputs == [] {
      t := x;
    } else {
      var o := p.tasks[x].outputs[0];
      t := TerminalBelow(p, o);
      assert o in p.tasks[x].outputs;
      AncestorStepsDown(p, x, o, t);
    }
  }

  ghost predicate TerminalErrs(p: Pipeline, s: State) {
    exists t :: t in s.results && t < |p.tasks| && p.tasks[t].outputs == [] && s.results[t].result.error.Some?
  }

  /** After a fail-early error some terminal task has an error, in every later state. */
  lemma FailEarlyErrsAtTerminal(p: Pipeline, s0: State, tr: Trace, later: Trace, r: TaskRunResult, now: int)
    requires WellFormed(p) && Inv(p, s0) && !s0.exiting && IsRun(p, s0, later) && Continues(tr, later)
    requires tr.Then? && tr.event == Deliver(r, now) && IsRun(p, s0, tr)
    requires r.task < |p.tasks| && Fails(p, r) && !r.isPending
    ensures TerminalErrs(p, After(p, s0, later))
  {
    FailEarlyPoisons(p, s0, tr, later, r, now);
    var t := TerminalBelow(p, r.task);
    var s := After(p, s0, later);
    assert t in s.results && s.results[t].result.error.Some?;
  }

  lemma {:induction false} NeverExited(p: Pipeline, s0: State, tr: Trace)
    requires WellFormed(p) && Inv(p, s0) && IsRun(p, s0, tr) && tr.Then? && !After(p, s0, tr).exiting
    ensures !After(p, s0, tr.prev).exiting
  {
    hide Inv;
    RunKeeps(p, s0, tr.prev);
    if After(p, s0, tr.prev).exiting {
      ExitingOwnersShrink(p, After(p, s0, tr.prev), tr.event);
    }
  }
}
