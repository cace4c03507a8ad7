/** Schedule independence: whatever the order of dispatches, reports and timers, the scheduler
    computes the reference results. */
module Determinism {
  import opened Values
  import opened Ordering
  import opened Variables
  import opened Pipelines
  import opened Scheduling
  import opened Tokens
  import opened Releases
  import opened Ledgers
  import opened Invariants
  import opened Startup
  import opened FailEarly
  import opened Completeness
  import opened Evaluation
  import Resume
  import Runs

  function Outcome(g: Program, run: MemoryTaskRun): Result {
    g.f(run.task, run.attempts, run.inputs, Restrict(run.vars, g.refs(run.task)))
  }

  /** Tasks return, or panic, as the program says, and never stay pending. */
  ghost predicate Obeys(g: Program, e: Event) {
    match e
    case Finish(run, result, isPending, _) => !isPending && result == Outcome(g, run)
    case Panic(run, detail, _) => Result(NIL_VALUE, Some(Panicked(detail))) == Outcome(g, run)
    case _ => true
  }

  ghost predicate ObeysAll(g: Program, tr: Trace) {
    tr.Then? ==> ObeysAll(g, tr.prev) && Obeys(g, tr.event)
  }

  // ----- the invariant -----

  ghost predicate GoodVars(g: Program, t: nat, vars: VarMap)
    requires InRange(g.p)
  {
    t < |g.p.tasks| && Holds(g, Final(g), InputSet(g.p, t), vars)
  }

  ghost predicate GoodRun(g: Program, run: MemoryTaskRun)
    requires InRange(g.p)
  {
    GoodVars(g, run.task, run.vars) && run.inputs == Inputs(g, run.task)
  }

  ghost predicate GoodReport(g: Program, attempts: nat, r: TaskRunResult)
    requires InRange(g.p)
  {
    r.task < |g.p.tasks| && !r.isPending && r.result == g.f(r.task, attempts, Inputs(g, r.task), Visible(g, r.task))
  }

  ghost predicate GoodToken(g: Program, results: map<nat, TaskRunResult>, token: Goroutine)
    requires InRange(g.p)
  {
    match token
    case Executing(run) => GoodRun(g, run)
    case Sleeping(t, _, vars) => GoodVars(g, t, vars)
    case Reporting(r) => GoodReport(g, Attempts(results, r.task), r)
  }

  /** Continuing from the attempts made so far leads to the reference result. */
  ghost predicate OnTrack(g: Program, t: nat, attempts: nat)
    requires InRange(g.p)
  {
    t < |g.p.tasks| && t in Final(g)
    && Try(g, t, Inputs(g, t), Visible(g, t), attempts) == Final(g)[t]
  }

  ghost predicate GoodTokens(g: Program, s: State)
    requires InRange(g.p)
  {
    && (forall i :: 0 <= i < |s.taskCh| ==> GoodRun(g, s.taskCh[i]))
    && (forall token :: token in s.goroutines ==> GoodToken(g, s.results, token))
  }

  ghost predicate AllOnTrack(g: Program, b: Ledger)
    requires InRange(g.p)
  {
    forall t :: t in b.owners ==> OnTrack(g, t, Attempts(b.results, t))
  }

  ghost predicate DoneAgree(g: Program, b: Ledger)
    requires InRange(g.p)
  {
    forall t :: t in Done(b) ==> t in Final(g) && b.results[t].result == Final(g)[t]
  }

  /** Task `t` is fail-early and its reference first try fails. */
  predicate FailsFirst(g: Program, t: nat)
    requires InRange(g.p)
  {
    && t < |g.p.tasks| && t !in g.saved && g.p.tasks[t].failEarly
    && g.f(t, 0, Inputs(g, t), Visible(g, t)).error.Some?
  }

  ghost predicate SomeFailsFirst(g: Program)
    requires InRange(g.p)
  {
    exists t :: FailsFirst(g, t)
  }

  /** Saved results are done, and no task that is done has made the scheduler exit. */
  ghost predicate Unexited(g: Program, b: Ledger)
    requires InRange(g.p)
  {
    && (forall t :: t in g.saved ==> t in Done(b))
    && (forall t :: t in Done(b) ==> !FailsFirst(g, t))
  }

  ghost predicate Agrees(g: Program, s: State)
    requires InRange(g.p)
  {
    && DoneAgree(g, LedgerOf(s))
    && Unexited(g, LedgerOf(s))
    && Holds(g, Final(g), Done(LedgerOf(s)), s.vars)
    && GoodTokens(g, s)
    && AllOnTrack(g, LedgerOf(s))
  }

  // ----- new runs -----

  /** A run made for a task whose inputs are done has the reference inputs. */
  lemma NewRunIsGood(g: Program, results: map<nat, TaskRunResult>, done: set<nat>, vars: VarMap, t: nat, attempts: nat)
    requires InRange(g.p) && t < |g.p.tasks| && InputSet(g.p, t) <= done
    requires AgreeOn(PlainResults(results), Final(g), done)
    requires GoodVars(g, t, vars)
    ensures GoodRun(g, NewMemoryTaskRun(g.p, results, vars, t, attempts))
  {
    hide RunInputs, Holds;
    InputsAgree(g.p, t, PlainResults(results), Final(g));
  }

  lemma DoneAgreeOn(g: Program, b: Ledger)
    requires InRange(g.p) && DoneAgree(g, b)
    ensures AgreeOn(PlainResults(b.results), Final(g), Done(b))
  {
    hide Final;
  }

  lemma VarsAreGood(g: Program, done: set<nat>, vars: VarMap, t: nat)
    requires InRange(g.p) && t < |g.p.tasks| && InputSet(g.p, t) <= done
    requires Holds(g, Final(g), done, vars)
    ensures GoodVars(g, t, vars)
  {
    HoldsForFewer(g, Final(g), done, InputSet(g.p, t), vars);
  }

  // ----- steps outside the scheduler -----

  lemma DispatchAgrees(g: Program, s: State, s': State)
    requires InRange(g.p) && GoodTokens(g, s) && s.taskCh != [] && s'.results == s.results
    requires s'.taskCh == s.taskCh[1..] && s'.goroutines == s.goroutines + multiset{Executing(s.taskCh[0])}
    ensures GoodTokens(g, s')
  {
    hide GoodRun, GoodVars, GoodReport;
    assert forall token :: token in s'.goroutines ==> token in s.goroutines || token == Executing(s.taskCh[0]);
  }

  lemma FireAgrees(g: Program, s: State, sleeper: Goroutine, run: MemoryTaskRun, s': State)
    requires InRange(g.p) && GoodTokens(g, s) && GoodRun(g, run) && s'.results == s.results
    requires s'.taskCh == s.taskCh + [run] && s'.goroutines == s.goroutines - multiset{sleeper}
    ensures GoodTokens(g, s')
  {
    hide GoodRun, GoodToken;
    assert forall token :: token in s'.goroutines ==> token in s.goroutines;
  }

  /** The outcome of a good run on its current attempt is a good report. */
  lemma OutcomeIsGood(g: Program, run: MemoryTaskRun, attempts: nat, r: TaskRunResult)
    requires InRange(g.p) && PlainDotIDs(g.p) && RefsAreInputs(g) && GoodRun(g, run)
    requires run.attempts == attempts && r.task == run.task && !r.isPending && r.result == Outcome(g, run)
    ensures GoodReport(g, attempts, r)
  {
    hide Restrict, PlainDotIDs, RefsAreInputs, Holds;
    SeesVisible(g, run.task, run.vars);
  }

  lemma BecomeAgrees(g: Program, s: State, run: MemoryTaskRun, r: TaskRunResult)
    requires InRange(g.p) && GoodTokens(g, s) && GoodReport(g, Attempts(s.results, r.task), r)
    ensures GoodTokens(g, Become(s, Executing(run), Reporting(r)))
  {
    hide GoodRun, GoodVars, GoodReport;
    var s' := Become(s, Executing(run), Reporting(r));
    assert forall token :: token in s'.goroutines ==> token in s.goroutines || token == Reporting(r);
  }

  lemma FinishAgrees(g: Program, s: State, run: MemoryTaskRun, r: TaskRunResult)
    requires InRange(g.p) && PlainDotIDs(g.p) && RefsAreInputs(g)
    requires TokenAttempts(g.p, s) && !s.exiting && GoodTokens(g, s) && Executing(run) in s.goroutines
    requires r.task == run.task && !r.isPending && r.result == Outcome(g, run)
    ensures GoodTokens(g, Become(s, Executing(run), Reporting(r)))
  {
    hide GoodRun, GoodVars, GoodReport, Outcome, PlainDotIDs, RefsAreInputs;
    assert GoodToken(g, s.results, Executing(run));
    OutcomeIsGood(g, run, Attempts(s.results, run.task), r);
    BecomeAgrees(g, s, run, r);
  }

  lemma FireStepAgrees(g: Program, s: State, sleeper: Goroutine)
    requires InRange(g.p) && Inv(g.p, s) && Agrees(g, s) && Enabled(g.p, s, Fire(sleeper))
    ensures GoodTokens(g, Apply(g.p, s, Fire(sleeper)))
  {
    hide Owners, Unique, TokenAttempts, OwnersRetry, NewMemoryTaskRun, GoodRun, AllOnTrack, GoodVars;
    var run := NewMemoryTaskRun(g.p, s.results, sleeper.vars, sleeper.task, sleeper.attempts);
    assert GoodToken(g, s.results, sleeper);
    assert sleeper.Owner() in Owners(s) by {
      SleeperOwns(s, sleeper);
    }
    DoneAgreeOn(g, LedgerOf(s));
    NewRunIsGood(g, s.results, Done(LedgerOf(s)), sleeper.vars, sleeper.task, sleeper.attempts);
    FireAgrees(g, s, sleeper, run, Apply(g.p, s, Fire(sleeper)));
  }

  lemma SleeperOwns(s: State, token: Goroutine)
    requires token in s.goroutines
    ensures token.Owner() in Owners(s)
  {
  }

  /** The tokens after a step outside the scheduler loop. */
  lemma MovedTokensAgree(g: Program, s: State, e: Event)
    requires WellFormed(g.p) && PlainDotIDs(g.p) && RefsAreInputs(g)
    requires Inv(g.p, s) && !s.exiting && Agrees(g, s) && Enabled(g.p, s, e) && !e.Deliver? && Obeys(g, e)
    requires TokenAttempts(g.p, s) && GoodTokens(g, s)
    ensures GoodTokens(g, Apply(g.p, s, e))
  {
    hide Inv, Agrees, NewMemoryTaskRun, GoodTokens, TokenAttempts, PlainDotIDs, RefsAreInputs, Outcome, Become, Receive,
      SortedLinks, InverseLinks, PositionalIds, InRange;
    NothingToDrop(g.p, s, e);
    NoCancel(g.p, s, e);
    var s' := Apply(g.p, s, e);
    match e
    case Dispatch(_) => DispatchAgrees(g, s, s');
    case Finish(run, result, isPending, now) => FinishAgrees(g, s, run, Executed(run, result, isPending, now));
    case Panic(run, detail, now) => FinishAgrees(g, s, run, Errored(run.task, Panicked(detail), now));
    case Fire(sleeper) => FireStepAgrees(g, s, sleeper);
    case _ => SameTokensAgree(g, s, s');
  }

  lemma BecomeKeepsVars(s: State, before: Goroutine, after: Goroutine)
    ensures Become(s, before, after).vars == s.vars
  {
  }

  /** A step outside the scheduler loop leaves the variables as they are. */
  lemma MoveKeepsVars(p: Pipeline, s: State, e: Event)
    requires InRange(p) && Enabled(p, s, e) && !e.Deliver?
    ensures Apply(p, s, e).vars == s.vars
  {
    hide NewMemoryTaskRun, InRange, Receive, Executed, Errored, Become;
    match e
    case Finish(run, result, isPending, now) =>
      BecomeKeepsVars(s, Executing(run), Reporting(Executed(run, result, isPending, now)));
    case Panic(run, detail, now) =>
      BecomeKeepsVars(s, Executing(run), Reporting(Errored(run.task, Panicked(detail), now)));
    case Cancel(sleeper, now) => BecomeKeepsVars(s, sleeper, Reporting(Errored(sleeper.task, Cancelled, now)));
    case _ =>
  }

  lemma MoveAgrees(g: Program, s: State, e: Event)
    requires WellFormed(g.p) && PlainDotIDs(g.p) && RefsAreInputs(g)
    requires Inv(g.p, s) && !s.exiting && Agrees(g, s) && Enabled(g.p, s, e) && !e.Deliver? && Obeys(g, e)
    ensures Agrees(g, Apply(g.p, s, e))
  {
    hide Conserved, Core, TokenAttempts, OwnersRetry, GoodTokens, AllOnTrack, DoneAgree, Holds, PlainDotIDs,
      RefsAreInputs, Unexited, Apply, Enabled, Obeys, SortedLinks, InverseLinks, PositionalIds, InRange, Done, LedgerOf,
      Final;
    MovedTokensAgree(g, s, e);
    MoveKeepsVars(g.p, s, e);
    MoveStep(g.p, s, e);
  }

  lemma NoCancel(p: Pipeline, s: State, e: Event)
    requires Inv(p, s) && !s.exiting && Enabled(p, s, e)
    ensures !e.Cancel?
  {
    if s.closed {
      NothingAfterClose(p, s);
    }
    hide Inv;
  }

  lemma SameTokensAgree(g: Program, s: State, s': State)
    requires InRange(g.p) && GoodTokens(g, s)
    requires s'.taskCh == s.taskCh && s'.goroutines == s.goroutines && s'.results == s.results
    ensures GoodTokens(g, s')
  {
  }

  // ----- the scheduler's step -----

  /** Tokens of other tasks stay good when the result of `x` is replaced. */
  lemma OtherTokensAgree(g: Program, s: State, r: TaskRunResult, s2: State)
    requires InRange(g.p) && Conserved(g.p, s) && GoodTokens(g, s) && Reporting(r) in s.goroutines
    requires s2.taskCh == s.taskCh && s2.goroutines == s.goroutines - multiset{Reporting(r)}
    requires forall t :: t != r.task ==> Attempts(s2.results, t) == Attempts(s.results, t)
    ensures GoodTokens(g, s2)
  {
    hide GoodRun, GoodVars, GoodReport, Owners, Unique;
    ReportOwnsAlone(g.p, s, r);
    forall token | token in s2.goroutines ensures GoodToken(g, s2.results, token) {
      assert token in s.goroutines && token.Owner() != r.task;
      assert GoodToken(g, s.results, token);
    }
  }

  /** A report that leads to a retry keeps its task on track; any other is the reference result. */
  lemma ReportIsOnTrack(g: Program, t: nat, attempts: nat, r: TaskRunResult)
    requires InRange(g.p) && r.task == t && OnTrack(g, t, attempts) && GoodReport(g, attempts, r)
    ensures MustRetry(g.p, attempts + 1, r) ==> OnTrack(g, t, attempts + 1)
    ensures !MustRetry(g.p, attempts + 1, r) ==> r.result == Final(g)[t]
  {
    hide Final, Inputs, Visible;
  }

  ghost predicate QuietReport(g: Program, s: State, r: TaskRunResult)
    requires InRange(g.p)
  {
    ReportReady(g.p, s, r) && !s.exiting && !r.isPending && !Fails(g.p, r) && Agrees(g, s)
  }

  lemma ReporterIsOnTrack(g: Program, s: State, r: TaskRunResult)
    requires InRange(g.p) && QuietReport(g, s, r)
    ensures r.task !in Done(LedgerOf(s)) && r.task in Owners(s)
    ensures OnTrack(g, r.task, Attempts(s.results, r.task)) && GoodReport(g, Attempts(s.results, r.task), r)
  {
    hide OnTrack, GoodReport, GoodRun, GoodVars, Unique, Core, TokenAttempts, OwnersRetry;
    TakeReport(g.p, s, r);
    assert GoodToken(g, s.results, Reporting(r));
    assert r.task in LedgerOf(s).owners;
  }

  lemma RetryAgrees(g: Program, s: State, r: TaskRunResult, now: int)
    requires WellFormed(g.p) && PlainDotIDs(g.p) && QuietReport(g, s, r)
    requires MustRetry(g.p, Counted(s, r).attempts, r)
    ensures Agrees(g, Receive(g.p, s, r, now))
  {
    hide Owners, Unique, TokenAttempts, OwnersRetry, Core, GoodTokens, Holds, GoodVars, OnTrack, GoodReport,
      SetVariable, PlainDotIDs, InverseLinks, SortedLinks, Final, DoneAgree, AllOnTrack, Unexited;
    var x, s2, s' := r.task, StoreVariable(g.p, StoreReport(s, r), r, now), Receive(g.p, s, r, now);
    var b, b' := LedgerOf(s), LedgerOf(s');
    ReporterIsOnTrack(g, s, r);
    ReportIsOnTrack(g, x, Attempts(s.results, x), r);
    BookedTokens(g.p, s, r, s2);
    RetryTokens(g.p, s2, x, Counted(s, r).attempts);
    assert b' == b.(results := s.results[x := Counted(s, r)]) by {
      assert Owners(s') == Owners(s);
    }
    DoneUnchanged(b, b', Counted(s, r));
    AssignKeepsOthers(g, Final(g), Done(b), s.vars, x, r.result);
    OtherTokensAgree(g, s, r, s2);
    OwnerInputsDone(g.p, b, x);
    VarsAreGood(g, Done(b), s2.vars, x);
    SleeperAgrees(g, s2, x, Counted(s, r).attempts);
    RetryOnTrack(g, b, b', Counted(s, r));
    RetryDoneAgree(g, b, b', Counted(s, r));
    SameDoneUnexited(g, b, b');
  }

  lemma SameDoneUnexited(g: Program, b: Ledger, b': Ledger)
    requires InRange(g.p) && Unexited(g, b) && Done(b') == Done(b)
    ensures Unexited(g, b')
  {
    hide Done, FailsFirst;
  }

  lemma OwnerInputsDone(p: Pipeline, b: Ledger, t: nat)
    requires Core(p, b) && t in b.owners
    ensures t < |p.tasks| && InputSet(p, t) <= Done(b)
  {
  }

  lemma SleeperAgrees(g: Program, s2: State, t: nat, attempts: nat)
    requires InRange(g.p) && GoodTokens(g, s2) && GoodVars(g, t, s2.vars)
    ensures GoodTokens(g, ScheduleRetry(s2, t, attempts))
  {
    hide GoodVars, GoodRun, GoodReport, GoodToken;
    var sleeper := Sleeping(t, attempts, s2.vars);
    SleeperIsGood(g, s2.results, sleeper);
    assert forall token :: token in ScheduleRetry(s2, t, attempts).goroutines ==>
      token in s2.goroutines || token == sleeper;
  }

  lemma SleeperIsGood(g: Program, results: map<nat, TaskRunResult>, sleeper: Goroutine)
    requires InRange(g.p) && sleeper.Sleeping? && GoodVars(g, sleeper.task, sleeper.vars)
    ensures GoodToken(g, results, sleeper)
  {
    hide GoodVars, InRange;
  }

  lemma RetryOnTrack(g: Program, b: Ledger, b': Ledger, r: TaskRunResult)
    requires InRange(g.p) && AllOnTrack(g, b) && b' == b.(results := b.results[r.task := r])
    requires OnTrack(g, r.task, r.attempts)
    ensures AllOnTrack(g, b')
  {
    hide OnTrack;
  }

  lemma RetryDoneAgree(g: Program, b: Ledger, b': Ledger, r: TaskRunResult)
    requires InRange(g.p) && DoneAgree(g, b) && b' == b.(results := b.results[r.task := r])
    requires Done(b') == Done(b) && r.task in b.owners
    ensures DoneAgree(g, b')
  {
    hide Final;
  }

  lemma {:induction false} NewRunsAreGood(g: Program, s: State, done: set<nat>, ts: seq<nat>)
    requires InRange(g.p) && forall i :: 0 <= i < |ts| ==> ts[i] < |g.p.tasks| && InputSet(g.p, ts[i]) <= done
    requires AgreeOn(PlainResults(s.results), Final(g), done)
    requires Holds(g, Final(g), done, s.vars)
    ensures |NewRuns(g.p, s, ts)| == |ts|
    ensures forall i :: 0 <= i < |ts| ==> GoodRun(g, NewRuns(g.p, s, ts)[i])
  {
    hide GoodRun, Holds, NewMemoryTaskRun, Final;
    if ts != [] {
      var t := ts[|ts| - 1];
      NewRunsAreGood(g, s, done, ts[..|ts| - 1]);
      VarsAreGood(g, done, s.vars, t);
      NewRunIsGood(g, s.results, done, s.vars, t, 0);
    }
  }

  lemma FreedAreReady(g: Program, deps: map<nat, nat>, done: set<nat>, outs: seq<nat>)
    requires forall i :: 0 <= i < |outs| ==> outs[i] < |g.p.tasks|
    requires forall o :: o in outs && CounterAfter(deps, o) == 0 ==> InputSet(g.p, o) <= done
    ensures forall i :: 0 <= i < |Freed(deps, outs)| ==>
      Freed(deps, outs)[i] < |g.p.tasks| && InputSet(g.p, Freed(deps, outs)[i]) <= done
  {
    hide InputSet;
    FreedAreOutputs(deps, outs);
    hide Freed;
    forall i | 0 <= i < |Freed(deps, outs)|
      ensures Freed(deps, outs)[i] < |g.p.tasks| && InputSet(g.p, Freed(deps, outs)[i]) <= done
    {
      assert Freed(deps, outs)[i] in Freed(deps, outs);
    }
  }

  /** Good runs may be added to the queue. */
  lemma LongerQueueAgrees(g: Program, s: State, runs: seq<MemoryTaskRun>, s': State)
    requires InRange(g.p) && GoodTokens(g, s) && forall i :: 0 <= i < |runs| ==> GoodRun(g, runs[i])
    requires s'.taskCh == s.taskCh + runs && s'.goroutines == s.goroutines && s'.results == s.results
    ensures GoodTokens(g, s')
  {
    hide GoodRun, GoodToken;
  }

  lemma ReleaseAgrees(g: Program, s2: State, done: set<nat>, outs: seq<nat>)
    requires InRange(g.p) && Distinct(outs) && forall i :: 0 <= i < |outs| ==> outs[i] < |g.p.tasks|
    requires GoodTokens(g, s2) && Holds(g, Final(g), done, s2.vars)
    requires AgreeOn(PlainResults(s2.results), Final(g), done)
    requires forall o :: o in outs && CounterAfter(s2.dependencies, o) == 0 ==> InputSet(g.p, o) <= done
    ensures GoodTokens(g, Release(g.p, s2, outs))
    ensures Release(g.p, s2, outs).vars == s2.vars
  {
    hide GoodRun, GoodToken, GoodTokens, Holds, NewRuns, Final, PlainResults, AgreeOn, Freed, Decremented, InRange,
      Release, CounterAfter, InputSet, Distinct;
    var freed := Freed(s2.dependencies, outs);
    ReleaseQueues(g.p, s2, outs);
    FreedAreReady(g, s2.dependencies, done, outs);
    NewRunsAreGood(g, s2, done, freed);
    LongerQueueAgrees(g, s2, NewRuns(g.p, s2, freed), Release(g.p, s2, outs));
  }

  lemma CompleteDoneAgree(g: Program, b: Ledger, r: TaskRunResult, b': Ledger)
    requires InRange(g.p) && DoneAgree(g, b) && b'.results == b.results[r.task := r]
    requires Done(b') == Done(b) + {r.task} && r.task !in Done(b)
    requires r.task in Final(g) && r.result == Final(g)[r.task]
    ensures DoneAgree(g, b')
  {
    hide Final;
  }

  lemma CompleteOnTrack(g: Program, b: Ledger, r: TaskRunResult, b': Ledger)
    requires InRange(g.p) && r.task < |g.p.tasks| && AllOnTrack(g, b) && Completes(g.p, b, r, b')
    requires r.task !in b'.owners
    requires forall o :: o in g.p.tasks[r.task].outputs ==> o < |g.p.tasks| && o !in b.results
    requires Unexited(g, b)
    ensures AllOnTrack(g, b')
  {
    hide Final, Inputs, Visible, Try;
    forall t | t in b'.owners ensures OnTrack(g, t, Attempts(b'.results, t)) {
      if t in g.p.tasks[r.task].outputs {
        FinalIsTry(g, t);
      }
    }
  }

  lemma CompleteAgrees(g: Program, s: State, r: TaskRunResult, now: int)
    requires WellFormed(g.p) && PlainDotIDs(g.p) && QuietReport(g, s, r)
    requires !MustRetry(g.p, Counted(s, r).attempts, r)
    ensures Agrees(g, Receive(g.p, s, r, now))
  {
    hide Owners, Unique, TokenAttempts, OwnersRetry, GoodTokens, Holds, OnTrack, GoodReport, SetVariable, PlainDotIDs,
      InverseLinks, SortedLinks, InRange, Final, DoneAgree, AllOnTrack, Core, Stable, Unexited;
    var x, s2, s' := r.task, StoreVariable(g.p, StoreReport(s, r), r, now), Receive(g.p, s, r, now);
    var b, b', outs := LedgerOf(s), LedgerOf(s'), g.p.tasks[x].outputs;
    ReporterIsOnTrack(g, s, r);
    ReportIsOnTrack(g, x, Attempts(s.results, x), r);
    OnTrackHasFinal(g, x, Attempts(s.results, x));
    BookedTokens(g.p, s, r, s2);
    CompleteReportKeeps(g.p, s, r, now);
    OutputsInRange(g.p, b, x);
    BookComplete(g.p, b, Counted(s, r), b');
    AssignKeepsOthers(g, Final(g), Done(b), s.vars, x, r.result);
    OtherTokensAgree(g, s, r, s2);
    CompleteDoneAgree(g, b, Counted(s, r), b');
    FirstTryOfFailEarly(g.p, s, r);
    CompleteUnexited(g, s, r, b, b');
    DoneAgreeOn(g, b');
    FreedInputsDone(g.p, b, x);
    ReleaseAgrees(g, s2, Done(b'), outs);
    CompleteOnTrack(g, b, Counted(s, r), b');
  }

  /** A fail-early task that reports an error is on its first try: it is never retried. */
  lemma FirstTryOfFailEarly(p: Pipeline, s: State, r: TaskRunResult)
    requires ReportReady(p, s, r) && !s.exiting
    ensures p.tasks[r.task].failEarly ==> Attempts(s.results, r.task) == 0
  {
    TakeReport(p, s, r);
    hide Conserved, Core, TokenAttempts, Owners;
    assert r.task in LedgerOf(s).owners;
  }

  lemma CompleteUnexited(g: Program, s: State, r: TaskRunResult, b: Ledger, b': Ledger)
    requires InRange(g.p) && r.task < |g.p.tasks| && !Fails(g.p, r) && Unexited(g, b)
    requires Done(b') == Done(b) + {r.task}
    requires GoodReport(g, Attempts(s.results, r.task), r)
    requires g.p.tasks[r.task].failEarly ==> Attempts(s.results, r.task) == 0
    ensures Unexited(g, b')
  {
    assert !FailsFirst(g, r.task);
    hide Done, FailsFirst;
  }

  lemma OnTrackHasFinal(g: Program, t: nat, attempts: nat)
    requires InRange(g.p) && OnTrack(g, t, attempts)
    ensures t in Final(g)
  {
  }

  lemma OutputsInRange(p: Pipeline, b: Ledger, x: nat)
    requires WellFormed(p) && Core(p, b) && !b.exiting && x in b.owners && x < |p.tasks|
    ensures forall o :: o in p.tasks[x].outputs ==> o < |p.tasks| && o !in b.results && o != x
    ensures Distinct(p.tasks[x].outputs)
    ensures forall i :: 0 <= i < |p.tasks[x].outputs| ==> p.tasks[x].outputs[i] < |p.tasks|
  {
    AllOutputsAreFresh(p, b, x);
    OutputsDistinct(p, x);
  }

  lemma FreedInputsDone(p: Pipeline, b: Ledger, x: nat)
    requires WellFormed(p) && Core(p, b) && !b.exiting && x in b.owners && x < |p.tasks|
    ensures forall o :: o in p.tasks[x].outputs ==> o < |p.tasks|
    ensures forall o :: o in p.tasks[x].outputs && CounterAfter(b.dependencies, o) == 0 ==>
      InputSet(p, o) <= Done(b) + {x}
  {
    AllOutputsAreFresh(p, b, x);
  }

  lemma DeliverAgrees(g: Program, s: State, r: TaskRunResult, now: int)
    requires WellFormed(g.p) && PlainDotIDs(g.p) && ReportReady(g.p, s, r) && !s.exiting && Agrees(g, s)
    requires !Receive(g.p, s, r, now).exiting
    ensures Agrees(g, Receive(g.p, s, r, now))
  {
    hide Owners, Unique, TokenAttempts, OwnersRetry, Holds, OnTrack, GoodReport, PlainDotIDs, Final, Agrees, Core;
    ReportIsNotPending(g, s, r);
    NotExitingNotFailing(g.p, s, r, now);
    if MustRetry(g.p, Counted(s, r).attempts, r) {
      RetryAgrees(g, s, r, now);
    } else {
      CompleteAgrees(g, s, r, now);
    }
  }

  lemma ReportIsNotPending(g: Program, s: State, r: TaskRunResult)
    requires InRange(g.p) && Agrees(g, s) && Reporting(r) in s.goroutines
    ensures !r.isPending
  {
    assert GoodToken(g, s.results, Reporting(r));
  }

  lemma NotExitingNotFailing(p: Pipeline, s: State, r: TaskRunResult, now: int)
    requires InRange(p) && r.task < |p.tasks| && s.waiting > 0 && !r.isPending && !Receive(p, s, r, now).exiting
    ensures !Fails(p, r)
  {
  }

  lemma StepAgrees(g: Program, s: State, e: Event)
    requires WellFormed(g.p) && PlainDotIDs(g.p) && RefsAreInputs(g) && Obeys(g, e)
    requires Inv(g.p, s) && !s.exiting && Agrees(g, s) && Enabled(g.p, s, e) && !Apply(g.p, s, e).exiting
    ensures Agrees(g, Apply(g.p, s, e))
  {
    hide Core, Unique, Owners, TokenAttempts, OwnersRetry, Agrees, PlainDotIDs, RefsAreInputs, Receive;
    if e.Deliver? {
      DeliverAgrees(g, s, e.report, e.now);
    } else {
      MoveAgrees(g, s, e);
    }
  }

  // ----- whole runs -----

  lemma QueuedOwns(s: State, i: nat)
    requires i < |s.taskCh|
    ensures s.taskCh[i].task in Owners(s)
  {
    assert s.taskCh[i] in s.taskCh;
  }

  // ----- the start -----

  /** `s0` starts the program `g`, from scratch or from saved runs, whose results `g` takes as given. */
  ghost predicate Starts(g: Program, runs: seq<Runs.TaskRun>, s0: State) {
    WellFormed(g.p) && Opens(g.p, runs, g.vars, s0) && g.saved == PlainResults(s0.results)
  }

  lemma StartParts(g: Program, runs: seq<Runs.TaskRun>, s0: State) returns (s: State)
    requires PlainDotIDs(g.p) && Starts(g, runs, s0)
    ensures Inv(g.p, s0) && Fresh(s0) && FirstQueue(g.p, s, s0)
    ensures s0.results == s.results && s0.vars == s.vars && g.saved.Keys == s.results.Keys
    ensures Resume.VarsBooked(g.p, g.vars, s.results, s.vars)
    ensures RestoredResults(g.p, runs, s.results)
  {
    OpensWell(g.p, runs, g.vars, s0);
    hide Inv, PlainDotIDs, Known, DistinctRuns, ClosedRuns, NewScheduler, Restore, EmptyState, SortedLinks,
      InverseLinks, PositionalIds, InRange, RestoredResults, Fresh, FirstQueue, Resume.VarsBooked;
    s := NewSchedulerBooks(g.p, runs, g.vars, s0);
    Resume.RestoredIsBooked(g.p, runs, g.vars, s);
  }

  /** What is done at the start: the restored results. */
  lemma StartDone(g: Program, runs: seq<Runs.TaskRun>, s0: State)
    requires Fresh(s0) && RestoredResults(g.p, runs, s0.results)
    ensures Done(LedgerOf(s0)) == s0.results.Keys
    ensures forall t :: t in s0.results ==> t < |g.p.tasks| && !s0.results[t].isPending
  {
    hide Owners, Finished;
    FirstDone(s0, s0);
  }

  lemma SavedIsFinal(g: Program, s: State)
    requires InRange(g.p) && g.saved == PlainResults(s.results) && forall t :: t in s.results ==> t < |g.p.tasks|
    ensures AgreeOn(PlainResults(s.results), Final(g), s.results.Keys)
  {
    forall t | t in s.results ensures t in Final(g) && Final(g)[t] == s.results[t].result {
      FinalIsSaved(g, t);
    }
    hide Final;
  }

  lemma SavedHold(g: Program, s: State)
    requires InRange(g.p) && g.saved == PlainResults(s.results)
    requires forall t :: t in s.results ==> t < |g.p.tasks| && !s.results[t].isPending
    requires Resume.VarsBooked(g.p, g.vars, s.results, s.vars)
    ensures Holds(g, Final(g), s.results.Keys, s.vars)
  {
    SavedIsFinal(g, s);
    hide Final, Keypaths.Trim;
    forall x | !IsTaskName(g.p, x) ensures SameEntry(g.vars, s.vars, x) {
      assert !Resume.NamesResult(g.p, s.results, x);
    }
  }

  lemma FirstTaskIsReady(p: Pipeline, s: State, s': State, i: nat)
    requires InRange(p) && FirstQueue(p, s, s') && OwnersReady(p, LedgerOf(s')) && i < |Doable(s, |p.tasks|)|
    ensures Doable(s, |p.tasks|)[i] < |p.tasks| && InputSet(p, Doable(s, |p.tasks|)[i]) <= Done(LedgerOf(s'))
  {
    FirstRuns(p, s, s');
    hide NewMemoryTaskRun, Owners, Done, InputSet, Doable, FirstQueue;
    QueuedOwns(s', i);
    assert s'.taskCh[i].task in LedgerOf(s').owners;
  }

  lemma FirstRunsAre(p: Pipeline, s: State, s': State)
    requires InRange(p) && FirstQueue(p, s, s')
    ensures forall i :: 0 <= i < |Doable(s, |p.tasks|)| ==> Doable(s, |p.tasks|)[i] < |p.tasks|
    ensures s'.taskCh == NewRuns(p, s, Doable(s, |p.tasks|)) && s'.goroutines == multiset{}
  {
    hide NewMemoryTaskRun, Startable;
    FirstQueueIs(p, s, s');
    assert s.taskCh + NewRuns(p, s, Doable(s, |p.tasks|)) == NewRuns(p, s, Doable(s, |p.tasks|));
  }

  lemma QueueOfGoodRuns(g: Program, s: State)
    requires InRange(g.p) && s.goroutines == multiset{} && forall i :: 0 <= i < |s.taskCh| ==> GoodRun(g, s.taskCh[i])
    ensures GoodTokens(g, s)
  {
    hide GoodRun, GoodToken;
  }

  lemma FirstTokensAgree(g: Program, s: State, s': State)
    requires InRange(g.p) && FirstQueue(g.p, s, s') && OwnersReady(g.p, LedgerOf(s'))
    requires Done(LedgerOf(s')) == s.results.Keys && s'.results == s.results
    requires AgreeOn(PlainResults(s.results), Final(g), s.results.Keys)
    requires Holds(g, Final(g), s.results.Keys, s.vars)
    ensures GoodTokens(g, s')
  {
    hide GoodRun, GoodTokens, Holds, Final, Owners, OwnersReady, Doable, FirstQueue, AgreeOn, Done, NewRuns,
      PlainResults, InRange, LedgerOf, InputSet;
    var ts := Doable(s, |g.p.tasks|);
    FirstRunsAre(g.p, s, s');
    forall i | 0 <= i < |ts| ensures InputSet(g.p, ts[i]) <= s.results.Keys {
      FirstTaskIsReady(g.p, s, s', i);
    }
    NewRunsAreGood(g, s, s.results.Keys, ts);
    QueueOfGoodRuns(g, s');
  }

  lemma FirstOnTrack(g: Program, s0: State)
    requires InRange(g.p) && Inv(g.p, s0) && Fresh(s0) && g.saved.Keys == s0.results.Keys
    ensures AllOnTrack(g, LedgerOf(s0))
  {
    forall t | t in Owners(s0) ensures OnTrack(g, t, Attempts(s0.results, t)) {
      OwnerInputsDone(g.p, LedgerOf(s0), t);
      assert t !in s0.results;
      hide Inv, Fresh, Final, Inputs, Visible, Try;
      FinalIsTry(g, t);
    }
  }

  lemma StartsAgreeing(g: Program, runs: seq<Runs.TaskRun>, s0: State)
    requires PlainDotIDs(g.p) && Starts(g, runs, s0)
    ensures Inv(g.p, s0) && Fresh(s0) && Agrees(g, s0)
  {
    var s := StartParts(g, runs, s0);
    StartDone(g, runs, s0);
    assert InRange(g.p) && OwnersReady(g.p, LedgerOf(s0));
    hide Inv, Fresh, PlainDotIDs, Final, Holds, GoodTokens, AllOnTrack, Owners, OwnersReady, InRange, FirstQueue,
      Resume.VarsBooked, FailsFirst, Done, AgreeOn;
    SavedIsFinal(g, s);
    SavedHold(g, s);
    FirstTokensAgree(g, s, s0);
    FirstOnTrack(g, s0);
    FirstAgree(g, s0);
  }

  lemma FirstAgree(g: Program, s0: State)
    requires InRange(g.p) && g.saved.Keys == s0.results.Keys == Done(LedgerOf(s0))
    requires AgreeOn(PlainResults(s0.results), Final(g), s0.results.Keys)
    ensures DoneAgree(g, LedgerOf(s0)) && Unexited(g, LedgerOf(s0))
  {
    hide Final, Done, Inputs, Visible;
  }

  lemma {:induction false} RunAgrees(g: Program, s0: State, tr: Trace)
    requires WellFormed(g.p) && PlainDotIDs(g.p) && RefsAreInputs(g)
    requires Inv(g.p, s0) && !s0.exiting && Agrees(g, s0)
    requires IsRun(g.p, s0, tr) && ObeysAll(g, tr) && !After(g.p, s0, tr).exiting
    ensures Agrees(g, After(g.p, s0, tr))
  {
    hide Inv, Agrees, PlainDotIDs, RefsAreInputs, Obeys, Apply, Enabled;
    if tr.Then? {
      NeverExited(g.p, s0, tr);
      RunAgrees(g, s0, tr.prev);
      RunKeeps(g.p, s0, tr.prev);
      StepAgrees(g, After(g.p, s0, tr.prev), tr.event);
    }
  }

  // ----- exits -----

  /** If the reports so far agree with the program, a report that makes the scheduler exit is the
      failing first try of a fail-early task. */
  lemma ExitIsFirstFailure(g: Program, s: State, e: Event)
    requires WellFormed(g.p) && Inv(g.p, s) && !s.exiting && Agrees(g, s) && Enabled(g.p, s, e)
    requires Apply(g.p, s, e).exiting
    ensures SomeFailsFirst(g)
  {
    ExitNeedsReport(g.p, s, e);
    var r := e.report;
    hide Conserved, Core, TokenAttempts, OwnersRetry, Receive, Final, Agrees, Inputs, Visible;
    assert ReportReady(g.p, s, r);
    StartsToExit(g.p, s, r, e.now);
    FirstTryOfFailEarly(g.p, s, r);
    ReporterFails(g, s, r);
  }

  lemma ReporterFails(g: Program, s: State, r: TaskRunResult)
    requires InRange(g.p) && ReportReady(g.p, s, r) && Agrees(g, s) && Fails(g.p, r)
    requires Attempts(s.results, r.task) == 0
    ensures FailsFirst(g, r.task)
  {
    TakeReport(g.p, s, r);
    hide Conserved, Core, TokenAttempts, OwnersRetry, Owners, Inputs, Visible, Final;
    assert GoodToken(g, s.results, Reporting(r));
    assert r.task !in Done(LedgerOf(s));
  }

  lemma {:induction false} RunExits(g: Program, s0: State, tr: Trace)
    requires WellFormed(g.p) && PlainDotIDs(g.p) && RefsAreInputs(g)
    requires Inv(g.p, s0) && !s0.exiting && Agrees(g, s0)
    requires IsRun(g.p, s0, tr) && ObeysAll(g, tr) && After(g.p, s0, tr).exiting
    ensures SomeFailsFirst(g)
  {
    hide Inv, Agrees, PlainDotIDs, RefsAreInputs, Obeys, Apply, Enabled, SomeFailsFirst, InRange, SortedLinks,
      InverseLinks, PositionalIds;
    if After(g.p, s0, tr.prev).exiting {
      RunExits(g, s0, tr.prev);
    } else {
      RunAgrees(g, s0, tr.prev);
      RunKeeps(g.p, s0, tr.prev);
      ExitIsFirstFailure(g, After(g.p, s0, tr.prev), tr.event);
    }
  }

  /** A run that has closed without exiting has completed every task. */
  lemma ClosesComplete(g: Program, s0: State, tr: Trace)
    requires WellFormed(g.p) && PlainDotIDs(g.p) && RefsAreInputs(g)
    requires Inv(g.p, s0) && Fresh(s0) && Agrees(g, s0)
    requires IsRun(g.p, s0, tr) && ObeysAll(g, tr)
    requires After(g.p, s0, tr).closed && !After(g.p, s0, tr).exiting
    ensures Agrees(g, After(g.p, s0, tr)) && !After(g.p, s0, tr).pending
    ensures PlainResults(After(g.p, s0, tr).results) == Final(g)
    ensures Done(LedgerOf(After(g.p, s0, tr))) == Below(|g.p.tasks|)
  {
    RunAgrees(g, s0, tr);
    RunKeeps(g.p, s0, tr);
    NothingPending(g, s0, tr);
    hide Conserved, Core, TokenAttempts, OwnersRetry, Agrees, PlainDotIDs, RefsAreInputs, Fresh, ObeysAll, Owners,
      Final, Done;
    var s := After(g.p, s0, tr);
    assert s.waiting == 0 && Conserved(g.p, s) && Core(g.p, LedgerOf(s)) && !s.pending;
    hide IsRun, After, Inv;
    NothingOwned(g.p, s);
    LedgerAtRest(g.p, LedgerOf(s));
    ResultsAgree(g, s);
  }

  /** Schedule independence. Every run of a program of deterministic tasks, started afresh or from
      saved runs, that has closed is exiting exactly if some fail-early task fails on its reference
      first try; otherwise it ends with the reference result of every task and with the reference
      variables, and nothing is pending. */
  lemma ScheduleIndependence(g: Program, runs: seq<Runs.TaskRun>, s0: State, tr: Trace)
    requires PlainDotIDs(g.p) && RefsAreInputs(g) && Starts(g, runs, s0)
    requires IsRun(g.p, s0, tr) && ObeysAll(g, tr) && After(g.p, s0, tr).closed
    ensures After(g.p, s0, tr).exiting <==> SomeFailsFirst(g)
    ensures !SomeFailsFirst(g) ==>
      && PlainResults(After(g.p, s0, tr).results) == Final(g)
      && After(g.p, s0, tr).vars == Eval(g, |g.p.tasks|).vars
      && !After(g.p, s0, tr).pending
  {
    StartsAgreeing(g, runs, s0);
    assert WellFormed(g.p) && !s0.exiting;
    hide Inv, Fresh, Agrees, PlainDotIDs, RefsAreInputs, ObeysAll, Starts, SomeFailsFirst, Final, Eval, Done,
      SortedLinks, InverseLinks, PositionalIds, IsRun, After, Below;
    if After(g.p, s0, tr).exiting {
      RunExits(g, s0, tr);
    } else {
      ClosesComplete(g, s0, tr);
      AllDoneNoneFails(g, After(g.p, s0, tr));
      VariablesAgree(g, After(g.p, s0, tr));
    }
  }

  lemma AllDoneNoneFails(g: Program, s: State)
    requires InRange(g.p) && Agrees(g, s) && Done(LedgerOf(s)) == Below(|g.p.tasks|)
    ensures !SomeFailsFirst(g)
  {
    BelowIs(|g.p.tasks|);
    hide Done, Final, Inputs, Visible, Holds, GoodTokens, AllOnTrack, DoneAgree, Below;
  }

  /** Whatever is completed before the scheduler exits, if it ever does, is the reference result, and
      stays so in every later state. */
  lemma CompletedResultsAgree(g: Program, runs: seq<Runs.TaskRun>, s0: State, tr: Trace, later: Trace, t: nat)
    requires PlainDotIDs(g.p) && RefsAreInputs(g) && Starts(g, runs, s0)
    requires IsRun(g.p, s0, later) && ObeysAll(g, later) && Continues(tr, later) && IsRun(g.p, s0, tr)
    requires !After(g.p, s0, tr).exiting && t in Done(LedgerOf(After(g.p, s0, tr)))
    ensures t in Final(g) && t in After(g.p, s0, later).results
    ensures After(g.p, s0, later).results[t].result == Final(g)[t]
  {
    StartsAgreeing(g, runs, s0);
    assert WellFormed(g.p) && !s0.exiting;
    hide Inv, Fresh, Agrees, PlainDotIDs, RefsAreInputs, Starts, Final, SortedLinks, InverseLinks, PositionalIds, IsRun,
      After, Owners, Obeys;
    ObeysBefore(g, tr, later);
    RunAgrees(g, s0, tr);
    ContinuingIsStable(g.p, s0, tr, later);
    SettledAgrees(g, After(g.p, s0, tr), After(g.p, s0, later), t);
  }

  lemma SettledAgrees(g: Program, s: State, s': State, t: nat)
    requires InRange(g.p) && Agrees(g, s) && Stable(LedgerOf(s), LedgerOf(s')) && t in Done(LedgerOf(s))
    ensures t in Final(g) && t in s'.results && s'.results[t].result == Final(g)[t]
  {
    hide Owners, Final, Holds, GoodTokens, AllOnTrack, Unexited;
    assert t in LedgerOf(s').results;
  }

  lemma {:induction false} ObeysBefore(g: Program, tr: Trace, later: Trace)
    requires ObeysAll(g, later) && Continues(tr, later)
    ensures ObeysAll(g, tr)
    decreases later
  {
    if tr != later {
      ObeysBefore(g, tr, later.prev);
    }
  }

  ghost predicate NoPendingReports(s: State) {
    !s.pending && forall token :: token in s.goroutines && token.Reporting? ==> !token.report.isPending
  }

  lemma NoPendingReceive(p: Pipeline, s: State, r: TaskRunResult, now: int)
    requires WellFormed(p) && r.task < |p.tasks| && s.waiting > 0
    requires NoPendingReports(s) && Reporting(r) in s.goroutines
    ensures NoPendingReports(Receive(p, s, r, now))
  {
    hide NewMemoryTaskRun, SetVariable, MarkRemaining;
    var s2 := StoreVariable(p, StoreReport(s, r), r, now);
    assert forall token :: token in s2.goroutines ==> token in s.goroutines;
    if !s2.exiting && !MustRetry(p, Counted(s, r).attempts, r) {
      OutputsDistinct(p, r.task);
      ReleaseQueues(p, s2, p.tasks[r.task].outputs);
    }
  }

  /** A goroutine that is added, if any, makes no pending report. */
  lemma NoPendingMove(s: State, s': State, added: Goroutine)
    requires NoPendingReports(s) && s'.pending == s.pending && !(added.Reporting? && added.report.isPending)
    requires forall token :: token in s'.goroutines ==> token in s.goroutines || token == added
    ensures NoPendingReports(s')
  {
  }

  lemma NoPendingBecome(s: State, before: Goroutine, report: TaskRunResult)
    requires NoPendingReports(s) && !report.isPending
    ensures NoPendingReports(Become(s, before, Reporting(report)))
  {
    hide NoPendingReports;
    NoPendingMove(s, Become(s, before, Reporting(report)), Reporting(report));
  }

  lemma NoPendingStep(g: Program, s: State, e: Event)
    requires WellFormed(g.p) && NoPendingReports(s) && Enabled(g.p, s, e) && Obeys(g, e)
    ensures NoPendingReports(Apply(g.p, s, e))
  {
    hide NewMemoryTaskRun, Outcome, Receive, Become, SortedLinks, InverseLinks, PositionalIds, InRange,
      NoPendingReports;
    var s' := Apply(g.p, s, e);
    match e
    case Deliver(r, now) => NoPendingReceive(g.p, s, r, now);
    case Finish(run, result, isPending, now) =>
      NoPendingBecome(s, Executing(run), Executed(run, result, isPending, now));
    case Panic(run, detail, now) => NoPendingBecome(s, Executing(run), Errored(run.task, Panicked(detail), now));
    case Cancel(sleeper, now) => NoPendingBecome(s, sleeper, Errored(sleeper.task, Cancelled, now));
    case Dispatch(_) => NoPendingMove(s, s', Executing(s.taskCh[0]));
    case _ => NoPendingMove(s, s', Sleeping(0, 0, map[]));
  }

  lemma {:induction false} NothingPending(g: Program, s0: State, tr: Trace)
    requires WellFormed(g.p) && Fresh(s0) && Inv(g.p, s0) && IsRun(g.p, s0, tr) && ObeysAll(g, tr)
    ensures NoPendingReports(After(g.p, s0, tr))
  {
    hide Inv, Obeys, Apply, Enabled, Owners;
    if tr.Then? {
      NothingPending(g, s0, tr.prev);
      RunKeeps(g.p, s0, tr.prev);
      NoPendingStep(g, After(g.p, s0, tr.prev), tr.event);
    }
  }

  lemma ResultsAgree(g: Program, s: State)
    requires WellFormed(g.p) && Agrees(g, s) && Owners(s) == {} && Core(g.p, LedgerOf(s)) && !s.pending
    requires AllHaveResults(g.p, LedgerOf(s))
    ensures PlainResults(s.results) == Final(g)
    ensures Done(LedgerOf(s)) == Below(|g.p.tasks|)
  {
    hide Owners, Holds, GoodTokens, AllOnTrack, CountersExact, ResultsClosed, OwnersReady;
    BelowIs(|g.p.tasks|);
    assert forall t :: t in s.results ==> !PendingTask(LedgerOf(s), t);
    EvalKeeps(g, |g.p.tasks|, |g.p.tasks|);
    forall t | 0 <= t < |g.p.tasks| ensures t in Done(LedgerOf(s)) {
      assert !PendingTask(LedgerOf(s), t);
    }
    hide Final;
  }

  lemma VariablesAgree(g: Program, s: State)
    requires WellFormed(g.p) && PlainDotIDs(g.p) && Agrees(g, s) && Done(LedgerOf(s)) == Below(|g.p.tasks|)
    ensures s.vars == Eval(g, |g.p.tasks|).vars
  {
    hide PlainDotIDs, GoodTokens, AllOnTrack, DoneAgree, Owners, SortedLinks, InverseLinks;
    var n, vars := |g.p.tasks|, Eval(g, |g.p.tasks|).vars;
    EvalHolds(g, n);
    BelowIs(n);
    forall x ensures SameEntry(s.vars, vars, x) {
      if IsTaskName(g.p, x) {
        var u :| 0 <= u < n && Name(g.p, u) == x;
        assert HoldsOne(g.p, Final(g), u, vars) && HoldsOne(g.p, Final(g), u, s.vars);
      } else {
        assert SameEntry(g.vars, vars, x) && SameEntry(g.vars, s.vars, x);
      }
    }
    Resume.SameEntriesSameMap(s.vars, vars);
  }

  predicate IsEntryOf(p: Pipeline, results: map<nat, Result>, d: TaskDependency, e: Entry<Result>) {
    d.propagateResult && d.inputTask < |p.tasks|
    && e.key == p.tasks[d.inputTask].index && e.item == ResultOf(results, d.inputTask)
  }

  /** A run gets exactly the results of the inputs that propagate, keyed by output index. */
  lemma {:induction false} PropagatedAre(p: Pipeline, deps: seq<TaskDependency>, results: map<nat, Result>,
      e: Entry<Result>)
    requires forall i :: 0 <= i < |deps| ==> deps[i].inputTask < |p.tasks|
    ensures e in Propagated(p, deps, results) <==>
      exists d :: d in deps && IsEntryOf(p, results, d, e)
  {
    if deps != [] {
      var init, last := deps[..|deps| - 1], deps[|deps| - 1];
      assert deps == init + [last];
      PropagatedAre(p, init, results, e);
      assert (exists d :: d in deps && IsEntryOf(p, results, d, e)) <==>
        (exists d :: d in init && IsEntryOf(p, results, d, e)) || IsEntryOf(p, results, last, e);
    }
  }

  function Propagating(deps: seq<TaskDependency>): nat {
    if deps == [] then 0
    else Propagating(deps[..|deps| - 1]) + (if deps[|deps| - 1].propagateResult then 1 else 0)
  }

  lemma {:induction false} ItemsAre(es: seq<Entry<Result>>)
    ensures |Items(es)| == |es| && forall i :: 0 <= i < |es| ==> Items(es)[i] == es[i].item
  {
    if es != [] {
      ItemsAre(es[..|es| - 1]);
    }
  }

  lemma {:induction false} PropagatedCount(p: Pipeline, deps: seq<TaskDependency>, results: map<nat, Result>)
    requires forall i :: 0 <= i < |deps| ==> deps[i].inputTask < |p.tasks|
    ensures |Propagated(p, deps, results)| == Propagating(deps)
  {
    if deps != [] {
      PropagatedCount(p, deps[..|deps| - 1], results);
    }
  }

  /** The inputs of a run are the results of its propagating inputs, one each, by output index. */
  lemma RunInputsAreSorted(p: Pipeline, t: nat, results: map<nat, Result>) returns (es: seq<Entry<Result>>)
    requires InRange(p) && t < |p.tasks|
    ensures Sorted(es) && |es| == |RunInputs(p, t, results)| == Propagating(p.tasks[t].inputs)
    ensures forall i :: 0 <= i < |es| ==> RunInputs(p, t, results)[i] == es[i].item
    ensures forall e :: e in es <==> exists d :: d in p.tasks[t].inputs && IsEntryOf(p, results, d, e)
  {
    var deps := p.tasks[t].inputs;
    var entries := Propagated(p, deps, results);
    es := Sort(entries);
    SortSorts(entries);
    ItemsAre(es);
    PropagatedCount(p, deps, results);
    assert |es| == |multiset(es)| == |entries|;
    hide Sort, RunInputs;
    forall e ensures e in es <==> exists d :: d in deps && IsEntryOf(p, results, d, e)
    {
      PropagatedAre(p, deps, results, e);
      assert e in es <==> e in multiset(es);
      assert e in entries <==> e in multiset(entries);
    }
  }

  /** So a task's reference inputs are the reference results of its propagating inputs, one each, by
      output index. */
  lemma InputsAreFinal(g: Program, t: nat) returns (es: seq<Entry<Result>>)
    requires InRange(g.p) && t < |g.p.tasks|
    ensures Sorted(es) && |es| == |Inputs(g, t)| == Propagating(g.p.tasks[t].inputs)
    ensures forall i :: 0 <= i < |es| ==> Inputs(g, t)[i] == es[i].item
    ensures forall e :: e in es <==> exists d ::
      && d in g.p.tasks[t].inputs && d.propagateResult && d.inputTask in Final(g) && d.inputTask < |g.p.tasks|
      && e == Entry(g.p.tasks[d.inputTask].index, Final(g)[d.inputTask])
  {
    es := RunInputsAreSorted(g.p, t, Final(g));
    forall d | d in g.p.tasks[t].inputs ensures d.inputTask in Final(g) && d.inputTask < |g.p.tasks| {
      FinalHas(g, d.inputTask);
    }
    hide Final, RunInputs;
  }

  /** The library sort may order equal keys as it likes; with distinct output indices among the
      propagated inputs it has no choice. */
  lemma InputOrderIsForced(p: Pipeline, t: nat, results: map<nat, Result>, sorted: seq<Entry<Result>>)
    requires InRange(p) && t < |p.tasks| && Sorted(sorted)
    requires multiset(sorted) == multiset(Propagated(p, p.tasks[t].inputs, results))
    requires KeyDetermines(Propagated(p, p.tasks[t].inputs, results))
    ensures Items(sorted) == RunInputs(p, t, results)
  {
    hide Propagated;
    var entries := Propagated(p, p.tasks[t].inputs, results);
    SortSorts(entries);
    assert forall e :: e in sorted ==> e in multiset(sorted);
    assert KeyDetermines(sorted);
    SortedPermutationsAgree(sorted, Sort(entries));
  }
}
