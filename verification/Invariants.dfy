/** What every step of the scheduler, the runner, the tasks and the timers keeps. */
module Invariants {
  import opened Values
  import opened Ordering
  import opened Variables
  import opened Pipelines
  import opened Scheduling
  import opened Tokens
  import opened Releases
  import opened Ledgers

  ghost function LedgerOf(s: State): Ledger {
    Ledger(s.dependencies, s.results, s.pending, s.exiting, Owners(s))
  }

  ghost predicate TokenAttempt(p: Pipeline, s: State, t: nat, attempts: nat) {
    t < |p.tasks| && attempts < Tries(p, t) && (!s.exiting ==> attempts == Attempts(s.results, t))
  }

  ghost predicate Retrying(p: Pipeline, r: TaskRunResult, t: nat) {
    t < |p.tasks| && r.result.error.Some? && !p.tasks[t].failEarly && 1 <= r.attempts < p.tasks[t].retries
  }

  /** The attempt number that a token carries is the stored one and leaves room for a try. */
  ghost predicate TokenAttempts(p: Pipeline, s: State) {
    && (forall i :: 0 <= i < |s.taskCh| ==> TokenAttempt(p, s, s.taskCh[i].task, s.taskCh[i].attempts))
    && (forall g :: g in s.goroutines && g.Executing? ==> TokenAttempt(p, s, g.run.task, g.run.attempts))
    && (forall g :: g in s.goroutines && g.Sleeping? ==> TokenAttempt(p, s, g.task, g.attempts))
  }

  /** A task that owns a token and has a result is being retried after an error. */
  ghost predicate OwnersRetry(p: Pipeline, b: Ledger) {
    !b.exiting ==> forall t :: t in b.results && t in b.owners ==> Retrying(p, b.results[t], t)
  }

  /** The channel is closed only when nothing is waiting, and the runner returns after that. */
  ghost predicate ClosesLast(s: State) {
    (s.closed ==> s.waiting == 0) && (s.returned ==> s.closed)
  }

  ghost predicate Inv(p: Pipeline, s: State) {
    && Conserved(p, s)
    && Core(p, LedgerOf(s))
    && OwnersRetry(p, LedgerOf(s))
    && TokenAttempts(p, s)
    && ClosesLast(s)
  }

  // ----- steps of the environment -----

  /** A step moves a token from one place to another; its owner keeps it. */
  ghost predicate MovesToken(p: Pipeline, s: State, s': State) {
    && Conserved(p, s') && TokenAttempts(p, s') && Owners(s') == Owners(s)
    && s'.dependencies == s.dependencies && s'.results == s.results
    && s'.pending == s.pending && s'.exiting == s.exiting
    && s'.waiting == s.waiting && s'.closed == s.closed && s'.returned == s.returned
  }

  lemma DispatchMoves(p: Pipeline, s: State, e: Event)
    requires InRange(p) && Conserved(p, s) && TokenAttempts(p, s) && Enabled(p, s, e) && e.Dispatch?
    ensures MovesToken(p, s, Apply(p, s, e))
  {
    var s' := Apply(p, s, e);
    DispatchMovesToken(s, s');
    DispatchAttempts(p, s, s');
  }

  lemma DispatchAttempts(p: Pipeline, s: State, s': State)
    requires TokenAttempts(p, s) && s.taskCh != [] && s'.taskCh == s.taskCh[1..]
    requires s'.goroutines == s.goroutines + multiset{Executing(s.taskCh[0])}
    requires s'.results == s.results && s'.exiting == s.exiting
    ensures TokenAttempts(p, s')
  {
    assert forall g :: g in s'.goroutines ==> g in s.goroutines || g == Executing(s.taskCh[0]);
  }

  lemma FireMoves(p: Pipeline, s: State, e: Event)
    requires InRange(p) && Conserved(p, s) && TokenAttempts(p, s) && Enabled(p, s, e) && e.Fire?
    ensures MovesToken(p, s, Apply(p, s, e))
  {
    var s' := Apply(p, s, e);
    var run := NewMemoryTaskRun(p, s.results, e.sleeper.vars, e.sleeper.task, e.sleeper.attempts);
    FireMovesToken(s, s', e.sleeper, run);
    FireAttempts(p, s, s', e.sleeper, run);
  }

  lemma FireAttempts(p: Pipeline, s: State, s': State, g: Goroutine, run: MemoryTaskRun)
    requires TokenAttempts(p, s) && g in s.goroutines && g.Sleeping?
    requires run.task == g.task && run.attempts == g.attempts
    requires s'.taskCh == s.taskCh + [run] && s'.goroutines == s.goroutines - multiset{g}
    requires s'.results == s.results && s'.exiting == s.exiting
    ensures TokenAttempts(p, s')
  {
    assert forall h :: h in s'.goroutines ==> h in s.goroutines;
  }

  lemma BecomeAttempts(p: Pipeline, s: State, g: Goroutine, h: Goroutine)
    requires TokenAttempts(p, s) && h.Reporting?
    ensures TokenAttempts(p, Become(s, g, h))
  {
    assert forall x :: x in Become(s, g, h).goroutines ==> x in s.goroutines || x == h;
  }

  lemma BecomeMoves(p: Pipeline, s: State, g: Goroutine, h: Goroutine)
    requires Conserved(p, s) && TokenAttempts(p, s)
    requires g in s.goroutines && g.Owner() == h.Owner() && h.Reporting?
    ensures MovesToken(p, s, Become(s, g, h))
  {
    BecomeAttempts(p, s, g, h);
    BecomeKeepsOwner(s, g, h);
    hide TokenAttempts, Unique, Owners;
  }

  /** After the close nothing is left to send, to run, to report or to discard. */
  lemma NothingAfterClose(p: Pipeline, s: State)
    requires Inv(p, s) && s.closed
    ensures s.taskCh == [] && s.goroutines == multiset{}
  {
  }

  // ----- the scheduler's step -----

  /** After taking a report, its task owns nothing. */
  lemma TakeReport(p: Pipeline, s: State, r: TaskRunResult)
    requires Conserved(p, s) && Reporting(r) in s.goroutines
    ensures s.waiting > 0 && Conserved(p, StoreReport(s, r))
    ensures r.task in Owners(s) && Owners(StoreReport(s, r)) == Owners(s) - {r.task}
  {
    assert Reporting(r).Owner() == r.task;
    RemovalDropsOwner(s, StoreReport(s, r), Reporting(r));
  }

  lemma ReportOwnsAlone(p: Pipeline, s: State, r: TaskRunResult)
    requires Conserved(p, s) && Reporting(r) in s.goroutines
    ensures forall g :: g in s.goroutines - multiset{Reporting(r)} ==> g in s.goroutines && g.Owner() != r.task
    ensures forall i :: 0 <= i < |s.taskCh| ==> s.taskCh[i].task != r.task
  {
    assert Reporting(r).Owner() == r.task;
    LiveShrinks(s.goroutines, Reporting(r));
    assert forall i :: 0 <= i < |s.taskCh| ==> s.taskCh[i] in s.taskCh && s.taskCh[i].task in QueuedTasks(s.taskCh);
    assert s.goroutines[Reporting(r)] == 1;
  }

  /** Tokens of other tasks do not notice a report. */
  lemma OtherTokensKeepAttempts(p: Pipeline, s: State, r: TaskRunResult, s': State)
    requires Conserved(p, s) && TokenAttempts(p, s) && Reporting(r) in s.goroutines
    requires s'.taskCh == s.taskCh && s'.goroutines == s.goroutines - multiset{Reporting(r)}
    requires s'.exiting || (!s.exiting && s'.results == s.results[r.task := Counted(s, r)])
    ensures TokenAttempts(p, s')
  {
    ReportOwnsAlone(p, s, r);
  }

  lemma StoredOwnersRetry(p: Pipeline, s: State, r: TaskRunResult, s': State)
    requires OwnersRetry(p, LedgerOf(s)) && Owners(s') == Owners(s) - {r.task}
    requires s'.exiting || (!s.exiting && s'.results == s.results[r.task := Counted(s, r)])
    ensures OwnersRetry(p, LedgerOf(s'))
  {
  }

  ghost predicate ReportReady(p: Pipeline, s: State, r: TaskRunResult) {
    Inv(p, s) && Reporting(r) in s.goroutines && r.task < |p.tasks| && s.waiting > 0 && !s.closed
  }

  /** Taking a report moves no other token, and raises or keeps all other flags. */
  lemma ReportTokens(p: Pipeline, s: State, r: TaskRunResult, s': State)
    requires Conserved(p, s) && TokenAttempts(p, s) && OwnersRetry(p, LedgerOf(s)) && Reporting(r) in s.goroutines
    requires s'.taskCh == s.taskCh && s'.goroutines == s.goroutines - multiset{Reporting(r)}
    requires s'.waiting == s.waiting - 1
    requires s'.exiting || (!s.exiting && s'.results == s.results[r.task := Counted(s, r)])
    ensures Conserved(p, s') && TokenAttempts(p, s') && OwnersRetry(p, LedgerOf(s'))
    ensures r.task in Owners(s) && Owners(s') == Owners(s) - {r.task}
  {
    TakeReport(p, s, r);
    assert s'.taskCh == StoreReport(s, r).taskCh && s'.goroutines == StoreReport(s, r).goroutines;
    OtherTokensKeepAttempts(p, s, r, s');
    hide TokenAttempts, UniqueQueue, UniqueLive, QueuedTasks, LiveTasks;
    assert Owners(s') == Owners(StoreReport(s, r));
    StoredOwnersRetry(p, s, r, s');
  }

  lemma PendingReportKeeps(p: Pipeline, s: State, r: TaskRunResult, now: int)
    requires InRange(p) && ReportReady(p, s, r) && r.isPending
    ensures Inv(p, Receive(p, s, r, now)) && Stable(LedgerOf(s), LedgerOf(Receive(p, s, r, now)))
  {
    hide Conserved, Core, TokenAttempts, OwnersRetry, Owners, Stable, InRange, StoreVariable;
    var s' := Receive(p, s, r, now);
    ReportTokens(p, s, r, s');
    BookPending(p, LedgerOf(s), Counted(s, r), LedgerOf(s'));
  }

  lemma TaskIdsArePositions(p: Pipeline)
    requires PositionalIds(p)
    ensures forall t :: t in TaskIds(p) <==> 0 <= t < |p.tasks|
  {
    forall t | 0 <= t < |p.tasks| ensures t in TaskIds(p) {
      assert p.tasks[t] in p.tasks && p.tasks[t].id == t;
    }
  }

  lemma MarkRemainingFills(p: Pipeline, results: map<nat, TaskRunResult>, err: GoError, now: int)
    requires PositionalIds(p) && forall t :: t in results ==> t < |p.tasks|
    ensures var m := MarkRemaining(p, results, err, now);
      && (forall t :: t in m <==> 0 <= t < |p.tasks|)
      && (forall t :: t in results ==> m[t] == results[t])
      && (forall t :: t in m && t !in results ==> m[t] == Errored(t, err, now))
  {
    TaskIdsArePositions(p);
  }

  /** A report that makes the scheduler exit, or comes while it is exiting. */
  ghost predicate ExitReport(p: Pipeline, s: State, r: TaskRunResult) {
    && r.task < |p.tasks| && s.waiting > 0 && !r.isPending
    && (s.exiting || Fails(p, r))
    && (forall t :: t in s.results ==> t < |p.tasks|)
    && (s.exiting ==> AllHaveResults(p, LedgerOf(s)))
  }

  lemma ExitFrame(p: Pipeline, s: State, r: TaskRunResult, now: int)
    requires InRange(p) && r.task < |p.tasks| && s.waiting > 0 && !r.isPending && (s.exiting || Fails(p, r))
    ensures var s' := Receive(p, s, r, now);
      && s'.exiting && s'.pending == s.pending && s'.closed == s.closed && s'.returned == s.returned
      && s'.taskCh == s.taskCh && s'.goroutines == s.goroutines - multiset{Reporting(r)}
      && s'.waiting == s.waiting - 1
      && s'.results == if Fails(p, r) then MarkRemaining(p, s.results[r.task := Counted(s, r)], Cancelled, now)
         else s.results[r.task := Counted(s, r)]
  {
    hide MarkRemaining, SetVariable, InRange, NewMemoryTaskRun, Counted;
  }

  /** The results after such a report, in either of its two forms. */
  ghost predicate ExitResults(p: Pipeline, s: State, r: TaskRunResult, now: int, results: map<nat, TaskRunResult>) {
    && (forall t :: t in results <==> 0 <= t < |p.tasks|)
    && r.task in results && results[r.task] == Counted(s, r)
    && (forall t :: t in s.results && t != r.task ==> t in results && results[t] == s.results[t])
    && (forall t :: t in results && t !in s.results && t != r.task ==> results[t] == Errored(t, Cancelled, now))
  }

  lemma ExitFills(p: Pipeline, s: State, r: TaskRunResult, now: int)
    requires PositionalIds(p) && ExitReport(p, s, r)
    ensures Fails(p, r) ==>
      ExitResults(p, s, r, now, MarkRemaining(p, s.results[r.task := Counted(s, r)], Cancelled, now))
    ensures !Fails(p, r) ==> ExitResults(p, s, r, now, s.results[r.task := Counted(s, r)])
  {
    MarkRemainingFills(p, s.results[r.task := Counted(s, r)], Cancelled, now);
    hide MarkRemaining, Fails, Counted, PositionalIds;
  }

  /** The books of a scheduler that exits on this report, or was exiting before. */
  lemma ExitLedger(p: Pipeline, s: State, r: TaskRunResult, now: int)
    requires InRange(p) && PositionalIds(p) && ExitReport(p, s, r)
    ensures var s' := Receive(p, s, r, now);
      && s'.exiting && s'.pending == s.pending && s'.closed == s.closed && s'.returned == s.returned
      && s'.taskCh == s.taskCh && s'.goroutines == s.goroutines - multiset{Reporting(r)}
      && s'.waiting == s.waiting - 1
      && ExitResults(p, s, r, now, s'.results)
  {
    ExitFrame(p, s, r, now);
    ExitFills(p, s, r, now);
    hide *;
  }

  lemma ReadyToExit(p: Pipeline, s: State, r: TaskRunResult)
    requires ReportReady(p, s, r) && !r.isPending && (s.exiting || Fails(p, r))
    ensures ExitReport(p, s, r)
  {
    hide Conserved, OwnersReady, PendingExact, TokenAttempts, OwnersRetry, Owners, CountersExact;
  }

  lemma ExitBooks(p: Pipeline, s: State, r: TaskRunResult, now: int, s': State)
    requires Core(p, LedgerOf(s)) && r.task in Owners(s) && !r.isPending && r.task < |p.tasks|
    requires s'.exiting && s'.pending == s.pending && Owners(s') == Owners(s) - {r.task}
    requires ExitResults(p, s, r, now, s'.results)
    ensures Core(p, LedgerOf(s')) && Stable(LedgerOf(s), LedgerOf(s'))
  {
    hide Core, Owners, Stable;
    BookExit(p, LedgerOf(s), Counted(s, r), LedgerOf(s'));
  }

  lemma ExitReportKeeps(p: Pipeline, s: State, r: TaskRunResult, now: int)
    requires InRange(p) && PositionalIds(p) && ReportReady(p, s, r) && !r.isPending
    requires s.exiting || Fails(p, r)
    ensures Receive(p, s, r, now).exiting
    ensures Inv(p, Receive(p, s, r, now)) && Stable(LedgerOf(s), LedgerOf(Receive(p, s, r, now)))
  {
    ReadyToExit(p, s, r);
    hide Conserved, Core, TokenAttempts, OwnersRetry, Owners, Receive, Stable, ExitResults, ExitReport, InRange,
      PositionalIds;
    var s' := Receive(p, s, r, now);
    ExitLedger(p, s, r, now);
    ReportTokens(p, s, r, s');
    ExitBooks(p, s, r, now, s');
  }

  /** The state in which a completed, retried or failed report leaves the scheduler while running. */
  ghost predicate Booked(p: Pipeline, s: State, r: TaskRunResult, s2: State)
    requires r.task < |p.tasks| && s.waiting > 0
  {
    s2 == StoreReport(s, r).(vars := SetVariable(p, s.vars, r.task, r.result))
  }

  lemma BookedTokens(p: Pipeline, s: State, r: TaskRunResult, s2: State)
    requires ReportReady(p, s, r) && !s.exiting && Booked(p, s, r, s2)
    ensures Conserved(p, s2) && Owners(s2) == Owners(s) - {r.task} && r.task in Owners(s)
    ensures TokenAttempts(p, s2) && OwnersRetry(p, LedgerOf(s2))
  {
    TakeReport(p, s, r);
    assert Owners(s2) == Owners(StoreReport(s, r));
    OtherTokensKeepAttempts(p, s, r, s2);
    StoredOwnersRetry(p, s, r, s2);
  }

  lemma RetryTokens(p: Pipeline, s2: State, t: nat, attempts: nat)
    requires t < |p.tasks| && Conserved(p, s2) && t !in Owners(s2)
    ensures var s' := ScheduleRetry(s2, t, attempts);
      Conserved(p, s') && Owners(s') == Owners(s2) + {t}
  {
    var s', g := ScheduleRetry(s2, t, attempts), Sleeping(t, attempts, s2.vars);
    assert g.Owner() == t;
    SpawnAddsOwner(s2, s', g);
  }

  lemma RetryAttempts(p: Pipeline, s2: State, t: nat, attempts: nat)
    requires TokenAttempts(p, s2) && TokenAttempt(p, s2, t, attempts)
    ensures TokenAttempts(p, ScheduleRetry(s2, t, attempts))
  {
    var s', g := ScheduleRetry(s2, t, attempts), Sleeping(t, attempts, s2.vars);
    assert forall h :: h in s'.goroutines ==> h in s2.goroutines || h == g;
  }

  /** What a report that will be retried leaves behind. */
  lemma RetryLedger(p: Pipeline, s: State, r: TaskRunResult, now: int)
    requires InRange(p) && r.task < |p.tasks| && s.waiting > 0 && !r.isPending && !s.exiting && !Fails(p, r)
    requires MustRetry(p, Counted(s, r).attempts, r)
    ensures var s2 := StoreVariable(p, StoreReport(s, r), r, now);
      && Booked(p, s, r, s2)
      && Receive(p, s, r, now) == ScheduleRetry(s2, r.task, Counted(s, r).attempts)
      && Retrying(p, s2.results[r.task], r.task)
      && TokenAttempt(p, s2, r.task, Counted(s, r).attempts)
  {
  }

  lemma RetryOwners(p: Pipeline, s2: State, s': State, t: nat)
    requires OwnersRetry(p, LedgerOf(s2)) && t in s2.results && Retrying(p, s2.results[t], t)
    requires s'.results == s2.results && s'.exiting == s2.exiting && Owners(s') == Owners(s2) + {t}
    ensures OwnersRetry(p, LedgerOf(s'))
  {
    hide Owners;
  }

  lemma RetryReportKeeps(p: Pipeline, s: State, r: TaskRunResult, now: int)
    requires InRange(p) && ReportReady(p, s, r) && !r.isPending && !s.exiting && !Fails(p, r)
    requires MustRetry(p, Counted(s, r).attempts, r)
    ensures Inv(p, Receive(p, s, r, now)) && Stable(LedgerOf(s), LedgerOf(Receive(p, s, r, now)))
  {
    hide Owners, InRange, Core, OwnersRetry, TokenAttempts, TokenAttempt, Retrying, Unique, SetVariable, Stable;
    var s2, s' := StoreVariable(p, StoreReport(s, r), r, now), Receive(p, s, r, now);
    RetryLedger(p, s, r, now);
    BookedTokens(p, s, r, s2);
    RetryTokens(p, s2, r.task, Counted(s, r).attempts);
    RetryAttempts(p, s2, r.task, Counted(s, r).attempts);
    RetryOwners(p, s2, s', r.task);
    assert Owners(s') == Owners(s);
    BookRetry(p, LedgerOf(s), Counted(s, r), LedgerOf(s'));
  }

  lemma {:induction false} NewRunsAre(p: Pipeline, s: State, ts: seq<nat>)
    requires InRange(p) && forall i :: 0 <= i < |ts| ==> ts[i] < |p.tasks|
    ensures |NewRuns(p, s, ts)| == |ts|
    ensures forall i :: 0 <= i < |ts| ==> NewRuns(p, s, ts)[i] == NewMemoryTaskRun(p, s.results, s.vars, ts[i], 0)
  {
    if ts != [] {
      NewRunsAre(p, s, ts[..|ts| - 1]);
    }
  }

  lemma NewRunsShape(p: Pipeline, s: State, ts: seq<nat>)
    requires InRange(p) && forall i :: 0 <= i < |ts| ==> ts[i] < |p.tasks|
    ensures |NewRuns(p, s, ts)| == |ts|
    ensures forall i :: 0 <= i < |ts| ==> NewRuns(p, s, ts)[i].task == ts[i] && NewRuns(p, s, ts)[i].attempts == 0
  {
    NewRunsAre(p, s, ts);
  }

  lemma ReleaseAttempts(p: Pipeline, s2: State, outs: seq<nat>)
    requires InRange(p) && Distinct(outs) && forall i :: 0 <= i < |outs| ==> outs[i] < |p.tasks|
    requires TokenAttempts(p, s2)
    requires forall o :: o in outs ==> o !in s2.results
    ensures TokenAttempts(p, Release(p, s2, outs))
  {
    hide NewMemoryTaskRun, InRange, NewRuns, Decremented, Distinct;
    var freed := Freed(s2.dependencies, outs);
    ReleaseQueues(p, s2, outs);
    FreedAreOutputs(s2.dependencies, outs);
    NewRunsShape(p, s2, freed);
    forall i | 0 <= i < |freed| ensures TokenAttempt(p, s2, freed[i], 0) {
      assert freed[i] in freed;
    }
  }

  lemma ReleaseRetries(p: Pipeline, s2: State, outs: seq<nat>)
    requires InRange(p) && Distinct(outs) && forall i :: 0 <= i < |outs| ==> outs[i] < |p.tasks|
    requires Conserved(p, s2) && OwnersRetry(p, LedgerOf(s2))
    requires forall o :: o in outs ==> o !in Owners(s2) && o !in s2.results
    ensures OwnersRetry(p, LedgerOf(Release(p, s2, outs)))
  {
    ReleaseAddsOwners(p, s2, outs);
    ReleaseQueues(p, s2, outs);
  }

  lemma CompleteReportKeeps(p: Pipeline, s: State, r: TaskRunResult, now: int)
    requires WellFormed(p) && ReportReady(p, s, r) && !r.isPending && !s.exiting && !Fails(p, r)
    requires !MustRetry(p, Counted(s, r).attempts, r)
    ensures Inv(p, Receive(p, s, r, now)) && Stable(LedgerOf(s), LedgerOf(Receive(p, s, r, now)))
    ensures Completes(p, LedgerOf(s), Counted(s, r), LedgerOf(Receive(p, s, r, now)))
    ensures forall o :: o in p.tasks[r.task].outputs ==> o !in Owners(s) && o !in s.results
  {
    hide Owners, InRange, OwnersRetry, TokenAttempts, Unique, SetVariable, Stable, NewMemoryTaskRun,
      SortedLinks, InverseLinks, CountersExact, ResultsClosed, ReadyStarted, OwnersReady, PendingExact;
    var s2, s' := StoreVariable(p, StoreReport(s, r), r, now), Receive(p, s, r, now);
    var outs := p.tasks[r.task].outputs;
    BookedTokens(p, s, r, s2);
    AllOutputsAreFresh(p, LedgerOf(s), r.task);
    OutputsDistinct(p, r.task);
    ReleaseAddsOwners(p, s2, outs);
    ReleaseAttempts(p, s2, outs);
    ReleaseRetries(p, s2, outs);
    ReleaseQueues(p, s2, outs);
    BookComplete(p, LedgerOf(s), Counted(s, r), LedgerOf(s'));
  }

  /** A step outside the scheduler loop leaves the books alone. */
  lemma MoveKeeps(p: Pipeline, s: State, s': State)
    requires Inv(p, s) && MovesToken(p, s, s')
    ensures Inv(p, s') && LedgerOf(s') == LedgerOf(s)
  {
    hide Conserved, Core, TokenAttempts, OwnersRetry, Owners;
  }

  lemma EndStep(p: Pipeline, s: State, s': State)
    requires Inv(p, s) && s.waiting == 0 && s' == s.(closed := true, returned := s'.returned)
    ensures Inv(p, s') && LedgerOf(s') == LedgerOf(s)
  {
    assert Owners(s') == Owners(s);
    hide Core, OwnersRetry, TokenAttempt, Unique, Owners;
  }

  lemma DispatchStep(p: Pipeline, s: State, e: Event)
    requires InRange(p) && Inv(p, s) && Enabled(p, s, e) && e.Dispatch?
    ensures Inv(p, Apply(p, s, e)) && LedgerOf(Apply(p, s, e)) == LedgerOf(s)
  {
    hide Conserved, Core, TokenAttempts, OwnersRetry, Owners, MovesToken, InRange, Apply, Enabled, LedgerOf;
    DispatchMoves(p, s, e);
    MoveKeeps(p, s, Apply(p, s, e));
  }

  lemma FireStep(p: Pipeline, s: State, e: Event)
    requires InRange(p) && Inv(p, s) && Enabled(p, s, e) && e.Fire?
    ensures Inv(p, Apply(p, s, e)) && LedgerOf(Apply(p, s, e)) == LedgerOf(s)
  {
    hide Conserved, Core, TokenAttempts, OwnersRetry, Owners, MovesToken, InRange, Apply, Enabled, LedgerOf;
    FireMoves(p, s, e);
    MoveKeeps(p, s, Apply(p, s, e));
  }

  /** A goroutine that has something to report. */
  lemma ReportingStep(p: Pipeline, s: State, g: Goroutine, h: Goroutine)
    requires Inv(p, s) && g in s.goroutines && g.Owner() == h.Owner() && h.Reporting?
    ensures Inv(p, Become(s, g, h)) && LedgerOf(Become(s, g, h)) == LedgerOf(s)
  {
    hide Conserved, Core, TokenAttempts, OwnersRetry, Owners, MovesToken, Become, LedgerOf;
    BecomeMoves(p, s, g, h);
    MoveKeeps(p, s, Become(s, g, h));
  }

  lemma FinishStep(p: Pipeline, s: State, e: Event)
    requires InRange(p) && Inv(p, s) && Enabled(p, s, e) && (e.Finish? || e.Panic? || e.Cancel?)
    ensures Inv(p, Apply(p, s, e)) && LedgerOf(Apply(p, s, e)) == LedgerOf(s)
  {
    hide Inv, InRange, LedgerOf, Become, Receive, NewMemoryTaskRun;
    match e
    case Finish(run, result, isPending, now) =>
      ReportingStep(p, s, Executing(run), Reporting(Executed(run, result, isPending, now)));
    case Panic(run, detail, now) =>
      ReportingStep(p, s, Executing(run), Reporting(Errored(run.task, Panicked(detail), now)));
    case Cancel(g, now) =>
      ReportingStep(p, s, g, Reporting(Errored(g.task, Cancelled, now)));
  }

  lemma CloseStep(p: Pipeline, s: State, e: Event)
    requires InRange(p) && Inv(p, s) && Enabled(p, s, e) && (e.Close? || e.Return?)
    ensures Inv(p, Apply(p, s, e)) && LedgerOf(Apply(p, s, e)) == LedgerOf(s)
  {
    assert ClosesLast(s);
    hide Inv, InRange, LedgerOf, Become, Receive, NewMemoryTaskRun;
    EndStep(p, s, Apply(p, s, e));
  }

  lemma NothingToDrop(p: Pipeline, s: State, e: Event)
    requires InRange(p) && Inv(p, s) && Enabled(p, s, e)
    ensures !e.Drop?
  {
    if s.closed {
      NothingAfterClose(p, s);
    }
    assert ClosesLast(s);
    hide Inv, InRange;
  }

  lemma MoveStep(p: Pipeline, s: State, e: Event)
    requires InRange(p) && Inv(p, s) && Enabled(p, s, e) && !e.Deliver?
    ensures Inv(p, Apply(p, s, e)) && LedgerOf(Apply(p, s, e)) == LedgerOf(s)
  {
    hide Inv, InRange, LedgerOf, Apply, Enabled;
    NothingToDrop(p, s, e);
    match e
    case Dispatch(_) => DispatchStep(p, s, e);
    case Fire(_) => FireStep(p, s, e);
    case Close => CloseStep(p, s, e);
    case Return => CloseStep(p, s, e);
    case _ => FinishStep(p, s, e);
  }

  lemma DeliverStep(p: Pipeline, s: State, r: TaskRunResult, now: int)
    requires WellFormed(p) && ReportReady(p, s, r)
    ensures Inv(p, Receive(p, s, r, now)) && Stable(LedgerOf(s), LedgerOf(Receive(p, s, r, now)))
  {
    if r.isPending {
      PendingReportKeeps(p, s, r, now);
    } else if s.exiting || Fails(p, r) {
      ExitReportKeeps(p, s, r, now);
    } else if MustRetry(p, Counted(s, r).attempts, r) {
      RetryReportKeeps(p, s, r, now);
    } else {
      CompleteReportKeeps(p, s, r, now);
    }
  }

  /** One step keeps the invariant, and never touches a settled result. */
  lemma StepKeeps(p: Pipeline, s: State, e: Event)
    requires WellFormed(p) && Inv(p, s) && Enabled(p, s, e)
    ensures Inv(p, Apply(p, s, e))
    ensures Stable(LedgerOf(s), LedgerOf(Apply(p, s, e)))
  {
    if e.Deliver? {
      DeliverStep(p, s, e.report, e.now);
    } else {
      MoveStep(p, s, e);
    }
  }

  /** Every reachable state satisfies the invariant. */
  lemma {:induction false} RunKeeps(p: Pipeline, s0: State, tr: Trace)
    requires WellFormed(p) && Inv(p, s0) && IsRun(p, s0, tr)
    ensures Inv(p, After(p, s0, tr))
    ensures Stable(LedgerOf(s0), LedgerOf(After(p, s0, tr)))
  {
    if tr.Then? {
      RunKeeps(p, s0, tr.prev);
      StepKeeps(p, After(p, s0, tr.prev), tr.event);
    }
  }

  /** Later states are reachable from earlier ones, and settled results survive. */
  lemma {:induction false} ContinuingIsStable(p: Pipeline, s0: State, tr: Trace, later: Trace)
    requires WellFormed(p) && Inv(p, s0) && IsRun(p, s0, later) && Continues(tr, later)
    ensures IsRun(p, s0, tr)
    ensures Stable(LedgerOf(After(p, s0, tr)), LedgerOf(After(p, s0, later)))
    decreases later
  {
    if tr != later {
      ContinuingIsStable(p, s0, tr, later.prev);
      RunKeeps(p, s0, later.prev);
      StepKeeps(p, After(p, s0, later.prev), later.event);
      StableIsTransitive(LedgerOf(After(p, s0, tr)), LedgerOf(After(p, s0, later.prev)), LedgerOf(After(p, s0, later)));
    }
  }
}
