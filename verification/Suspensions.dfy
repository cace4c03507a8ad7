/** Which suspended runs can be resumed: those whose saved set is closed under predecessors. Without
    fail-early that is every run; with it, the runs whose pending tasks have no outputs. */
module Suspensions {
  import opened Values
  import opened Ordering
  import opened Variables
  import opened Pipelines
  import opened Runs
  import opened Scheduling
  import opened Tokens
  import opened Releases
  import opened Ledgers
  import opened Invariants
  import opened Startup
  import opened Completeness
  import opened FailEarly
  import opened Evaluation
  import opened Resume
  import opened Reruns

  // ----- pending tasks were ready -----

  /** Every pending task has all its inputs finally completed. */
  ghost predicate PendingReady(p: Pipeline, b: Ledger) {
    forall t: nat :: PendingTask(b, t) ==> t < |p.tasks| && InputSet(p, t) <= Done(b)
  }

  lemma PendingAfterOne(b: Ledger, b': Ledger, r: TaskRunResult, t: nat)
    requires b'.results == b.results[r.task := r] && PendingTask(b', t)
    ensures PendingTask(b, t) || t == r.task
  {
  }

  lemma PendingAfterExit(p: Pipeline, s: State, r: TaskRunResult, now: int, results: map<nat, TaskRunResult>, t: nat)
    requires ExitResults(p, s, r, now, results) && t in results && results[t].isPending
    ensures (t in s.results && s.results[t].isPending) || t == r.task
  {
  }

  /** A report makes at most its own task pending. */
  lemma PendingComesFromReport(p: Pipeline, s: State, r: TaskRunResult, now: int, t: nat)
    requires WellFormed(p) && ReportReady(p, s, r)
    requires PendingTask(LedgerOf(Receive(p, s, r, now)), t)
    ensures PendingTask(LedgerOf(s), t) || t == r.task
  {
    assert r.task < |p.tasks| && s.waiting > 0;
    hide ReportReady, Receive, Owners, Fails, Counted, SortedLinks, InverseLinks, PositionalIds, InRange, ExitResults;
    var b, b' := LedgerOf(s), LedgerOf(Receive(p, s, r, now));
    CountedTask(s, r);
    if r.isPending {
      PendingOwners(p, s, r, now);
      PendingAfterOne(b, b', Counted(s, r), t);
    } else if s.exiting || Fails(p, r) {
      ReadyToExit(p, s, r);
      ExitLedger(p, s, r, now);
      PendingAfterExit(p, s, r, now, b'.results, t);
    } else {
      RunningOwners(p, s, r, now);
      PendingAfterOne(b, b', Counted(s, r), t);
    }
  }

  lemma CountedTask(s: State, r: TaskRunResult)
    ensures Counted(s, r).task == r.task
  {
  }

  lemma ReporterIsReady(p: Pipeline, s: State, r: TaskRunResult)
    requires ReportReady(p, s, r)
    ensures InputSet(p, r.task) <= Done(LedgerOf(s))
  {
    TakeReport(p, s, r);
    hide Conserved, TokenAttempts, OwnersRetry, Owners, Done, InputSet;
    assert r.task in LedgerOf(s).owners;
  }

  lemma PendingReadyAfterOne(p: Pipeline, b: Ledger, b': Ledger, x: nat)
    requires PendingReady(p, b) && Done(b) <= Done(b') && x < |p.tasks| && InputSet(p, x) <= Done(b)
    requires forall t: nat :: PendingTask(b', t) ==> PendingTask(b, t) || t == x
    ensures PendingReady(p, b')
  {
    hide Done, InputSet, PendingTask;
  }

  lemma PendingReadyReport(p: Pipeline, s: State, r: TaskRunResult, now: int)
    requires WellFormed(p) && ReportReady(p, s, r) && PendingReady(p, LedgerOf(s))
    requires r.task < |p.tasks| && s.waiting > 0
    ensures PendingReady(p, LedgerOf(Receive(p, s, r, now)))
  {
    hide ReportReady, Receive, LedgerOf, InputSet, PendingTask, Done, Stable, SortedLinks, InverseLinks, PositionalIds,
      InRange, PendingReady;
    var b, b' := LedgerOf(s), LedgerOf(Receive(p, s, r, now));
    DeliverStep(p, s, r, now);
    StableKeepsDone(b, b');
    ReporterIsReady(p, s, r);
    forall t: nat ensures PendingTask(b', t) ==> PendingTask(b, t) || t == r.task {
      if PendingTask(b', t) {
        PendingComesFromReport(p, s, r, now, t);
      }
    }
    PendingReadyAfterOne(p, b, b', r.task);
  }

  lemma PendingReadyStep(p: Pipeline, s: State, e: Event)
    requires WellFormed(p) && Inv(p, s) && Enabled(p, s, e) && PendingReady(p, LedgerOf(s))
    ensures PendingReady(p, LedgerOf(Apply(p, s, e)))
  {
    assert ClosesLast(s);
    hide Inv, PendingReady, LedgerOf, Receive, SortedLinks, InverseLinks, PositionalIds, InRange;
    if e.Deliver? {
      PendingReadyReport(p, s, e.report, e.now);
    } else {
      MoveStep(p, s, e);
    }
  }

  lemma {:induction false} PendingReadyRun(p: Pipeline, s0: State, tr: Trace)
    requires WellFormed(p) && Inv(p, s0) && Fresh(s0) && IsRun(p, s0, tr)
    ensures PendingReady(p, LedgerOf(After(p, s0, tr)))
  {
    hide Inv, Fresh, PendingReady, Apply, Enabled, SortedLinks, InverseLinks, PositionalIds, InRange;
    if tr.Start? {
      NothingPendingYet(p, s0);
    } else {
      PendingReadyRun(p, s0, tr.prev);
      RunKeeps(p, s0, tr.prev);
      PendingReadyStep(p, After(p, s0, tr.prev), tr.event);
    }
  }

  lemma NothingPendingYet(p: Pipeline, s0: State)
    requires Fresh(s0)
    ensures PendingReady(p, LedgerOf(s0))
  {
    hide Owners;
  }

  // ----- closed saved sets -----

  /** No pending task has an output. */
  ghost predicate PendingAreTerminal(p: Pipeline, s: State) {
    forall u: nat :: u < |p.tasks| && PendingTask(LedgerOf(s), u) ==> p.tasks[u].outputs == []
  }

  /** What a closed run has saved: of every input of a finished task, too, unless it is pending. */
  lemma ExitingAllHaveResults(p: Pipeline, s: State, t: nat)
    requires Inv(p, s) && s.exiting && t < |p.tasks|
    ensures t in s.results
  {
    assert AllHaveResults(p, LedgerOf(s));
  }

  lemma PendingInputIsOutput(p: Pipeline, u: nat, v: nat)
    requires WellFormed(p) && v < |p.tasks|
    ensures u in InputSet(p, v) ==> u < |p.tasks| && p.tasks[u].outputs != []
    ensures u < |p.tasks| && p.tasks[u].outputs != [] ==> u in InputSet(p, p.tasks[u].outputs[0])
  {
    if u in InputSet(p, v) {
      assert v in p.tasks[u].outputs;
    }
    if u < |p.tasks| && p.tasks[u].outputs != [] {
      assert p.tasks[u].outputs[0] in p.tasks[u].outputs;
    }
  }

  /** An exiting run saves a closed set exactly if its pending tasks are terminal. */
  lemma ExitingClosedExactly(p: Pipeline, s: State, order: seq<nat>)
    requires WellFormed(p) && PlainDotIDs(p) && Inv(p, s) && s.exiting && AllFaithful(s)
    requires Enumerates(p, s.results, order) && PendingReady(p, LedgerOf(s))
    ensures ClosedRuns(p, SavedRuns(p, s.results, order)) <==> PendingAreTerminal(p, s)
  {
    if PendingAreTerminal(p, s) {
      TerminalMeansClosed(p, s, order);
    } else {
      var u: nat :| u < |p.tasks| && PendingTask(LedgerOf(s), u) && p.tasks[u].outputs != [];
      PendingOutputMeansOpen(p, s, order, u, p.tasks[u].outputs[0]);
    }
  }

  lemma TerminalMeansClosed(p: Pipeline, s: State, order: seq<nat>)
    requires WellFormed(p) && PlainDotIDs(p) && Inv(p, s) && s.exiting && AllFaithful(s)
    requires Enumerates(p, s.results, order) && PendingAreTerminal(p, s)
    ensures ClosedRuns(p, SavedRuns(p, s.results, order))
  {
    hide Inv, PlainDotIDs, AllFaithful, Finished, SavedRuns, InputSet, SortedLinks, InverseLinks, PositionalIds,
      InRange, Owners;
    var runs := SavedRuns(p, s.results, order);
    forall t: nat, u: nat | t < |p.tasks| && Finished(p, runs, t) && u in InputSet(p, t) ensures Finished(p, runs, u) {
      PendingInputIsOutput(p, u, t);
      ExitingAllHaveResults(p, s, u);
      SavedAndFinished(p, s, order, u);
    }
  }

  /** A pending task with an output `v` is an input of a task that is saved as finished. */
  lemma PendingOutputMeansOpen(p: Pipeline, s: State, order: seq<nat>, u: nat, v: nat)
    requires WellFormed(p) && PlainDotIDs(p) && Inv(p, s) && s.exiting && AllFaithful(s)
    requires Enumerates(p, s.results, order) && PendingReady(p, LedgerOf(s))
    requires u < |p.tasks| && PendingTask(LedgerOf(s), u) && p.tasks[u].outputs != [] && v == p.tasks[u].outputs[0]
    ensures v < |p.tasks| && u in InputSet(p, v) && !ClosedRuns(p, SavedRuns(p, s.results, order))
  {
    assert v < |p.tasks|;
    hide Inv, PlainDotIDs, AllFaithful, Finished, SavedRuns, InputSet, SortedLinks, InverseLinks, PositionalIds,
      InRange, Owners;
    PendingInputIsOutput(p, u, v);
    ExitingAllHaveResults(p, s, v);
    assert u !in Done(LedgerOf(s));
    assert !PendingTask(LedgerOf(s), v);
    SavedAndFinished(p, s, order, u);
    SavedAndFinished(p, s, order, v);
  }

  /** A run from a scheduler that started well saves a closed set exactly if it is not exiting or its
      pending tasks are terminal; and exactly then no run resumed from what it saved, in any order,
      executes a task again that was saved as finished. */
  lemma ResumableExactly(p: Pipeline, before: VarMap, s0: State, tr: Trace, order: seq<nat>, vars: VarMap)
    requires WellFormed(p) && PlainDotIDs(p) && StartsFrom(p, before, s0)
    requires IsRun(p, s0, tr) && AllBarePending(tr) && After(p, s0, tr).closed
    requires Enumerates(p, After(p, s0, tr).results, order)
    ensures var s, saved := After(p, s0, tr), SavedRuns(p, After(p, s0, tr).results, order);
      && NewScheduler(p, saved, vars).Some?
      && (ClosedRuns(p, saved) <==> !s.exiting || PendingAreTerminal(p, s))
      && (RerunsSome(p, NewScheduler(p, saved, vars).value) <==> s.exiting && !PendingAreTerminal(p, s))
  {
    hide Inv, Fresh, AllFaithful, VarsBooked, PlainDotIDs, AllBarePending, NewScheduler, PendingAreTerminal, RerunsSome,
      ClosedRuns, SortedLinks, InverseLinks, PositionalIds, InRange, Known, DistinctRuns, PendingReady;
    var s := After(p, s0, tr);
    RunKeeps(p, s0, tr);
    FaithfulRun(p, s0, tr);
    PendingReadyRun(p, s0, tr);
    SavedRunsAreKnown(p, s.results, order);
    StartsWell(p, SavedRuns(p, s.results, order), vars);
    if s.exiting {
      ExitingClosedExactly(p, s, order);
    } else {
      SuspensionIsClosed(p, s, order);
    }
    ClosedExactlyIfNoRerun(p, SavedRuns(p, s.results, order), vars,
      NewScheduler(p, SavedRuns(p, s.results, order), vars).value);
  }

  // ----- resuming an exiting run -----

  lemma ExitingQueueAt(p: Pipeline, s: State, r: State, t: nat)
    requires Inv(p, s) && s.exiting && PendingReady(p, LedgerOf(s)) && t < |p.tasks|
    requires Counts(p, r.dependencies, r.results.Keys)
    requires forall u :: u in r.results <==> u in s.results && !s.results[u].isPending
    ensures Startable(r, t) <==> PendingTask(LedgerOf(s), t)
  {
    ExitingAllHaveResults(p, s, t);
    hide Inv, OpenInputs, InputSet;
    NothingOpen(p, t, r.results.Keys);
  }

  /** Resuming an exiting run restores exactly its finished results, cancelled ones included, and
      queues exactly its pending tasks, as without fail-early. */
  lemma ExitingResumes(p: Pipeline, s: State, order: seq<nat>, vars: VarMap) returns (s': State)
    requires WellFormed(p) && PlainDotIDs(p) && Inv(p, s) && s.exiting && AllFaithful(s)
    requires Enumerates(p, s.results, order) && PendingReady(p, LedgerOf(s))
    ensures NewScheduler(p, SavedRuns(p, s.results, order), vars) == Some(s')
    ensures forall t :: t in s'.results <==> t in s.results && !s.results[t].isPending
    ensures forall t :: t in s'.results ==>
      s'.results[t] == TaskRunResult(t, Roundtrip(s.results[t].result), 0, s.results[t].finishedAt, false)
    ensures forall t :: t in Owners(s') <==> PendingTask(LedgerOf(s), t)
  {
    hide Owners, PlainDotIDs, Inv, NewScheduler, RestoredRuns, OthersKept, RestoredResults, Counts, Fresh, Roundtrip,
      AllFaithful, Startable, PendingReady, VarsBooked, SortedLinks, InverseLinks, PositionalIds, InRange, Conserved,
      Restore, Known, DistinctRuns, FirstQueue;
    var runs := SavedRuns(p, s.results, order);
    SavedRunsAreKnown(p, s.results, order);
    RestoreRestores(p, runs, vars);
    var r;
    r, s' := NewSchedulerParts(p, runs, vars);
    var r' := NewSchedulerBooks(p, runs, vars, s');
    ResumedResultsAre(p, s, order, vars, r);
    forall t: nat ensures t in Owners(s') <==> PendingTask(LedgerOf(s), t) {
      if t < |p.tasks| {
        ExitingQueueAt(p, s, r, t);
      } else {
        PendingIsTask(p, s, t);
      }
    }
  }

  lemma PendingIsTask(p: Pipeline, s: State, t: nat)
    requires Inv(p, s)
    ensures PendingTask(LedgerOf(s), t) ==> t < |p.tasks|
  {
  }

  // ----- a witness -----

  /** a -> b, beside a fail-early task c. */
  const A_THEN_B_AND_C := Pipeline([
    Task(0, "a", 0, false, 0, [], [1]),
    Task(1, "b", 0, false, 0, [TaskDependency(true, 0)], []),
    Task(2, "c", 1, true, 0, [], [])])

  const FAILURE := Result(NIL_VALUE, Some(TaskError("c failed")))

  lemma WitnessIsInRange()
    ensures PositionalIds(A_THEN_B_AND_C) && InRange(A_THEN_B_AND_C)
  {
  }

  lemma WitnessIsSorted()
    ensures SortedLinks(A_THEN_B_AND_C)
  {
  }

  lemma WitnessInputs()
    ensures InputSet(A_THEN_B_AND_C, 0) == {} && InputSet(A_THEN_B_AND_C, 1) == {0} && InputSet(A_THEN_B_AND_C, 2) == {}
  {
    assert A_THEN_B_AND_C.tasks[1].inputs == [TaskDependency(true, 0)];
  }

  lemma WitnessIsWellFormed()
    ensures WellFormed(A_THEN_B_AND_C)
  {
    hide InputSet, PositionalIds, InRange, SortedLinks;
    WitnessIsInRange();
    WitnessIsSorted();
    WitnessInputs();
  }

  lemma OneLetterName(p: Pipeline, t: nat)
    requires t < |p.tasks| && |p.tasks[t].dotID| == 1 && 'a' <= p.tasks[t].dotID[0] <= 'c'
    ensures VarName(p.tasks[t].dotID) == Ok(p.tasks[t].dotID) && Name(p, t) == p.tasks[t].dotID
  {
  }

  lemma WitnessNames()
    ensures PlainDotIDs(A_THEN_B_AND_C)
  {
    var p := A_THEN_B_AND_C;
    OneLetterName(p, 0);
    OneLetterName(p, 1);
    OneLetterName(p, 2);
    hide VarName, Name, Keypaths.Trim;
    assert p.tasks[0].dotID == "a" && p.tasks[1].dotID == "b" && p.tasks[2].dotID == "c";
    assert "a"[0] != "b"[0] && "b"[0] != "c"[0] && "a"[0] != "c"[0];
  }

  /** The first queue of the witness: a and c. */
  lemma WitnessQueue(vars: VarMap) returns (s0: State, a: MemoryTaskRun, c: MemoryTaskRun)
    ensures WellFormed(A_THEN_B_AND_C) && NewScheduler(A_THEN_B_AND_C, [], vars) == Some(s0)
    ensures s0.taskCh == [a, c] && a.task == 0 && c.task == 2 && s0.waiting == 2 && s0.goroutines == multiset{}
    ensures !s0.pending && !s0.exiting && !s0.closed && s0.results == map[]
  {
    var p := A_THEN_B_AND_C;
    WitnessIsWellFormed();
    var s;
    s, s0 := NewSchedulerParts(p, [], vars);
    WitnessDoable(vars);
    assert s == EmptyState(p, vars);
    hide NewScheduler, Owners, Conserved, Doable, WellFormed, EmptyState, Startable, Restored0, Restore;
    FirstRuns(p, s, s0);
    a, c := s0.taskCh[0], s0.taskCh[1];
  }

  lemma WitnessDoable(vars: VarMap)
    ensures Doable(EmptyState(A_THEN_B_AND_C, vars), 3) == [0, 2] && |A_THEN_B_AND_C.tasks| == 3
  {
    var p, s := A_THEN_B_AND_C, EmptyState(A_THEN_B_AND_C, vars);
    assert InitialCounters(p, 1) == map[0 := 0];
    assert InitialCounters(p, 2) == map[0 := 0, 1 := 1];
    assert InitialCounters(p, 3) == map[0 := 0, 1 := 1, 2 := 0];
    assert Doable(s, 1) == [0];
    assert Doable(s, 2) == [0];
  }

  /** A goroutine reports and is received: two events. */
  lemma ReportReceived(p: Pipeline, s0: State, tr: Trace, s: State, run: MemoryTaskRun, result: Result, isPending: bool)
      returns (later: Trace, s1: State, r: TaskRunResult)
    requires InRange(p) && Reaches(p, s0, tr, s) && Executing(run) in s.goroutines && run.task < |p.tasks|
    requires s.waiting > 0 && !s.closed && AllBarePending(tr)
    requires isPending ==> result == NO_RESULT
    ensures r == Executed(run, result, isPending, 0) && s1 == Become(s, Executing(run), Reporting(r))
    ensures s1.waiting > 0 && r.task < |p.tasks| && Reaches(p, s0, later, Receive(p, s1, r, 0)) && AllBarePending(later)
  {
    hide Reaches, Receive, InRange;
    r := Executed(run, result, isPending, 0);
    s1 := Become(s, Executing(run), Reporting(r));
    var finish, deliver := Finish(run, result, isPending, 0), Deliver(r, 0);
    ReachesNext(p, s0, tr, s, finish);
    ReachesNext(p, s0, Then(tr, finish), s1, deliver);
    later := Then(Then(tr, finish), deliver);
  }

  /** A task stays pending. */
  lemma StaysPending(p: Pipeline, s0: State, tr: Trace, s: State, run: MemoryTaskRun) returns (later: Trace, s': State)
    requires InRange(p) && Reaches(p, s0, tr, s) && Executing(run) in s.goroutines && run.task < |p.tasks|
    requires s.waiting > 0 && !s.closed && AllBarePending(tr)
    ensures Reaches(p, s0, later, s') && AllBarePending(later)
    ensures s'.goroutines == s.goroutines - multiset{Executing(run)} && s'.waiting == s.waiting - 1
    ensures s'.exiting == s.exiting && s'.closed == s.closed && s'.taskCh == s.taskCh
    ensures run.task in s'.results && s'.results.Keys == s.results.Keys + {run.task} && s'.results[run.task].isPending
  {
    hide Reaches, InRange, AllBarePending, StoreVariable;
    var s1, r;
    later, s1, r := ReportReceived(p, s0, tr, s, run, NO_RESULT, true);
    s' := Receive(p, s1, r, 0);
    assert s1.goroutines - multiset{Reporting(r)} == s.goroutines - multiset{Executing(run)};
  }

  /** A fail-early task errs. */
  lemma ErrsFailEarly(p: Pipeline, s0: State, tr: Trace, s: State, run: MemoryTaskRun) returns (later: Trace, s': State)
    requires WellFormed(p) && Reaches(p, s0, tr, s) && Executing(run) in s.goroutines && run.task < |p.tasks|
    requires s.waiting > 0 && !s.closed && !s.exiting && AllBarePending(tr) && p.tasks[run.task].failEarly
    requires forall t :: t in s.results ==> t < |p.tasks|
    ensures Reaches(p, s0, later, s') && AllBarePending(later)
    ensures s'.goroutines == s.goroutines - multiset{Executing(run)} && s'.waiting == s.waiting - 1
    ensures s'.exiting && s'.closed == s.closed && s'.taskCh == s.taskCh
    ensures forall t :: t in s'.results <==> 0 <= t < |p.tasks|
    ensures forall t :: t in s.results && t != run.task ==> s'.results[t] == s.results[t]
  {
    hide Reaches, InRange, PositionalIds, SortedLinks, InverseLinks, AllBarePending, Receive;
    var s1, r;
    later, s1, r := ReportReceived(p, s0, tr, s, run, FAILURE, false);
    s' := Receive(p, s1, r, 0);
    assert s1.goroutines - multiset{Reporting(r)} == s.goroutines - multiset{Executing(run)};
    ExitLedger(p, s1, r, 0);
  }

  /** The runner takes one run. */
  lemma TakesOne(p: Pipeline, s0: State, tr: Trace, s: State) returns (later: Trace, s': State)
    requires InRange(p) && Reaches(p, s0, tr, s) && AllBarePending(tr) && s.taskCh != []
    ensures Reaches(p, s0, later, s') && AllBarePending(later)
    ensures s' == s.(taskCh := s.taskCh[1..], goroutines := s.goroutines + multiset{Executing(s.taskCh[0])})
  {
    hide Reaches, InRange;
    var e := Dispatch(s.taskCh[0].task);
    ReachesNext(p, s0, tr, s, e);
    later, s' := Then(tr, e), Apply(p, s, e);
  }

  /** The runner takes both runs of the first queue. */
  lemma TakesBoth(p: Pipeline, s0: State, a: MemoryTaskRun, c: MemoryTaskRun) returns (tr: Trace, s: State)
    requires InRange(p) && s0.taskCh == [a, c] && s0.goroutines == multiset{}
    ensures Reaches(p, s0, tr, s) && AllBarePending(tr)
    ensures s == s0.(taskCh := [], goroutines := multiset{Executing(a), Executing(c)})
  {
    StartIsReached(p, s0);
    assert AllBarePending(Start);
    hide Reaches, InRange, AllBarePending;
    tr, s := TakesOne(p, s0, Start, s0);
    assert s.goroutines == multiset{Executing(a)};
    tr, s := TakesOne(p, s0, tr, s);
  }

  /** a stays pending, then c errs and b is cancelled: the run closes, exiting, with a pending task
      that has an output. */
  lemma PendingBesideFailure(vars: VarMap) returns (s0: State, tr: Trace)
    ensures WellFormed(A_THEN_B_AND_C) && NewScheduler(A_THEN_B_AND_C, [], vars) == Some(s0)
    ensures IsRun(A_THEN_B_AND_C, s0, tr) && AllBarePending(tr)
    ensures var s := After(A_THEN_B_AND_C, s0, tr);
      && s.closed && s.exiting && !PendingAreTerminal(A_THEN_B_AND_C, s)
      && forall t :: t in s.results <==> 0 <= t < 3
  {
    hide Reaches, NewScheduler, InRange, PositionalIds, SortedLinks, InverseLinks, AllBarePending;
    var p := A_THEN_B_AND_C;
    var a, c;
    s0, a, c := WitnessQueue(vars);
    var s;
    tr, s := TakesBoth(p, s0, a, c);
    tr, s := StaysPending(p, s0, tr, s, a);
    assert s.goroutines == multiset{Executing(c)};
    tr, s := ErrsFailEarly(p, s0, tr, s, c);
    ReachesNext(p, s0, tr, s, Close);
    WitnessEnd(p, s0, tr, s);
    tr := Then(tr, Close);
  }

  lemma WitnessEnd(p: Pipeline, s0: State, tr: Trace, s: State)
    requires InRange(p) && Enabled(p, s, Close) && AllBarePending(tr)
    requires Reaches(p, s0, Then(tr, Close), Apply(p, s, Close)) && |p.tasks| == 3 && p.tasks[0].outputs != []
    requires 0 in s.results && s.results[0].isPending
    ensures IsRun(p, s0, Then(tr, Close)) && AllBarePending(Then(tr, Close))
    ensures After(p, s0, Then(tr, Close)) == s.(closed := true) && !PendingAreTerminal(p, s.(closed := true))
  {
    hide InRange;
    assert PendingTask(LedgerOf(s.(closed := true)), 0);
  }

  /** Resumed from what that run saved, b runs again although it was saved as finished. */
  lemma ExitingRunCanRerun(vars: VarMap) returns (s0: State, tr: Trace, order: seq<nat>)
    ensures WellFormed(A_THEN_B_AND_C) && NewScheduler(A_THEN_B_AND_C, [], vars) == Some(s0)
    ensures IsRun(A_THEN_B_AND_C, s0, tr)
    ensures After(A_THEN_B_AND_C, s0, tr).closed && After(A_THEN_B_AND_C, s0, tr).exiting
    ensures Enumerates(A_THEN_B_AND_C, After(A_THEN_B_AND_C, s0, tr).results, order)
    ensures var saved := SavedRuns(A_THEN_B_AND_C, After(A_THEN_B_AND_C, s0, tr).results, order);
      && !ClosedRuns(A_THEN_B_AND_C, saved)
      && NewScheduler(A_THEN_B_AND_C, saved, vars).Some?
      && RerunsSome(A_THEN_B_AND_C, NewScheduler(A_THEN_B_AND_C, saved, vars).value)
  {
    hide NewScheduler, IsRun, After, PlainDotIDs, StartsFrom, AllBarePending, ClosedRuns, RerunsSome,
      PendingAreTerminal, PositionalIds, SortedLinks, InverseLinks, InRange, SavedRuns;
    s0, tr := PendingBesideFailure(vars);
    WitnessNames();
    FirstStart(A_THEN_B_AND_C, vars);
    order := [0, 1, 2];
    ResumableExactly(A_THEN_B_AND_C, vars, s0, tr, order, vars);
  }
}
