/** `newScheduler`: counters, reconstruction of a suspended run, and the first tasks. */
module Startup {
  import opened Values
  import opened Variables
  import opened Pipelines
  import opened Runs
  import opened Scheduling
  import opened Tokens
  import opened Releases
  import opened Ledgers
  import opened Invariants

  /** One counter per task: its number of inputs. */
  function InitialCounters(p: Pipeline, k: nat): map<nat, nat>
    requires k <= |p.tasks|
  {
    if k == 0 then map[] else InitialCounters(p, k - 1)[k - 1 := |p.tasks[k - 1].inputs|]
  }

  function EmptyState(p: Pipeline, vars: VarMap): State {
    State(InitialCounters(p, |p.tasks|), 0, map[], vars, false, false, [], false, multiset{}, false)
  }

  /** One saved task run; a run without its task panics. */
  function RestoreOne(p: Pipeline, s: State, tr: TaskRun): Option<State> {
    match FindDotID(p, tr.dotID)
    case None => None
    case Some(t) =>
      if IsPending(tr) then Some(s) else Some(RestoreFinished(p, s, t, tr))
  }

  function RestoreFinished(p: Pipeline, s: State, t: nat, tr: TaskRun): State
    requires t < |p.tasks|
  {
    s.(results := s.results[t := RestoredResult(t, tr)],
       vars := SetVariable(p, s.vars, t, SavedResult(tr)),
       dependencies := Decremented(s.dependencies, p.tasks[t].outputs))
  }

  function RestoredResult(t: nat, tr: TaskRun): TaskRunResult {
    TaskRunResult(t, SavedResult(tr), 0, tr.finishedAt, false)
  }

  /** `reconstructResults` for the saved runs, in order. */
  function Restore(p: Pipeline, s: State, runs: seq<TaskRun>): Option<State> {
    if runs == [] then Some(s)
    else
      match Restore(p, s, runs[..|runs| - 1])
      case None => None
      case Some(s1) => RestoreOne(p, s1, runs[|runs| - 1])
  }

  predicate Startable(s: State, t: nat) {
    t in s.dependencies && s.dependencies[t] == 0 && t !in s.results
  }

  /** Schedules the doable tasks among the first `k`. */
  function ScheduleFirst(p: Pipeline, s: State, k: nat): State
    requires InRange(p) && k <= |p.tasks|
  {
    if k == 0 then s
    else
      var s1 := ScheduleFirst(p, s, k - 1);
      if Startable(s1, k - 1) then Enqueue(s1, NewMemoryTaskRun(p, s1.results, s1.vars, k - 1, 0)) else s1
  }

  function NewScheduler(p: Pipeline, runs: seq<TaskRun>, vars: VarMap): Option<State>
    requires InRange(p)
  {
    match Restore(p, EmptyState(p, vars), runs)
    case None => None
    case Some(s) => Some(ScheduleFirst(p, s, |p.tasks|))
  }

  // ----- assumptions on saved runs -----

  ghost predicate Known(p: Pipeline, runs: seq<TaskRun>) {
    forall i :: 0 <= i < |runs| ==> FindDotID(p, runs[i].dotID).Some?
  }

  ghost predicate DistinctRuns(runs: seq<TaskRun>) {
    forall i, j :: 0 <= i < j < |runs| ==> runs[i].dotID != runs[j].dotID
  }

  /** Task `t` has a saved run that is not pending. */
  ghost predicate Finished(p: Pipeline, runs: seq<TaskRun>, t: nat) {
    exists i :: 0 <= i < |runs| && !IsPending(runs[i]) && FindDotID(p, runs[i].dotID) == Some(t)
  }

  /** The finished tasks include the inputs of every finished task. */
  ghost predicate ClosedRuns(p: Pipeline, runs: seq<TaskRun>) {
    forall t: nat, u: nat :: t < |p.tasks| && Finished(p, runs, t) && u in InputSet(p, t) ==> Finished(p, runs, u)
  }

  // ----- counters -----

  lemma {:induction false} InitialCountersAre(p: Pipeline, k: nat)
    requires SortedLinks(p) && k <= |p.tasks|
    ensures forall t :: t in InitialCounters(p, k) <==> 0 <= t < k
    ensures forall t :: 0 <= t < k ==> InitialCounters(p, k)[t] == OpenInputs(p, t, {})
  {
    if k > 0 {
      InitialCountersAre(p, k - 1);
      DistinctInputsCount(p.tasks[k - 1].inputs);
      assert InputSet(p, k - 1) - {} == InputSet(p, k - 1);
    }
  }

  ghost predicate RestoredResults(p: Pipeline, runs: seq<TaskRun>, results: map<nat, TaskRunResult>) {
    && (forall t: nat :: t in results <==> Finished(p, runs, t))
    && (forall t :: t in results ==> t < |p.tasks| && results[t].attempts == 0 && !results[t].isPending)
  }

  ghost predicate Restored0(p: Pipeline, runs: seq<TaskRun>, vars: VarMap, s: State) {
    && s == EmptyState(p, vars).(dependencies := s.dependencies, results := s.results, vars := s.vars)
    && Counts(p, s.dependencies, s.results.Keys)
    && RestoredResults(p, runs, s.results)
  }

  lemma FinishedAppend(p: Pipeline, init: seq<TaskRun>, tr: TaskRun, t: nat)
    ensures Finished(p, init + [tr], t) <==>
      Finished(p, init, t) || (!IsPending(tr) && FindDotID(p, tr.dotID) == Some(t))
  {
    var runs := init + [tr];
    assert runs[|init|] == tr;
    if Finished(p, init, t) {
      var i :| 0 <= i < |init| && !IsPending(init[i]) && FindDotID(p, init[i].dotID) == Some(t);
      assert runs[i] == init[i];
    }
  }

  lemma NotYetFinished(p: Pipeline, init: seq<TaskRun>, tr: TaskRun, t: nat)
    requires DistinctRuns(init + [tr]) && FindDotID(p, tr.dotID) == Some(t)
    ensures !Finished(p, init, t)
  {
    var runs := init + [tr];
    assert runs[|init|] == tr;
    forall i | 0 <= i < |init| ensures init[i].dotID != tr.dotID {
      assert runs[i] == init[i];
    }
  }

  lemma RestoredResultsAfterOne(p: Pipeline, init: seq<TaskRun>, tr: TaskRun, results: map<nat, TaskRunResult>)
    requires FindDotID(p, tr.dotID).Some? && RestoredResults(p, init, results)
    ensures var t := FindDotID(p, tr.dotID).value;
      RestoredResults(p, init + [tr],
        if IsPending(tr) then results
        else results[t := RestoredResult(t, tr)])
  {
    forall u: nat ensures Finished(p, init + [tr], u) <==>
      Finished(p, init, u) || (!IsPending(tr) && FindDotID(p, tr.dotID) == Some(u))
    {
      FinishedAppend(p, init, tr, u);
    }
  }

  lemma RestoreFinishedStep(p: Pipeline, init: seq<TaskRun>, tr: TaskRun, vars: VarMap, s: State, t: nat)
    requires InRange(p) && SortedLinks(p) && InverseLinks(p) && t < |p.tasks| && t !in s.results
    requires !IsPending(tr) && FindDotID(p, tr.dotID) == Some(t)
    requires Restored0(p, init, vars, s)
    ensures Restored0(p, init + [tr], vars, RestoreFinished(p, s, t, tr))
  {
    hide SetVariable, InRange, SortedLinks, InverseLinks, Counts, RestoredResults, InitialCounters, Decremented;
    var s1 := RestoreFinished(p, s, t, tr);
    RestoredResultsAfterOne(p, init, tr, s.results);
    CountsAfterOne(p, s.dependencies, s.results.Keys, t, s1.results.Keys);
  }

  lemma RestoreStep(p: Pipeline, init: seq<TaskRun>, tr: TaskRun, vars: VarMap, s: State)
    requires InRange(p) && SortedLinks(p) && InverseLinks(p)
    requires DistinctRuns(init + [tr]) && FindDotID(p, tr.dotID).Some?
    requires Restored0(p, init, vars, s)
    ensures RestoreOne(p, s, tr).Some? && Restored0(p, init + [tr], vars, RestoreOne(p, s, tr).value)
  {
    hide RestoreFinished;
    var t := FindDotID(p, tr.dotID).value;
    if IsPending(tr) {
      RestoredResultsAfterOne(p, init, tr, s.results);
    } else {
      NotYetFinished(p, init, tr, t);
      RestoreFinishedStep(p, init, tr, vars, s, t);
    }
  }

  /** Reconstruction succeeds when every saved run has its task; the counters then count the inputs
      that were not finished. */
  lemma {:induction false} RestoreCounts(p: Pipeline, runs: seq<TaskRun>, vars: VarMap)
    requires InRange(p) && SortedLinks(p) && InverseLinks(p) && Known(p, runs) && DistinctRuns(runs)
    ensures Restore(p, EmptyState(p, vars), runs).Some?
    ensures Restored0(p, runs, vars, Restore(p, EmptyState(p, vars), runs).value)
  {
    if runs == [] {
      InitialCountersAre(p, |p.tasks|);
      assert EmptyState(p, vars).results.Keys == {};
    } else {
      var init, last := runs[..|runs| - 1], runs[|runs| - 1];
      assert runs == init + [last];
      RestoreCounts(p, init, vars);
      RestoreStep(p, init, last, vars, Restore(p, EmptyState(p, vars), init).value);
    }
  }

  lemma {:induction false} RestorePanics(p: Pipeline, s: State, runs: seq<TaskRun>)
    ensures Restore(p, s, runs).None? <==> !Known(p, runs)
  {
    if runs != [] {
      var init, last := runs[..|runs| - 1], runs[|runs| - 1];
      assert forall i :: 0 <= i < |init| ==> runs[i] == init[i];
      RestorePanics(p, s, init);
    }
  }

  // ----- the first queue -----

  /** The startable tasks among the first `k`, by id. */
  function Doable(s: State, k: nat): seq<nat> {
    if k == 0 then [] else Doable(s, k - 1) + (if Startable(s, k - 1) then [k - 1] else [])
  }

  lemma {:induction false} DoableAre(s: State, k: nat)
    ensures |Doable(s, k)| <= k
    ensures forall i :: 0 <= i < |Doable(s, k)| ==> Doable(s, k)[i] < k
    ensures forall i, j :: 0 <= i < j < |Doable(s, k)| ==> Doable(s, k)[i] < Doable(s, k)[j]
    ensures forall t: nat :: t in Doable(s, k) <==> t < k && Startable(s, t)
  {
    if k > 0 {
      DoableAre(s, k - 1);
    }
  }

  lemma SameStartable(s: State, s': State, t: nat)
    requires s.dependencies == s'.dependencies && s.results == s'.results
    ensures Startable(s, t) == Startable(s', t)
  {
  }

  lemma QueuedNothing(p: Pipeline, s: State)
    requires InRange(p)
    ensures Queued(p, s, s.dependencies, []) == s
  {
    assert s.taskCh + NewRuns(p, s, []) == s.taskCh;
  }

  lemma QueuedBooks(p: Pipeline, s: State, deps: map<nat, nat>, ts: seq<nat>)
    requires InRange(p) && forall i :: 0 <= i < |ts| ==> ts[i] < |p.tasks|
    ensures var q := Queued(p, s, deps, ts);
      q.dependencies == deps && q.results == s.results && q.vars == s.vars
  {
  }

  /** The queue holds a first run of exactly the startable tasks, by id. */
  lemma {:induction false} ScheduleFirstQueues(p: Pipeline, s: State, k: nat)
    requires InRange(p) && k <= |p.tasks| && s.taskCh == [] && s.waiting == 0
    ensures |Doable(s, k)| <= k && forall i :: 0 <= i < |Doable(s, k)| ==> Doable(s, k)[i] < |p.tasks|
    ensures ScheduleFirst(p, s, k) == Queued(p, s, s.dependencies, Doable(s, k))
  {
    hide NewMemoryTaskRun, Queued, Startable, InRange;
    DoableAre(s, k);
    if k == 0 {
      QueuedNothing(p, s);
    } else {
      ScheduleFirstQueues(p, s, k - 1);
      var ts := Doable(s, k - 1);
      QueuedBooks(p, s, s.dependencies, ts);
      assert Startable(ScheduleFirst(p, s, k - 1), k - 1) == Startable(s, k - 1) by {
        SameStartable(ScheduleFirst(p, s, k - 1), s, k - 1);
      }
      if Startable(s, k - 1) {
        EnqueueQueues(p, s, s.dependencies, ts, k - 1);
      } else {
        assert ts + [] == ts;
      }
    }
  }

  ghost predicate FirstQueue(p: Pipeline, s: State, s': State)
    requires InRange(p)
  {
    DoableAre(s, |p.tasks|);
    && s' == Queued(p, s, s.dependencies, Doable(s, |p.tasks|))
    && s.taskCh == [] && s.goroutines == multiset{} && s.waiting == 0
  }

  /** The tasks in the queue are the startable ones, each once, on its first attempt. */
  lemma FirstQueueIs(p: Pipeline, s: State, s': State)
    requires InRange(p) && FirstQueue(p, s, s')
    ensures var ts := Doable(s, |p.tasks|);
      && |s'.taskCh| == s'.waiting == |ts| <= |p.tasks|
      && (forall i :: 0 <= i < |ts| ==> ts[i] < |p.tasks|)
      && (forall i :: 0 <= i < |ts| ==> s'.taskCh[i] == NewMemoryTaskRun(p, s.results, s.vars, ts[i], 0))
  {
    hide NewMemoryTaskRun;
    var ts := Doable(s, |p.tasks|);
    DoableAre(s, |p.tasks|);
    NewRunsAre(p, s, ts);
    assert s.taskCh + NewRuns(p, s, ts) == NewRuns(p, s, ts);
  }

  lemma FirstConserved(p: Pipeline, s: State, s': State)
    requires InRange(p) && FirstQueue(p, s, s')
    ensures Conserved(p, s')
  {
    hide NewMemoryTaskRun;
    var ts := Doable(s, |p.tasks|);
    DoableAre(s, |p.tasks|);
    FirstRuns(p, s, s');
    assert forall run :: run in s'.taskCh ==> run.task < |p.tasks|;
    assert forall t :: t in Owners(s') ==> t < |p.tasks|;
  }

  lemma FirstRuns(p: Pipeline, s: State, s': State)
    requires InRange(p) && FirstQueue(p, s, s')
    ensures var ts := Doable(s, |p.tasks|);
      && |s'.taskCh| == s'.waiting == |ts|
      && (forall i :: 0 <= i < |ts| ==> ts[i] < |p.tasks| && s'.taskCh[i].task == ts[i])
  {
    FirstQueueIs(p, s, s');
  }

  lemma FirstOwners(p: Pipeline, s: State, s': State)
    requires InRange(p) && FirstQueue(p, s, s')
    ensures forall t :: t in Owners(s') <==> 0 <= t < |p.tasks| && Startable(s, t)
  {
    hide NewMemoryTaskRun, Startable;
    var ts := Doable(s, |p.tasks|);
    DoableAre(s, |p.tasks|);
    FirstRuns(p, s, s');
    hide Doable;
    forall t | 0 <= t < |p.tasks| && Startable(s, t) ensures t in Owners(s') {
      assert t in ts;
      var i :| 0 <= i < |ts| && ts[i] == t;
      assert s'.taskCh[i] in s'.taskCh;
    }
    forall t | t in Owners(s') ensures 0 <= t < |p.tasks| && Startable(s, t) {
      var i :| 0 <= i < |ts| && s'.taskCh[i].task == t;
      assert ts[i] in ts;
    }
  }

  lemma FirstDone(s: State, s': State)
    requires s'.results == s.results
    requires forall t :: t in s.results ==> !s.results[t].isPending && t !in Owners(s')
    ensures Done(LedgerOf(s')) == s.results.Keys
  {
  }

  lemma StartableIsReady(p: Pipeline, s: State, t: nat)
    requires Counts(p, s.dependencies, s.results.Keys) && t < |p.tasks|
    ensures Startable(s, t) <==> InputSet(p, t) <= s.results.Keys && t !in s.results
  {
    hide OpenInputs, InputSet;
    NothingOpen(p, t, s.results.Keys);
  }

  lemma FirstReady(p: Pipeline, s: State, b: Ledger)
    requires Counts(p, s.dependencies, s.results.Keys) && b.results == s.results && Done(b) == s.results.Keys
    requires forall t :: t in b.owners <==> 0 <= t < |p.tasks| && Startable(s, t)
    ensures OwnersReady(p, b) && ReadyStarted(p, b)
  {
    hide Startable, InputSet, Done, Counts;
    forall t | 0 <= t < |p.tasks| ensures Startable(s, t) <==> InputSet(p, t) <= s.results.Keys && t !in s.results {
      StartableIsReady(p, s, t);
    }
  }

  lemma FirstClosed(p: Pipeline, b: Ledger)
    requires Done(b) == b.results.Keys && forall t :: t in b.results ==> t < |p.tasks|
    ensures ResultsClosed(p, b) <==> forall t, u :: t in b.results && u in InputSet(p, t) ==> u in b.results
  {
    hide Done, InputSet;
  }

  lemma FirstCore(p: Pipeline, s: State, s': State)
    requires Counts(p, s.dependencies, s.results.Keys) && s'.dependencies == s.dependencies && s'.results == s.results
    requires !s'.pending && !s'.exiting && (forall t :: t in s.results ==> t < |p.tasks| && !s.results[t].isPending)
    requires forall t :: t in Owners(s') <==> 0 <= t < |p.tasks| && Startable(s, t)
    ensures Core(p, LedgerOf(s')) <==>
      forall t, u :: t in s.results && u in InputSet(p, t) ==> u in s.results
  {
    hide Owners, InputSet, Counts, OwnersReady, ReadyStarted, ResultsClosed;
    var b := LedgerOf(s');
    FirstDone(s, s');
    FirstReady(p, s, b);
    FirstClosed(p, b);
    assert CountersExact(p, b);
    assert forall t :: !PendingTask(b, t);
  }

  lemma FirstTokens(p: Pipeline, s: State, s': State)
    requires InRange(p) && FirstQueue(p, s, s') && Owners(s') !! s.results.Keys
    ensures TokenAttempts(p, s') && OwnersRetry(p, LedgerOf(s'))
  {
    FirstQueueIs(p, s, s');
    forall i | 0 <= i < |s'.taskCh| ensures TokenAttempt(p, s', s'.taskCh[i].task, s'.taskCh[i].attempts) {
      assert s'.taskCh[i] in s'.taskCh;
      assert s'.taskCh[i].task in Owners(s');
    }
  }

  /** Nothing has happened yet. */
  ghost predicate Fresh(s: State) {
    && !s.pending && !s.exiting && !s.closed && !s.returned && s.goroutines == multiset{}
    && (forall t :: t in s.results ==> s.results[t].attempts == 0 && !s.results[t].isPending && t !in Owners(s))
  }

  lemma NewSchedulerParts(p: Pipeline, runs: seq<TaskRun>, vars: VarMap) returns (s: State, s': State)
    requires WellFormed(p) && Known(p, runs) && DistinctRuns(runs)
    ensures NewScheduler(p, runs, vars) == Some(s')
    ensures Restore(p, EmptyState(p, vars), runs) == Some(s) && Restored0(p, runs, vars, s)
    ensures FirstQueue(p, s, s') && Conserved(p, s')
    ensures forall t :: t in Owners(s') <==> 0 <= t < |p.tasks| && Startable(s, t)
    ensures Fresh(s')
  {
    RestoreCounts(p, runs, vars);
    s := Restore(p, EmptyState(p, vars), runs).value;
    s' := ScheduleFirst(p, s, |p.tasks|);
    ScheduleFirstQueues(p, s, |p.tasks|);
    FirstConserved(p, s, s');
    FirstOwners(p, s, s');
  }

  /** The books of a new scheduler are those after reconstruction. */
  lemma NewSchedulerBooks(p: Pipeline, runs: seq<TaskRun>, vars: VarMap, s0: State) returns (s: State)
    requires WellFormed(p) && Known(p, runs) && DistinctRuns(runs) && NewScheduler(p, runs, vars) == Some(s0)
    ensures Restore(p, EmptyState(p, vars), runs) == Some(s) && FirstQueue(p, s, s0)
    ensures s0.results == s.results && s0.vars == s.vars && s0.dependencies == s.dependencies
    ensures RestoredResults(p, runs, s0.results)
  {
    var s';
    s, s' := NewSchedulerParts(p, runs, vars);
    hide Known, DistinctRuns, NewScheduler, Restore, EmptyState, Conserved, Owners, Startable, Fresh, Counts,
      RestoredResults, WellFormed, Doable, NewRuns;
  }

  /** A new scheduler satisfies the invariant exactly when the finished tasks among the saved runs
      are closed under predecessors. */
  lemma StartsWell(p: Pipeline, runs: seq<TaskRun>, vars: VarMap)
    requires WellFormed(p) && Known(p, runs) && DistinctRuns(runs)
    ensures NewScheduler(p, runs, vars).Some? && Fresh(NewScheduler(p, runs, vars).value)
    ensures Inv(p, NewScheduler(p, runs, vars).value) <==> ClosedRuns(p, runs)
  {
    var s, s' := NewSchedulerParts(p, runs, vars);
    FirstTokens(p, s, s');
    FirstCore(p, s, s');
  }

  /** A first run, without saved task runs. */
  lemma StartsFresh(p: Pipeline, vars: VarMap)
    requires WellFormed(p)
    ensures NewScheduler(p, [], vars).Some? && Fresh(NewScheduler(p, [], vars).value)
    ensures Inv(p, NewScheduler(p, [], vars).value)
  {
    StartsWell(p, [], vars);
  }

  /** `s0` is a new scheduler for saved runs whose finished tasks are closed under predecessors. */
  ghost predicate Opens(p: Pipeline, runs: seq<TaskRun>, vars: VarMap, s0: State)
    requires InRange(p)
  {
    DistinctRuns(runs) && ClosedRuns(p, runs) && NewScheduler(p, runs, vars) == Some(s0)
  }

  lemma OpensWell(p: Pipeline, runs: seq<TaskRun>, vars: VarMap, s0: State)
    requires WellFormed(p) && Opens(p, runs, vars, s0)
    ensures Known(p, runs) && Inv(p, s0) && Fresh(s0)
  {
    hide Inv, Fresh, DistinctRuns, ClosedRuns;
    RestorePanics(p, EmptyState(p, vars), runs);
    hide Known;
    StartsWell(p, runs, vars);
  }
}
