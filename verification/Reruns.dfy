/** Restored tasks that run again. The release loop does not look at `results`, so a task that was
    restored as finished is queued once its last input completes. That happens in some run exactly if
    the saved set is not closed under predecessors. */
module Reruns {
  import opened Values
  import opened Variables
  import opened Pipelines
  import opened Scheduling
  import opened Tokens
  import opened Releases
  import opened Ledgers
  import opened Invariants
  import opened Runs
  import opened Startup
  import opened FailEarly
  import opened Evaluation

  /** Some run from `s0` dispatches a task that already had a result in `s0`. */
  ghost predicate RerunsSome(p: Pipeline, s0: State)
    requires InRange(p)
  {
    exists tr, t :: Reruns(p, s0, tr, t)
  }

  ghost predicate Reruns(p: Pipeline, s0: State, tr: Trace, t: nat)
    requires InRange(p)
  {
    IsRun(p, s0, tr) && t in s0.results && Dispatched(tr, t)
  }

  // ----- closed sets -----

  lemma {:induction false} ContinuesFromStart(tr: Trace)
    ensures Continues(Start, tr)
  {
    if tr.Then? {
      ContinuesFromStart(tr.prev);
    }
  }

  lemma ClosedNeverReruns(p: Pipeline, runs: seq<TaskRun>, vars: VarMap, s0: State, tr: Trace, t: nat)
    requires WellFormed(p) && Opens(p, runs, vars, s0)
    ensures !Reruns(p, s0, tr, t)
  {
    OpensWell(p, runs, vars, s0);
    hide Inv, Opens, Owners;
    if IsRun(p, s0, tr) && t in s0.results {
      ContinuesFromStart(tr);
      SettledIsNotDispatched(p, s0, Start, tr, t);
    }
  }

  // ----- open sets: a run that completes everything below a task -----

  ghost function Completed(s0: State, k: nat): set<nat> {
    s0.results.Keys + Below(k)
  }

  ghost predicate IsExecuting(s: State, t: nat) {
    exists g :: g in s.goroutines && g.Executing? && g.run.task == t
  }

  /** The run `tr` leads to `s`. */
  ghost predicate Reaches(p: Pipeline, s0: State, tr: Trace, s: State)
    requires InRange(p)
  {
    IsRun(p, s0, tr) && After(p, s0, tr) == s
  }

  lemma ReachesNext(p: Pipeline, s0: State, tr: Trace, s: State, e: Event)
    requires InRange(p) && Reaches(p, s0, tr, s) && Enabled(p, s, e)
    ensures Reaches(p, s0, Then(tr, e), Apply(p, s, e))
  {
    hide InRange, Apply, Enabled;
  }

  /** Between rounds: nothing is queued, and every token is a goroutine. */
  ghost predicate Resting(s: State) {
    s.taskCh == [] && !s.exiting && !s.closed && s.waiting == |s.goroutines|
  }

  /** With everything below `k` complete, the counter of `t` is exact, and `t` is executing if it is
      unfinished and ready. */
  ghost predicate ProgressedAt(p: Pipeline, s0: State, s: State, k: nat, t: nat)
    requires t < |p.tasks|
  {
    && t in s.dependencies && s.dependencies[t] == OpenInputs(p, t, Completed(s0, k))
    && (k <= t && t !in s0.results && s.dependencies[t] == 0 ==> IsExecuting(s, t))
  }

  /** Everything below `k` is complete, and `v` has been dispatched if all its inputs are complete. */
  ghost predicate Progressed(p: Pipeline, s0: State, v: nat, tr: Trace, s: State, k: nat)
    requires v < |p.tasks|
  {
    && Resting(s)
    && (forall t :: 0 <= t <= v ==> ProgressedAt(p, s0, s, k, t))
    && (OpenInputs(p, v, Completed(s0, k)) == 0 ==> Dispatched(tr, v))
  }

  /** `s'` follows `s` once the runner has taken the whole queue. */
  ghost predicate Emptied(s: State, s': State, later: Trace) {
    && s' == s.(taskCh := [], goroutines := s'.goroutines)
    && |s'.goroutines| == |s.goroutines| + |s.taskCh|
    && (forall g :: g in s.goroutines ==> g in s'.goroutines)
    && (forall i :: 0 <= i < |s.taskCh| ==>
      Executing(s.taskCh[i]) in s'.goroutines && Dispatched(later, s.taskCh[i].task))
  }

  lemma EmptiedByOneMore(s: State, s1: State, s': State, later: Trace)
    requires s.taskCh != [] && Emptied(s1, s', later) && Dispatched(later, s.taskCh[0].task)
    requires s1 == s.(taskCh := s.taskCh[1..], goroutines := s.goroutines + multiset{Executing(s.taskCh[0])})
    ensures Emptied(s, s', later)
  {
    hide Dispatched;
    assert Executing(s.taskCh[0]) in s1.goroutines;
    forall i | 0 <= i < |s.taskCh|
      ensures Executing(s.taskCh[i]) in s'.goroutines && Dispatched(later, s.taskCh[i].task)
    {
      if i > 0 {
        assert s.taskCh[i] == s1.taskCh[i - 1];
      }
    }
  }

  /** The runner takes the whole queue. */
  lemma {:induction false} DispatchAll(p: Pipeline, s0: State, tr: Trace, s: State) returns (later: Trace, s': State)
    requires InRange(p) && Reaches(p, s0, tr, s)
    ensures Reaches(p, s0, later, s') && Emptied(s, s', later)
    ensures forall t :: Dispatched(tr, t) ==> Dispatched(later, t)
    decreases |s.taskCh|
  {
    hide InRange, Reaches;
    if s.taskCh == [] {
      later, s' := tr, s;
    } else {
      var e := Dispatch(s.taskCh[0].task);
      ReachesNext(p, s0, tr, s, e);
      var s1 := Apply(p, s, e);
      later, s' := DispatchAll(p, s0, Then(tr, e), s1);
      EmptiedByOneMore(s, s1, s', later);
    }
  }

  /** What a successful report of `r.task` does when the queue is empty. */
  lemma SuccessReleases(p: Pipeline, s: State, r: TaskRunResult, now: int)
    requires WellFormed(p) && r.task < |p.tasks| && s.waiting > 0 && !s.exiting && !r.isPending && r.result == NO_RESULT
    requires s.taskCh == []
    ensures var s', freed := Receive(p, s, r, now), Freed(s.dependencies, p.tasks[r.task].outputs);
      && !s'.exiting && s'.closed == s.closed && s'.goroutines == s.goroutines - multiset{Reporting(r)}
      && s'.dependencies == Decremented(s.dependencies, p.tasks[r.task].outputs)
      && |s'.taskCh| == |freed| && s'.waiting == s.waiting - 1 + |freed|
      && (forall i :: 0 <= i < |freed| ==> s'.taskCh[i].task == freed[i])
  {
    var s2, outs := StoreVariable(p, StoreReport(s, r), r, now), p.tasks[r.task].outputs;
    OutputsDistinct(p, r.task);
    hide SetVariable, MarkRemaining, NewMemoryTaskRun, SortedLinks, InverseLinks, PositionalIds, Decremented, Freed,
      Release, Counted;
    ReleaseQueues(p, s2, outs);
    NewRunsShape(p, s2, Freed(s2.dependencies, outs));
    hide NewRuns;
    assert s2.taskCh + NewRuns(p, s2, Freed(s2.dependencies, outs)) == NewRuns(p, s2, Freed(s2.dependencies, outs));
  }

  /** `s'` follows `s` once `run` has succeeded: what it freed is queued. */
  ghost predicate Succeeded(p: Pipeline, s: State, run: MemoryTaskRun, s': State)
    requires run.task < |p.tasks|
  {
    var freed := Freed(s.dependencies, p.tasks[run.task].outputs);
    && !s'.exiting && !s'.closed && s'.goroutines == s.goroutines - multiset{Executing(run)}
    && s'.dependencies == Decremented(s.dependencies, p.tasks[run.task].outputs)
    && s'.waiting == |s'.goroutines| + |s'.taskCh| && |s'.taskCh| == |freed|
    && (forall i :: 0 <= i < |freed| ==> s'.taskCh[i].task == freed[i])
  }

  lemma SuccessReceived(p: Pipeline, s: State, run: MemoryTaskRun, s1: State, r: TaskRunResult)
    requires WellFormed(p) && run.task < |p.tasks| && Resting(s) && Executing(run) in s.goroutines
    requires r == Executed(run, NO_RESULT, false, 0) && s1 == Become(s, Executing(run), Reporting(r))
    ensures s1.waiting > 0 && Reporting(r) in s1.goroutines && !s1.closed && r.task < |p.tasks|
    ensures Succeeded(p, s, run, Receive(p, s1, r, 0))
  {
    assert |s1.goroutines| == |s.goroutines|;
    assert s1.goroutines - multiset{Reporting(r)} == s.goroutines - multiset{Executing(run)};
    SuccessReleases(p, s1, r, 0);
    hide Receive, Decremented, Freed, SortedLinks, InverseLinks, PositionalIds, InRange;
  }

  /** An executing task succeeds and is received. */
  lemma Succeed(p: Pipeline, s0: State, tr: Trace, s: State, run: MemoryTaskRun) returns (later: Trace, s': State)
    requires WellFormed(p) && Reaches(p, s0, tr, s) && run.task < |p.tasks|
    requires Resting(s) && Executing(run) in s.goroutines
    ensures Reaches(p, s0, later, s') && Succeeded(p, s, run, s')
    ensures forall t :: Dispatched(tr, t) ==> Dispatched(later, t)
  {
    hide Reaches, Receive, Succeeded, Become, Executed, SortedLinks, InverseLinks, PositionalIds, InRange, Resting;
    var r := Executed(run, NO_RESULT, false, 0);
    var finish, deliver := Finish(run, NO_RESULT, false, 0), Deliver(r, 0);
    var s1 := Become(s, Executing(run), Reporting(r));
    SuccessReceived(p, s, run, s1, r);
    ReachesNext(p, s0, tr, s, finish);
    ReachesNext(p, s0, Then(tr, finish), s1, deliver);
    later, s' := Then(Then(tr, finish), deliver), Receive(p, s1, r, 0);
  }

  /** Completing `k` keeps the counter of `t` exact. */
  lemma CountAfterSuccess(p: Pipeline, deps: map<nat, nat>, done: set<nat>, k: nat, t: nat)
    requires WellFormed(p) && k < |p.tasks| && k !in done && t < |p.tasks|
    requires t in deps && deps[t] == OpenInputs(p, t, done)
    ensures t in Decremented(deps, p.tasks[k].outputs)
    ensures Decremented(deps, p.tasks[k].outputs)[t] == OpenInputs(p, t, done + {k})
    ensures OpenInputs(p, t, done + {k}) == 0 && OpenInputs(p, t, done) != 0 ==>
      t in Freed(deps, p.tasks[k].outputs)
  {
    hide OpenInputs, Decremented, Freed;
    CompleteCounter(p, deps, done, k, t);
    CounterDropsByOne(p, deps, done, k, t);
    FreedAreOutputs(deps, p.tasks[k].outputs);
  }

  lemma CompletedNext(s0: State, k: nat)
    ensures Completed(s0, k + 1) == Completed(s0, k) + {k}
    ensures k in s0.results <==> k in Completed(s0, k)
  {
    BelowIs(k);
  }

  lemma InputsAreCompleted(p: Pipeline, s0: State, k: nat)
    requires InRange(p) && k < |p.tasks|
    ensures OpenInputs(p, k, Completed(s0, k)) == 0
  {
    InputsAreBelow(p, k);
    hide InputSet;
    NothingOpen(p, k, Completed(s0, k));
  }

  /** A freed task is dispatched and executing. */
  lemma FreedIsDispatched(s: State, s': State, later: Trace, freed: seq<nat>, t: nat)
    requires t in freed && Emptied(s, s', later)
    requires |s.taskCh| == |freed| && (forall i :: 0 <= i < |freed| ==> s.taskCh[i].task == freed[i])
    ensures IsExecuting(s', t) && Dispatched(later, t)
  {
    var i :| 0 <= i < |freed| && freed[i] == t;
    var g := Executing(s.taskCh[i]);
    assert g in s'.goroutines && g.Executing? && g.run.task == t;
  }

  /** Who was executing, and did not finish, is executing. */
  lemma StillExecuting(s: State, run: MemoryTaskRun, mid: State, s': State, later: Trace, t: nat)
    requires IsExecuting(s, t) && t != run.task && Emptied(mid, s', later)
    requires mid.goroutines == s.goroutines - multiset{Executing(run)}
    ensures IsExecuting(s', t)
  {
    var g :| g in s.goroutines && g.Executing? && g.run.task == t;
    assert g != Executing(run) && g in mid.goroutines;
  }

  /** What completing `k` means for a task `t`. */
  lemma ProgressAt(p: Pipeline, s0: State, s: State, k: nat, run: MemoryTaskRun, mid: State, s': State,
      later: Trace, t: nat)
    requires WellFormed(p) && k < |p.tasks| && t < |p.tasks| && run.task == k && k !in s0.results
    requires ProgressedAt(p, s0, s, k, t) && Succeeded(p, s, run, mid) && Emptied(mid, s', later)
    ensures ProgressedAt(p, s0, s', k + 1, t)
    ensures OpenInputs(p, t, Completed(s0, k + 1)) == 0 && OpenInputs(p, t, Completed(s0, k)) != 0 ==>
      Dispatched(later, t)
  {
    hide SortedLinks, InverseLinks, PositionalIds, InRange, OpenInputs, Decremented, Freed, IsExecuting, Completed;
    CompletedNext(s0, k);
    CountAfterSuccess(p, s.dependencies, Completed(s0, k), k, t);
    if t in Freed(s.dependencies, p.tasks[k].outputs) {
      FreedIsDispatched(mid, s', later, Freed(s.dependencies, p.tasks[k].outputs), t);
    }
    if t != k && IsExecuting(s, t) {
      StillExecuting(s, run, mid, s', later, t);
    }
  }

  /** What completing `k` means for the whole. */
  lemma ProgressOver(p: Pipeline, s0: State, v: nat, tr: Trace, s: State, k: nat, run: MemoryTaskRun, mid: State,
      later: Trace, s': State)
    requires WellFormed(p) && v < |p.tasks| && k < v && k !in s0.results && run.task == k
    requires Progressed(p, s0, v, tr, s, k) && Succeeded(p, s, run, mid) && Emptied(mid, s', later)
    requires Dispatched(tr, v) ==> Dispatched(later, v)
    ensures Progressed(p, s0, v, later, s', k + 1)
  {
    hide Completed, WellFormed, OpenInputs, Succeeded, Emptied, Dispatched, Resting, ProgressedAt;
    RestsAgain(p, s, run, mid, s', later);
    var next := k + 1;
    forall t | 0 <= t <= v
      ensures ProgressedAt(p, s0, s', next, t)
      ensures OpenInputs(p, t, Completed(s0, next)) == 0 && OpenInputs(p, t, Completed(s0, k)) != 0 ==>
        Dispatched(later, t)
    {
      ProgressAt(p, s0, s, k, run, mid, s', later, t);
    }
  }

  /** An unfinished task is completed, and whatever it frees is dispatched. */
  lemma ProgressByOne(p: Pipeline, s0: State, v: nat, tr: Trace, s: State, k: nat) returns (later: Trace, s': State)
    requires WellFormed(p) && v < |p.tasks| && k < v && k !in s0.results
    requires Reaches(p, s0, tr, s) && Progressed(p, s0, v, tr, s, k)
    ensures Reaches(p, s0, later, s') && Progressed(p, s0, v, later, s', k + 1)
  {
    InputsAreCompleted(p, s0, k);
    assert ProgressedAt(p, s0, s, k, k);
    assert IsExecuting(s, k) && Resting(s);
    var g :| g in s.goroutines && g.Executing? && g.run.task == k;
    assert g == Executing(g.run);
    hide Reaches, Progressed, Resting, SortedLinks, InverseLinks, PositionalIds, InRange, Succeeded, Emptied,
      Dispatched, OpenInputs, Completed;
    var mid, s1 := Succeed(p, s0, tr, s, g.run);
    later, s' := DispatchAll(p, s0, mid, s1);
    ProgressOver(p, s0, v, tr, s, k, g.run, s1, later, s');
  }

  lemma RestsAgain(p: Pipeline, s: State, run: MemoryTaskRun, mid: State, s': State, later: Trace)
    requires run.task < |p.tasks| && Succeeded(p, s, run, mid) && Emptied(mid, s', later)
    ensures Resting(s')
  {
    hide Freed, Decremented;
  }

  /** From a state in which the first queue has been taken, everything below `v` can be completed. */
  lemma {:induction false} ProgressTo(p: Pipeline, s0: State, v: nat, tr: Trace, s: State, k: nat)
      returns (later: Trace, s': State)
    requires WellFormed(p) && v < |p.tasks| && k <= v && Reaches(p, s0, tr, s) && Progressed(p, s0, v, tr, s, 0)
    ensures Reaches(p, s0, later, s') && Progressed(p, s0, v, later, s', k)
  {
    hide Reaches, Progressed, SortedLinks, InverseLinks, PositionalIds, InRange;
    if k == 0 {
      later, s' := tr, s;
    } else {
      later, s' := ProgressTo(p, s0, v, tr, s, k - 1);
      if k - 1 in s0.results {
        SkipFinished(p, s0, v, later, s', k - 1);
      } else {
        later, s' := ProgressByOne(p, s0, v, later, s', k - 1);
      }
    }
  }

  lemma SkipFinished(p: Pipeline, s0: State, v: nat, tr: Trace, s: State, k: nat)
    requires v < |p.tasks| && Progressed(p, s0, v, tr, s, k) && k in s0.results
    ensures Progressed(p, s0, v, tr, s, k + 1)
  {
    CompletedNext(s0, k);
    assert Completed(s0, k + 1) == Completed(s0, k);
    hide Completed, OpenInputs, IsExecuting, Dispatched, Resting;
    var next := k + 1;
    forall t | 0 <= t <= v ensures ProgressedAt(p, s0, s, next, t) {
      assert ProgressedAt(p, s0, s, k, t);
    }
  }

  // ----- the theorem -----

  lemma FirstProgressAt(p: Pipeline, s: State, s0: State, tr: Trace, s': State, t: nat)
    requires InRange(p) && FirstQueue(p, s, s0) && Counts(p, s.dependencies, s.results.Keys) && t < |p.tasks|
    requires s0.dependencies == s.dependencies && s0.results == s.results && Emptied(s0, s', tr)
    ensures ProgressedAt(p, s0, s', 0, t)
  {
    hide OpenInputs, Completed, FirstQueue, InRange, Doable, Emptied, IsExecuting, Reaches;
    FirstRuns(p, s, s0);
    DoableAre(s, |p.tasks|);
    StartIsReached(p, s0);
    EmptiedKeepsBooks(s0, s', tr);
    if t !in s.results && s.dependencies[t] == 0 {
      FreedIsDispatched(s0, s', tr, Doable(s, |p.tasks|), t);
    }
  }

  lemma EmptiedKeepsBooks(s: State, s': State, later: Trace)
    requires Emptied(s, s', later)
    ensures s'.dependencies == s.dependencies && s'.results == s.results
  {
  }

  lemma StartIsReached(p: Pipeline, s0: State)
    requires InRange(p)
    ensures Reaches(p, s0, Start, s0) && Completed(s0, 0) == s0.results.Keys
  {
    hide InRange;
  }

  lemma FirstResting(s0: State, s': State, tr: Trace)
    requires Fresh(s0) && s0.waiting == |s0.taskCh| && Emptied(s0, s', tr)
    ensures Resting(s')
  {
  }

  /** Once the first queue has been taken, every ready unfinished task is executing. */
  lemma FirstProgress(p: Pipeline, s: State, s0: State, v: nat) returns (tr: Trace, s': State)
    requires WellFormed(p) && FirstQueue(p, s, s0) && Counts(p, s.dependencies, s.results.Keys)
    requires s0.dependencies == s.dependencies && s0.results == s.results && Fresh(s0)
    requires v < |p.tasks| && !(InputSet(p, v) <= s.results.Keys)
    ensures Reaches(p, s0, tr, s') && Progressed(p, s0, v, tr, s', 0)
  {
    hide InputSet, OpenInputs, SortedLinks, InverseLinks, PositionalIds, InRange, Completed, FirstQueue, Doable, Fresh,
      Reaches, Dispatched, Resting, ProgressedAt, Counts, Emptied;
    FirstRuns(p, s, s0);
    NothingOpen(p, v, s.results.Keys);
    StartIsReached(p, s0);
    tr, s' := DispatchAll(p, s0, Start, s0);
    FirstResting(s0, s', tr);
    forall t | 0 <= t <= v ensures ProgressedAt(p, s0, s', 0, t) {
      FirstProgressAt(p, s, s0, tr, s', t);
    }
  }

  /** In an open set every finished task that has an unfinished input can run again. */
  lemma OpenReruns(p: Pipeline, runs: seq<TaskRun>, vars: VarMap, s0: State, v: nat, u: nat) returns (tr: Trace)
    requires WellFormed(p) && Known(p, runs) && DistinctRuns(runs) && NewScheduler(p, runs, vars) == Some(s0)
    requires v < |p.tasks| && Finished(p, runs, v) && u in InputSet(p, v) && !Finished(p, runs, u)
    ensures Reruns(p, s0, tr, v)
  {
    hide NewScheduler, Restore, EmptyState, Known, DistinctRuns, Finished, Owners, Startable, InputSet, FirstQueue,
      Counts, Fresh, SortedLinks, InverseLinks, PositionalIds, InRange, Progressed, Conserved, Doable, Completed;
    var s, s' := NewSchedulerParts(p, runs, vars);
    var r := NewSchedulerBooks(p, runs, vars, s0);
    var mid, s1 := FirstProgress(p, s, s0, v);
    var last;
    tr, last := ProgressTo(p, s0, v, mid, s1, v);
    LastIsDispatched(p, s0, v, tr, last);
  }

  lemma LastIsDispatched(p: Pipeline, s0: State, v: nat, tr: Trace, s: State)
    requires InRange(p) && v < |p.tasks| && v in s0.results && Reaches(p, s0, tr, s) && Progressed(p, s0, v, tr, s, v)
    ensures Reruns(p, s0, tr, v)
  {
    InputsAreCompleted(p, s0, v);
    hide InRange, OpenInputs, Completed;
  }

  /** The saved finished tasks are closed under predecessors exactly if no run of the new scheduler
      dispatches a task that was restored as finished. */
  lemma ClosedExactlyIfNoRerun(p: Pipeline, runs: seq<TaskRun>, vars: VarMap, s0: State)
    requires WellFormed(p) && DistinctRuns(runs) && NewScheduler(p, runs, vars) == Some(s0)
    ensures ClosedRuns(p, runs) <==> !RerunsSome(p, s0)
  {
    hide SortedLinks, InverseLinks, PositionalIds, InRange, DistinctRuns, Reruns, Finished, InputSet, Known, Restore;
    if ClosedRuns(p, runs) {
      forall tr, t ensures !Reruns(p, s0, tr, t) {
        ClosedNeverReruns(p, runs, vars, s0, tr, t);
      }
    } else {
      RestorePanics(p, EmptyState(p, vars), runs);
      var v: nat, u: nat :| v < |p.tasks| && Finished(p, runs, v) && u in InputSet(p, v) && !Finished(p, runs, u);
      var tr := OpenReruns(p, runs, vars, s0, v, u);
    }
  }

  // ----- a witness -----

  const U_THEN_V := Pipeline([
    Task(0, "u", 0, false, 0, [], [1]),
    Task(1, "v", 0, false, 0, [TaskDependency(true, 0)], [])])

  const ONLY_V := [TaskRun("v", 0, Json(NIL_VALUE, false), None, Some(1))]

  lemma UThenVIsInRange()
    ensures PositionalIds(U_THEN_V) && InRange(U_THEN_V)
  {
  }

  lemma UThenVIsSorted()
    ensures SortedLinks(U_THEN_V)
  {
  }

  lemma UThenVInputs()
    ensures InputSet(U_THEN_V, 0) == {} && InputSet(U_THEN_V, 1) == {0}
  {
    assert U_THEN_V.tasks[1].inputs == [TaskDependency(true, 0)];
  }

  lemma UThenVIsWellFormed()
    ensures WellFormed(U_THEN_V) && 0 in InputSet(U_THEN_V, 1)
  {
    hide InputSet, PositionalIds, InRange, SortedLinks;
    UThenVIsInRange();
    UThenVIsSorted();
    UThenVInputs();
  }

  lemma VIsSaved()
    ensures FindDotID(U_THEN_V, "v") == Some(1) && DistinctRuns(ONLY_V) && Known(U_THEN_V, ONLY_V)
    ensures forall t :: Finished(U_THEN_V, ONLY_V, t) <==> t == 1
  {
    var p := U_THEN_V;
    assert FindFrom(p, "v", 1) == Some(1);
    assert p.tasks[0].dotID == "u" && "u" != "v";
    assert FindDotID(p, "v") == Some(1);
    assert |ONLY_V| == 1 && ONLY_V[0].dotID == "v" && !IsPending(ONLY_V[0]);
    hide FindDotID;
  }

  /** With u -> v and only v saved, v is restored as finished and runs again. */
  lemma RestoredTaskRunsAgain(vars: VarMap) returns (s0: State, tr: Trace)
    ensures WellFormed(U_THEN_V) && DistinctRuns(ONLY_V) && NewScheduler(U_THEN_V, ONLY_V, vars) == Some(s0)
    ensures Reruns(U_THEN_V, s0, tr, 1)
  {
    hide WellFormed, DistinctRuns, Known, Finished, FindDotID, NewScheduler, InputSet, Inv, Fresh;
    UThenVIsWellFormed();
    VIsSaved();
    StartsWell(U_THEN_V, ONLY_V, vars);
    s0 := NewScheduler(U_THEN_V, ONLY_V, vars).value;
    tr := OpenReruns(U_THEN_V, ONLY_V, vars, s0, 1, 0);
  }
}
