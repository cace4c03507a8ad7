/** What a task gets when it is dispatched: all inputs finally completed, and for every retry the same
    inputs as for the first try. And what the counters add up to. */
module Readiness {
  import opened Values
  import opened Ordering
  import opened Variables
  import opened Pipelines
  import opened Scheduling
  import opened Tokens
  import opened Releases
  import opened Ledgers
  import opened Invariants
  import opened Startup
  import opened Evaluation
  import Runs

  /** The inputs that task `t` would get now. */
  function InputsNow(p: Pipeline, s: State, t: nat): seq<Result>
    requires InRange(p) && t < |p.tasks|
  {
    RunInputs(p, t, PlainResults(s.results))
  }

  ghost predicate CurrentRun(p: Pipeline, s: State, run: MemoryTaskRun)
    requires InRange(p)
  {
    run.task < |p.tasks| && run.inputs == InputsNow(p, s, run.task)
  }

  /** Every queued run has the inputs that it would get if it were made now. */
  ghost predicate QueueIsCurrent(p: Pipeline, s: State)
    requires InRange(p)
  {
    forall i :: 0 <= i < |s.taskCh| ==> CurrentRun(p, s, s.taskCh[i])
  }

  /** Inputs that are done stay the same. */
  lemma DoneInputsStay(p: Pipeline, s: State, s': State, t: nat)
    requires InRange(p) && t < |p.tasks| && Stable(LedgerOf(s), LedgerOf(s'))
    requires InputSet(p, t) <= Done(LedgerOf(s))
    ensures InputsNow(p, s', t) == InputsNow(p, s, t)
  {
    hide RunInputs, Owners;
    StableKeepsDone(LedgerOf(s), LedgerOf(s'));
    assert forall u :: u in InputSet(p, t) ==> u in LedgerOf(s).results && u in LedgerOf(s').results;
    assert AgreeOn(PlainResults(s.results), PlainResults(s'.results), InputSet(p, t));
    InputsAgree(p, t, PlainResults(s.results), PlainResults(s'.results));
  }

  lemma QueuedInputsAreDone(p: Pipeline, s: State, i: nat)
    requires Inv(p, s) && i < |s.taskCh|
    ensures s.taskCh[i].task < |p.tasks| && InputSet(p, s.taskCh[i].task) <= Done(LedgerOf(s))
  {
    hide CountersExact, ResultsClosed, ReadyStarted, Done, InputSet;
    assert s.taskCh[i] in s.taskCh;
    assert s.taskCh[i].task in LedgerOf(s).owners;
  }

  lemma QueuedRunsStayCurrent(p: Pipeline, s: State, s': State, i: nat)
    requires InRange(p) && Inv(p, s) && QueueIsCurrent(p, s) && Stable(LedgerOf(s), LedgerOf(s')) && i < |s.taskCh|
    ensures CurrentRun(p, s', s.taskCh[i])
  {
    hide Inv, Stable, InputsNow;
    assert CurrentRun(p, s, s.taskCh[i]);
    QueuedInputsAreDone(p, s, i);
    DoneInputsStay(p, s, s', s.taskCh[i].task);
  }

  lemma NewRunIsCurrent(p: Pipeline, s: State, s': State, vars: VarMap, t: nat, attempts: nat)
    requires InRange(p) && t < |p.tasks| && s'.results == s.results
    ensures CurrentRun(p, s', NewMemoryTaskRun(p, s.results, vars, t, attempts))
  {
  }

  lemma NewRunsAreCurrent(p: Pipeline, s: State, s': State, ts: seq<nat>, i: nat)
    requires InRange(p) && s'.results == s.results && i < |ts| && forall j :: 0 <= j < |ts| ==> ts[j] < |p.tasks|
    ensures |NewRuns(p, s, ts)| == |ts| && CurrentRun(p, s', NewRuns(p, s, ts)[i])
  {
    hide NewMemoryTaskRun, CurrentRun;
    NewRunsAre(p, s, ts);
    NewRunIsCurrent(p, s, s', s.vars, ts[i], 0);
  }

  lemma QueueAfterRelease(p: Pipeline, s: State, outs: seq<nat>, i: nat)
    requires InRange(p) && Distinct(outs) && forall j :: 0 <= j < |outs| ==> outs[j] < |p.tasks|
    requires i < |Release(p, s, outs).taskCh|
    ensures |s.taskCh| <= |Release(p, s, outs).taskCh|
    ensures var run := Release(p, s, outs).taskCh[i];
      if i < |s.taskCh| then run == s.taskCh[i] else CurrentRun(p, Release(p, s, outs), run)
  {
    hide Decremented, CurrentRun, Distinct, Freed, NewRuns, Release;
    ReleaseQueues(p, s, outs);
    NewRunsShape(p, s, Freed(s.dependencies, outs));
    if i >= |s.taskCh| {
      NewRunsAreCurrent(p, s, Release(p, s, outs), Freed(s.dependencies, outs), i - |s.taskCh|);
    }
  }

  /** After a report the queue is the old one, followed by new runs of freed tasks. */
  lemma QueueAfterReport(p: Pipeline, s: State, r: TaskRunResult, now: int, i: nat)
    requires WellFormed(p) && r.task < |p.tasks| && s.waiting > 0
    requires i < |Receive(p, s, r, now).taskCh|
    ensures |s.taskCh| <= |Receive(p, s, r, now).taskCh|
    ensures var run := Receive(p, s, r, now).taskCh[i];
      if i < |s.taskCh| then run == s.taskCh[i] else CurrentRun(p, Receive(p, s, r, now), run)
  {
    hide SetVariable, MarkRemaining, NewMemoryTaskRun, SortedLinks, InverseLinks, CurrentRun, Release;
    var s2 := StoreVariable(p, StoreReport(s, r), r, now);
    assert s2.taskCh == s.taskCh;
    if !r.isPending && !s2.exiting && !MustRetry(p, Counted(s, r).attempts, r) {
      OutputsDistinct(p, r.task);
      QueueAfterRelease(p, s2, p.tasks[r.task].outputs, i);
    }
  }

  lemma ReportKeepsCurrent(p: Pipeline, s: State, r: TaskRunResult, now: int)
    requires WellFormed(p) && ReportReady(p, s, r) && QueueIsCurrent(p, s)
    ensures QueueIsCurrent(p, Receive(p, s, r, now))
  {
    DeliverStep(p, s, r, now);
    hide Inv, Receive, CurrentRun, Stable;
    var s' := Receive(p, s, r, now);
    forall i | 0 <= i < |s'.taskCh| ensures CurrentRun(p, s', s'.taskCh[i]) {
      QueueAfterReport(p, s, r, now, i);
      if i < |s.taskCh| {
        QueuedRunsStayCurrent(p, s, s', i);
      }
    }
  }

  lemma SameResultsStayCurrent(p: Pipeline, s: State, s': State, run: MemoryTaskRun)
    requires InRange(p) && s'.results == s.results && CurrentRun(p, s, run)
    ensures CurrentRun(p, s', run)
  {
  }

  lemma FireKeepsCurrent(p: Pipeline, s: State, e: Event)
    requires InRange(p) && QueueIsCurrent(p, s) && Enabled(p, s, e) && e.Fire?
    ensures QueueIsCurrent(p, Apply(p, s, e))
  {
    var s', g := Apply(p, s, e), e.sleeper;
    NewRunIsCurrent(p, s, s', g.vars, g.task, g.attempts);
    hide CurrentRun, NewMemoryTaskRun;
    forall i | 0 <= i < |s'.taskCh| ensures CurrentRun(p, s', s'.taskCh[i]) {
      if i < |s.taskCh| {
        SameResultsStayCurrent(p, s, s', s.taskCh[i]);
      }
    }
  }

  lemma MoveKeepsCurrent(p: Pipeline, s: State, e: Event)
    requires InRange(p) && QueueIsCurrent(p, s) && Enabled(p, s, e) && !e.Deliver?
    ensures QueueIsCurrent(p, Apply(p, s, e))
  {
    hide CurrentRun, NewMemoryTaskRun;
    if e.Fire? {
      FireKeepsCurrent(p, s, e);
    } else {
      var s' := Apply(p, s, e);
      forall i | 0 <= i < |s'.taskCh| ensures CurrentRun(p, s', s'.taskCh[i]) {
        var j := if e.Dispatch? then i + 1 else i;
        assert s'.taskCh[i] == s.taskCh[j];
        SameResultsStayCurrent(p, s, s', s.taskCh[j]);
      }
    }
  }

  lemma {:induction false} RunKeepsCurrent(p: Pipeline, s0: State, tr: Trace)
    requires WellFormed(p) && Inv(p, s0) && QueueIsCurrent(p, s0) && IsRun(p, s0, tr)
    ensures QueueIsCurrent(p, After(p, s0, tr))
  {
    if tr.Then? {
      RunKeepsCurrent(p, s0, tr.prev);
      RunKeeps(p, s0, tr.prev);
      hide Inv, QueueIsCurrent;
      if tr.event.Deliver? {
        DeliveredIsReady(p, After(p, s0, tr.prev), tr.event);
        ReportKeepsCurrent(p, After(p, s0, tr.prev), tr.event.report, tr.event.now);
      } else {
        MoveKeepsCurrent(p, After(p, s0, tr.prev), tr.event);
      }
    }
  }

  lemma DeliveredIsReady(p: Pipeline, s: State, e: Event)
    requires Inv(p, s) && Enabled(p, s, e) && e.Deliver?
    ensures ReportReady(p, s, e.report)
  {
  }

  /** A new scheduler's queue is current. */
  lemma StartsCurrent(p: Pipeline, runs: seq<Runs.TaskRun>, vars: VarMap, s0: State)
    requires WellFormed(p) && Opens(p, runs, vars, s0)
    ensures QueueIsCurrent(p, s0) && Inv(p, s0)
  {
    OpensWell(p, runs, vars, s0);
    var s := NewSchedulerBooks(p, runs, vars, s0);
    FirstQueueIs(p, s, s0);
    hide NewMemoryTaskRun, CurrentRun, Inv, Restore, NewScheduler, FirstQueue, RestoredResults, Opens, Doable;
    forall i | 0 <= i < |s0.taskCh| ensures CurrentRun(p, s0, s0.taskCh[i]) {
      NewRunIsCurrent(p, s, s0, s.vars, Doable(s, |p.tasks|)[i], 0);
    }
  }

  /** Every dispatched run, first try or retry, also while exiting, has all its inputs finally
      completed, and carries their results. */
  lemma DispatchedIsReady(p: Pipeline, runs: seq<Runs.TaskRun>, vars: VarMap, s0: State, tr: Trace, t: nat)
    requires WellFormed(p) && Opens(p, runs, vars, s0)
    requires tr.Then? && tr.event == Dispatch(t) && IsRun(p, s0, tr)
    ensures var s := After(p, s0, tr.prev);
      && s.taskCh != [] && s.taskCh[0].task == t && t < |p.tasks|
      && InputSet(p, t) <= Done(LedgerOf(s))
      && s.taskCh[0].inputs == InputsNow(p, s, t)
  {
    StartsCurrent(p, runs, vars, s0);
    hide Opens;
    RunKeeps(p, s0, tr.prev);
    RunKeepsCurrent(p, s0, tr.prev);
    hide Inv;
    assert CurrentRun(p, After(p, s0, tr.prev), After(p, s0, tr.prev).taskCh[0]);
    QueuedInputsAreDone(p, After(p, s0, tr.prev), 0);
  }

  /** A later try of a task gets the same inputs as an earlier one. */
  lemma RetriesGetSameInputs(p: Pipeline, runs: seq<Runs.TaskRun>, vars: VarMap, s0: State, tr: Trace,
      later: Trace, t: nat)
    requires WellFormed(p) && Opens(p, runs, vars, s0)
    requires IsRun(p, s0, tr) && tr.Then? && tr.event == Dispatch(t)
    requires IsRun(p, s0, later) && later.Then? && later.event == Dispatch(t) && Continues(tr.prev, later.prev)
    ensures After(p, s0, tr.prev).taskCh != [] && After(p, s0, later.prev).taskCh != []
    ensures After(p, s0, later.prev).taskCh[0].inputs == After(p, s0, tr.prev).taskCh[0].inputs
  {
    StartsCurrent(p, runs, vars, s0);
    DispatchedIsReady(p, runs, vars, s0, tr, t);
    DispatchedIsReady(p, runs, vars, s0, later, t);
    hide Inv, IsRun, After, QueueIsCurrent, InputsNow, Done, Opens;
    ContinuingIsStable(p, s0, tr.prev, later.prev);
    DoneInputsStay(p, After(p, s0, tr.prev), After(p, s0, later.prev), t);
  }

  // ----- the sum of the counters -----

  function SumOfCounters(deps: map<nat, nat>, n: nat): nat {
    if n == 0 then 0 else SumOfCounters(deps, n - 1) + (if n - 1 in deps then deps[n - 1] else 0)
  }

  /** The number of edges that leave tasks outside `done`. */
  ghost function OpenOutputs(p: Pipeline, done: set<nat>, n: nat): nat
    requires n <= |p.tasks|
  {
    if n == 0 then 0
    else OpenOutputs(p, done, n - 1) + (if n - 1 in done then 0 else |p.tasks[n - 1].outputs|)
  }

  /** 1 for an edge from a task outside `done`. */
  ghost function OpenEdge(p: Pipeline, done: set<nat>, u: nat, v: nat): nat {
    if v < |p.tasks| && u in InputSet(p, v) && u !in done then 1 else 0
  }

  ghost function OpenInto(p: Pipeline, done: set<nat>, v: nat, m: nat): nat {
    if m == 0 then 0 else OpenInto(p, done, v, m - 1) + OpenEdge(p, done, m - 1, v)
  }

  ghost function OpenFrom(p: Pipeline, done: set<nat>, u: nat, n: nat): nat {
    if n == 0 then 0 else OpenFrom(p, done, u, n - 1) + OpenEdge(p, done, u, n - 1)
  }

  ghost function ByTarget(p: Pipeline, done: set<nat>, n: nat, m: nat): nat {
    if n == 0 then 0 else ByTarget(p, done, n - 1, m) + OpenInto(p, done, n - 1, m)
  }

  ghost function BySource(p: Pipeline, done: set<nat>, m: nat, n: nat): nat {
    if m == 0 then 0 else BySource(p, done, m - 1, n) + OpenFrom(p, done, m - 1, n)
  }

  lemma {:induction false} BySourceStep(p: Pipeline, done: set<nat>, m: nat, n: nat)
    requires n > 0
    ensures BySource(p, done, m, n) == BySource(p, done, m, n - 1) + OpenInto(p, done, n - 1, m)
  {
    hide OpenEdge;
    if m > 0 {
      BySourceStep(p, done, m - 1, n);
    }
  }

  lemma {:induction false} BySourceNothing(p: Pipeline, done: set<nat>, m: nat)
    ensures BySource(p, done, m, 0) == 0
  {
    if m > 0 {
      BySourceNothing(p, done, m - 1);
    }
  }

  /** Open edges may be counted by their targets or by their sources. */
  lemma {:induction false} CountedBothWays(p: Pipeline, done: set<nat>, n: nat, m: nat)
    ensures ByTarget(p, done, n, m) == BySource(p, done, m, n)
  {
    hide OpenEdge, OpenInto, OpenFrom;
    if n == 0 {
      BySourceNothing(p, done, m);
    } else {
      CountedBothWays(p, done, n - 1, m);
      BySourceStep(p, done, m, n);
    }
  }

  function Members(a: set<nat>, n: nat): nat {
    if n == 0 then 0 else Members(a, n - 1) + (if n - 1 in a then 1 else 0)
  }

  lemma {:induction false} MembersWithout(a: set<nat>, x: nat, n: nat)
    requires n <= x
    ensures Members(a - {x}, n) == Members(a, n)
  {
    if n > 0 {
      MembersWithout(a, x, n - 1);
    }
  }

  lemma {:induction false} MembersAre(a: set<nat>, n: nat)
    requires forall x :: x in a ==> x < n
    ensures Members(a, n) == |a|
    decreases n
  {
    if n == 0 {
      assert a == {};
    } else {
      MembersAre(a - {n - 1}, n - 1);
      MembersWithout(a, n - 1, n - 1);
      assert a == if n - 1 in a then (a - {n - 1}) + {n - 1} else a - {n - 1};
    }
  }

  lemma {:induction false} OpenIntoIs(p: Pipeline, done: set<nat>, v: nat, m: nat)
    requires v < |p.tasks|
    ensures OpenInto(p, done, v, m) == Members(InputSet(p, v) - done, m)
  {
    hide InputSet;
    if m > 0 {
      OpenIntoIs(p, done, v, m - 1);
    }
  }

  lemma {:induction false} OpenFromIs(p: Pipeline, done: set<nat>, u: nat, n: nat, outs: set<nat>)
    requires WellFormed(p) && u < |p.tasks| && n <= |p.tasks|
    requires outs == if u in done then {} else SetOf(p.tasks[u].outputs)
    ensures OpenFrom(p, done, u, n) == Members(outs, n)
  {
    if n > 0 {
      OpenFromIs(p, done, u, n - 1, outs);
      assert n - 1 in p.tasks[u].outputs <==> u in InputSet(p, n - 1);
    }
  }

  ghost function SetOf(xs: seq<nat>): set<nat> {
    set x | x in xs
  }

  lemma {:induction false} DistinctCount(xs: seq<nat>)
    requires Distinct(xs)
    ensures |SetOf(xs)| == |xs|
  {
    if xs != [] {
      var init, last := xs[..|xs| - 1], xs[|xs| - 1];
      assert xs == init + [last];
      DistinctCount(init);
      assert SetOf(xs) == SetOf(init) + {last};
      assert last !in SetOf(init);
    }
  }

  lemma OpenOutputsOf(p: Pipeline, done: set<nat>, u: nat)
    requires WellFormed(p) && u < |p.tasks|
    ensures OpenFrom(p, done, u, |p.tasks|) == if u in done then 0 else |p.tasks[u].outputs|
  {
    var outs := if u in done then {} else SetOf(p.tasks[u].outputs);
    OutputsDistinct(p, u);
    DistinctCount(p.tasks[u].outputs);
    assert forall v :: v in outs ==> v < |p.tasks|;
    MembersAre(outs, |p.tasks|);
    OpenFromIs(p, done, u, |p.tasks|, outs);
  }

  lemma OpenInputsOf(p: Pipeline, done: set<nat>, v: nat)
    requires InRange(p) && v < |p.tasks|
    ensures OpenInto(p, done, v, |p.tasks|) == |InputSet(p, v) - done|
  {
    OpenIntoIs(p, done, v, |p.tasks|);
    MembersAre(InputSet(p, v) - done, |p.tasks|);
  }

  lemma {:induction false} CountersAreByTarget(p: Pipeline, deps: map<nat, nat>, done: set<nat>, n: nat)
    requires InRange(p) && n <= |p.tasks|
    requires forall t :: 0 <= t < n ==> t in deps && deps[t] == OpenInputs(p, t, done)
    ensures SumOfCounters(deps, n) == ByTarget(p, done, n, |p.tasks|)
  {
    hide OpenInto, InputSet, InRange;
    if n > 0 {
      CountersAreByTarget(p, deps, done, n - 1);
      OpenInputsOf(p, done, n - 1);
    }
  }

  lemma {:induction false} OutputsAreBySource(p: Pipeline, done: set<nat>, n: nat)
    requires WellFormed(p) && n <= |p.tasks|
    ensures OpenOutputs(p, done, n) == BySource(p, done, n, |p.tasks|)
  {
    hide OpenFrom, WellFormed;
    if n > 0 {
      OutputsAreBySource(p, done, n - 1);
      OpenOutputsOf(p, done, n - 1);
    }
  }

  /** Until exiting, the counters add up to the number of edges that leave tasks which are not finally
      completed. */
  lemma CountersAddUp(p: Pipeline, s: State)
    requires WellFormed(p) && Inv(p, s) && !s.exiting
    ensures SumOfCounters(s.dependencies, |p.tasks|) == OpenOutputs(p, Done(LedgerOf(s)), |p.tasks|)
  {
    var done, n := Done(LedgerOf(s)), |p.tasks|;
    assert CountersExact(p, LedgerOf(s));
    hide InRange, SortedLinks, InverseLinks, PositionalIds, Inv, InputSet;
    CountersAreByTarget(p, s.dependencies, done, n);
    OutputsAreBySource(p, done, n);
    CountedBothWays(p, done, n, n);
  }
}
