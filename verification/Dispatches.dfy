/** What a task run carries when it is dispatched, field by field: the results of its inputs in order,
    and variables in which each input is found under its name. */
module Dispatches {
  import opened Values
  import Keypaths
  import opened Ordering
  import opened Variables
  import opened Pipelines
  import opened Scheduling
  import opened Tokens
  import opened Releases
  import opened Ledgers
  import opened Invariants
  import opened Startup
  import opened FailEarly
  import opened Evaluation
  import opened Readiness
  import opened Determinism
  import Resume
  import Runs

  /** The variable of task `u` is the error of its result, or else its value. */
  ghost predicate HasVariable(p: Pipeline, results: map<nat, TaskRunResult>, vars: VarMap, u: nat) {
    && u < |p.tasks| && u in results && Name(p, u) in vars
    && match results[u].result.error
       case Some(e) => vars[Name(p, u)] == Scalar(Failure(e))
       case None => vars[Name(p, u)] == results[u].result.value
  }

  /** `vars` hold the results of the inputs of `t`. */
  ghost predicate Sees(p: Pipeline, results: map<nat, TaskRunResult>, vars: VarMap, t: nat) {
    t < |p.tasks| ==> forall u :: u in InputSet(p, t) ==> HasVariable(p, results, vars, u)
  }

  /** The variables that a token carries. */
  function Carried(g: Goroutine): VarMap
    requires !g.Reporting?
  {
    match g
    case Executing(run) => run.vars
    case Sleeping(_, _, vars) => vars
  }

  ghost predicate TokensSee(p: Pipeline, s: State) {
    && (forall run :: run in s.taskCh ==> Sees(p, s.results, run.vars, run.task))
    && (forall g :: g in s.goroutines && !g.Reporting? ==> Sees(p, s.results, Carried(g), g.Owner()))
  }

  /** Finally completed inputs stay visible. */
  lemma SeesStays(p: Pipeline, s: State, s': State, vars: VarMap, t: nat)
    requires Inv(p, s) && t in Owners(s) && Stable(LedgerOf(s), LedgerOf(s'))
    requires Sees(p, s.results, vars, t)
    ensures Sees(p, s'.results, vars, t)
  {
    assert t in LedgerOf(s).owners && OwnersReady(p, LedgerOf(s));
    StableKeepsDone(LedgerOf(s), LedgerOf(s'));
    hide Inv, Stable, Owners;
    assert t < |p.tasks| ==> forall u :: u in InputSet(p, t) ==> u in Done(LedgerOf(s)) && u in Done(LedgerOf(s'));
  }

  /** The variables of the scheduler show a token's inputs. */
  lemma SchedulerSees(p: Pipeline, before: VarMap, s: State, t: nat)
    requires Inv(p, s) && t in Owners(s) && Resume.VarsBooked(p, before, s.results, s.vars)
    ensures Sees(p, s.results, s.vars, t)
  {
    assert t in LedgerOf(s).owners && OwnersReady(p, LedgerOf(s));
    hide Inv, Owners, Keypaths.Trim;
    if t < |p.tasks| {
      forall u | u in InputSet(p, t) ensures HasVariable(p, s.results, s.vars, u) {
        assert u in Done(LedgerOf(s));
      }
    }
  }

  lemma QueuedOwner(s: State, run: MemoryTaskRun)
    requires run in s.taskCh
    ensures run.task in Owners(s)
  {
  }

  lemma LiveOwner(s: State, g: Goroutine)
    requires g in s.goroutines
    ensures g.Owner() in Owners(s)
  {
  }

  // ----- steps -----

  /** A token of `s'` was there before, or has the variables of the scheduler, which is not exiting. */
  ghost predicate OldOrCurrent(s: State, s': State) {
    && (forall run :: run in s'.taskCh ==> run in s.taskCh || (run.vars == s'.vars && !s'.exiting))
    && (forall g :: g in s'.goroutines && !g.Reporting? ==>
          g in s.goroutines || (Carried(g) == s'.vars && !s'.exiting))
  }

  lemma SeeAfterStep(p: Pipeline, before: VarMap, s: State, s': State)
    requires Inv(p, s) && Inv(p, s') && Stable(LedgerOf(s), LedgerOf(s')) && TokensSee(p, s) && OldOrCurrent(s, s')
    requires s'.exiting || Resume.VarsBooked(p, before, s'.results, s'.vars)
    ensures TokensSee(p, s')
  {
    hide Inv, Stable, Sees, Resume.VarsBooked, Owners;
    forall run | run in s'.taskCh ensures Sees(p, s'.results, run.vars, run.task) {
      if run in s.taskCh {
        QueuedOwner(s, run);
        SeesStays(p, s, s', run.vars, run.task);
      } else {
        QueuedOwner(s', run);
        SchedulerSees(p, before, s', run.task);
      }
    }
    forall g | g in s'.goroutines && !g.Reporting? ensures Sees(p, s'.results, Carried(g), g.Owner()) {
      if g in s.goroutines {
        LiveOwner(s, g);
        SeesStays(p, s, s', Carried(g), g.Owner());
      } else {
        LiveOwner(s', g);
        SchedulerSees(p, before, s', g.Owner());
      }
    }
  }

  lemma ReleasedAreCurrent(p: Pipeline, s: State, outs: seq<nat>)
    requires InRange(p) && Distinct(outs) && forall i :: 0 <= i < |outs| ==> outs[i] < |p.tasks|
    requires !s.exiting
    ensures OldOrCurrent(s, Release(p, s, outs))
  {
    hide Decremented, Distinct, Freed, Release, InRange;
    ReleaseQueues(p, s, outs);
    var freed, s' := Freed(s.dependencies, outs), Release(p, s, outs);
    FreedAreOutputs(s.dependencies, outs);
    NewRunsAre(p, s, freed);
    forall run | run in s'.taskCh ensures run in s.taskCh || run.vars == s'.vars {
      if run in NewRuns(p, s, freed) {
        var i :| 0 <= i < |freed| && NewRuns(p, s, freed)[i] == run;
      }
    }
  }

  lemma ReportTokensAre(p: Pipeline, s: State, r: TaskRunResult, now: int)
    requires WellFormed(p) && r.task < |p.tasks| && s.waiting > 0
    ensures OldOrCurrent(s, Receive(p, s, r, now))
  {
    hide SetVariable, MarkRemaining, NewMemoryTaskRun, SortedLinks, InverseLinks, Release, Counted;
    var s2 := StoreVariable(p, StoreReport(s, r), r, now);
    assert s2.taskCh == s.taskCh && forall g :: g in s2.goroutines ==> g in s.goroutines;
    if !r.isPending && !s2.exiting {
      if MustRetry(p, Counted(s, r).attempts, r) {
        SleeperIsCurrent(s, s2, r.task, Counted(s, r).attempts);
      } else {
        OutputsDistinct(p, r.task);
        ReleasedAreCurrent(p, s2, p.tasks[r.task].outputs);
        hide WellFormed;
      }
    }
  }

  lemma SleeperIsCurrent(s: State, s2: State, t: nat, attempts: nat)
    requires s2.taskCh == s.taskCh && (forall g :: g in s2.goroutines ==> g in s.goroutines) && !s2.exiting
    ensures OldOrCurrent(s, ScheduleRetry(s2, t, attempts))
  {
    var s' := ScheduleRetry(s2, t, attempts);
    assert forall g :: g in s'.goroutines ==> g in s2.goroutines || g == Sleeping(t, attempts, s2.vars);
  }

  lemma BecomeSees(p: Pipeline, s: State, before: Goroutine, report: TaskRunResult)
    requires TokensSee(p, s)
    ensures TokensSee(p, Become(s, before, Reporting(report)))
  {
    hide Sees;
    var s' := Become(s, before, Reporting(report));
    assert forall g :: g in s'.goroutines ==> g in s.goroutines || g == Reporting(report);
  }

  lemma DispatchSees(p: Pipeline, s: State, s': State)
    requires TokensSee(p, s) && s.taskCh != [] && s'.results == s.results
    requires s'.taskCh == s.taskCh[1..] && s'.goroutines == s.goroutines + multiset{Executing(s.taskCh[0])}
    ensures TokensSee(p, s')
  {
    hide Sees;
    assert forall g :: g in s'.goroutines ==> g in s.goroutines || g == Executing(s.taskCh[0]);
    assert s.taskCh[0] in s.taskCh && forall run :: run in s'.taskCh ==> run in s.taskCh;
  }

  lemma FireSees(p: Pipeline, s: State, g: Goroutine, run: MemoryTaskRun, s': State)
    requires TokensSee(p, s) && g in s.goroutines && g.Sleeping? && s'.results == s.results
    requires run.task == g.task && run.vars == g.vars
    requires s'.taskCh == s.taskCh + [run] && s'.goroutines == s.goroutines - multiset{g}
    ensures TokensSee(p, s')
  {
    hide Sees;
    assert Sees(p, s.results, Carried(g), g.Owner());
    assert forall h :: h in s'.goroutines ==> h in s.goroutines;
  }

  lemma MoveSees(p: Pipeline, s: State, e: Event)
    requires InRange(p) && TokensSee(p, s) && Enabled(p, s, e) && !e.Deliver? && !e.Drop?
    ensures TokensSee(p, Apply(p, s, e))
  {
    hide TokensSee, RunInputs, InRange, Receive, Become;
    var s' := Apply(p, s, e);
    match e
    case Dispatch(_) => DispatchSees(p, s, s');
    case Finish(run, result, isPending, now) => BecomeSees(p, s, Executing(run), Executed(run, result, isPending, now));
    case Panic(run, detail, now) => BecomeSees(p, s, Executing(run), Errored(run.task, Panicked(detail), now));
    case Cancel(g, now) => BecomeSees(p, s, g, Errored(g.task, Cancelled, now));
    case Fire(g) =>
      FireSees(p, s, g, NewMemoryTaskRun(p, s.results, g.vars, g.task, g.attempts), s');
    case _ => SameSee(p, s, s');
  }

  lemma SameSee(p: Pipeline, s: State, s': State)
    requires TokensSee(p, s)
    requires s'.taskCh == s.taskCh && s'.goroutines == s.goroutines && s'.results == s.results
    ensures TokensSee(p, s')
  {
  }

  lemma ReportSees(p: Pipeline, before: VarMap, s: State, r: TaskRunResult, now: int)
    requires WellFormed(p) && PlainDotIDs(p) && ReportReady(p, s, r) && TokensSee(p, s)
    requires s.exiting || Resume.VarsBooked(p, before, s.results, s.vars)
    ensures TokensSee(p, Receive(p, s, r, now))
  {
    DeliverStep(p, s, r, now);
    ReportTokensAre(p, s, r, now);
    if s.exiting {
      ExitsForGood(p, s, r, now);
    } else {
      Resume.BookedReceive(p, before, s, r, now);
    }
    hide Receive, Inv, Stable, TokensSee, OldOrCurrent, Resume.VarsBooked, PlainDotIDs, WellFormed;
    SeeAfterStep(p, before, s, Receive(p, s, r, now));
  }

  lemma ExitsForGood(p: Pipeline, s: State, r: TaskRunResult, now: int)
    requires InRange(p) && r.task < |p.tasks| && s.waiting > 0 && s.exiting
    ensures Receive(p, s, r, now).exiting
  {
    hide SetVariable, MarkRemaining;
  }

  // ----- the start -----

  /** A new scheduler's queue sees its inputs. */
  lemma StartsSeeing(p: Pipeline, runs: seq<Runs.TaskRun>, vars: VarMap, s0: State)
    requires WellFormed(p) && PlainDotIDs(p) && Opens(p, runs, vars, s0)
    ensures Inv(p, s0) && TokensSee(p, s0) && Resume.VarsBooked(p, vars, s0.results, s0.vars) && !s0.exiting
  {
    hide Inv, Restore, NewScheduler, RestoredResults, Sees, FirstQueue, Doable, Resume.VarsBooked, PlainDotIDs,
      Owners, SortedLinks, InverseLinks, PositionalIds, InRange, Fresh, Known, TokensSee, DistinctRuns, ClosedRuns;
    OpensWell(p, runs, vars, s0);
    var s := NewSchedulerBooks(p, runs, vars, s0);
    Resume.RestoredIsBooked(p, runs, vars, s);
    FreshIsQuiet(s0);
    FirstQueueSees(p, vars, s, s0);
  }

  lemma FreshIsQuiet(s: State)
    requires Fresh(s)
    ensures s.goroutines == multiset{} && !s.exiting
  {
    hide Owners;
  }

  lemma FirstQueueSees(p: Pipeline, vars: VarMap, s: State, s0: State)
    requires InRange(p) && Inv(p, s0) && FirstQueue(p, s, s0) && s0.goroutines == multiset{} && s0.vars == s.vars
    requires Resume.VarsBooked(p, vars, s0.results, s0.vars)
    ensures TokensSee(p, s0)
  {
    hide Inv, Sees, FirstQueue, Doable, Resume.VarsBooked, Owners, InRange, RunInputs;
    FirstQueueIs(p, s, s0);
    forall run | run in s0.taskCh ensures Sees(p, s0.results, run.vars, run.task) {
      var i :| 0 <= i < |s0.taskCh| && s0.taskCh[i] == run;
      QueuedOwner(s0, run);
      SchedulerSees(p, vars, s0, run.task);
    }
  }

  // ----- runs -----

  lemma {:induction false} RunSees(p: Pipeline, before: VarMap, s0: State, tr: Trace)
    requires WellFormed(p) && PlainDotIDs(p) && Inv(p, s0) && IsRun(p, s0, tr) && TokensSee(p, s0)
    requires Resume.VarsBooked(p, before, s0.results, s0.vars)
    ensures TokensSee(p, After(p, s0, tr))
  {
    hide Inv, TokensSee, PlainDotIDs, Resume.VarsBooked, Apply, Enabled;
    if tr.Then? {
      var s := After(p, s0, tr.prev);
      RunSees(p, before, s0, tr.prev);
      RunKeeps(p, s0, tr.prev);
      if !s.exiting {
        Resume.BookedRun(p, before, s0, tr.prev);
      }
      StepSees(p, before, s, tr.event);
    }
  }

  lemma StepSees(p: Pipeline, before: VarMap, s: State, e: Event)
    requires WellFormed(p) && PlainDotIDs(p) && Inv(p, s) && Enabled(p, s, e) && TokensSee(p, s)
    requires s.exiting || Resume.VarsBooked(p, before, s.results, s.vars)
    ensures TokensSee(p, Apply(p, s, e))
  {
    hide Inv, TokensSee, PlainDotIDs, Resume.VarsBooked, Receive, SortedLinks, InverseLinks, PositionalIds, InRange;
    NothingToDrop(p, s, e);
    if e.Deliver? {
      DeliveredIsReady(p, s, e);
      ReportSees(p, before, s, e.report, e.now);
    } else {
      MoveSees(p, s, e);
    }
  }

  lemma NameIsFound(p: Pipeline, results: map<nat, TaskRunResult>, vars: VarMap, u: nat)
    requires PlainDotIDs(p) && HasVariable(p, results, vars, u)
    ensures match results[u].result.error
      case Some(e) => Lookup(vars, p.tasks[u].dotID) == Ok(Scalar(Failure(e)))
      case None => Lookup(vars, p.tasks[u].dotID) == Ok(results[u].result.value)
  {
    assert VarName(p.tasks[u].dotID) == Ok(Name(p, u));
    LookupOfName(vars, p.tasks[u].dotID);
    hide Lookup, PlainDotIDs;
  }

  /** Every dispatched run, first try or retry, also while exiting, finds each of its inputs under its
      name: the error that the input ended with, or else its value. */
  lemma DispatchedSeesInputs(p: Pipeline, runs: seq<Runs.TaskRun>, vars: VarMap, s0: State, tr: Trace, t: nat, u: nat)
    requires WellFormed(p) && PlainDotIDs(p) && Opens(p, runs, vars, s0)
    requires tr.Then? && tr.event == Dispatch(t) && IsRun(p, s0, tr) && t < |p.tasks| && u in InputSet(p, t)
    ensures var s := After(p, s0, tr.prev);
      && s.taskCh != [] && s.taskCh[0].task == t && u in s.results && u < |p.tasks|
      && match s.results[u].result.error
         case Some(e) => Lookup(s.taskCh[0].vars, p.tasks[u].dotID) == Ok(Scalar(Failure(e)))
         case None => Lookup(s.taskCh[0].vars, p.tasks[u].dotID) == Ok(s.results[u].result.value)
  {
    StartsSeeing(p, runs, vars, s0);
    var s := After(p, s0, tr.prev);
    assert s.taskCh != [] && s.taskCh[0].task == t;
    hide Inv, Opens, Resume.VarsBooked, IsRun, After, PlainDotIDs, HasVariable, WellFormed, Lookup;
    RunSees(p, vars, s0, tr.prev);
    assert s.taskCh[0] in s.taskCh;
    assert HasVariable(p, s.results, s.taskCh[0].vars, u);
    HasVariableHas(p, s.results, s.taskCh[0].vars, u);
    NameIsFound(p, s.results, s.taskCh[0].vars, u);
  }

  lemma HasVariableHas(p: Pipeline, results: map<nat, TaskRunResult>, vars: VarMap, u: nat)
    requires HasVariable(p, results, vars, u)
    ensures u < |p.tasks| && u in results
  {
  }

  /** And it carries the results of exactly those inputs that propagate, one each, in the order of
      their output indices. */
  lemma DispatchedGetsInputs(p: Pipeline, runs: seq<Runs.TaskRun>, vars: VarMap, s0: State, tr: Trace, t: nat)
      returns (es: seq<Entry<Result>>)
    requires WellFormed(p) && Opens(p, runs, vars, s0)
    requires tr.Then? && tr.event == Dispatch(t) && IsRun(p, s0, tr)
    ensures var s := After(p, s0, tr.prev);
      && s.taskCh != [] && s.taskCh[0].task == t && t < |p.tasks|
      && Sorted(es) && |es| == |s.taskCh[0].inputs| == Propagating(p.tasks[t].inputs)
      && (forall i :: 0 <= i < |es| ==> s.taskCh[0].inputs[i] == es[i].item)
      && (forall e :: e in es <==> exists d ::
            && d in p.tasks[t].inputs && d.propagateResult && d.inputTask < |p.tasks| && d.inputTask in s.results
            && e == Entry(p.tasks[d.inputTask].index, s.results[d.inputTask].result))
  {
    DispatchedIsReady(p, runs, vars, s0, tr, t);
    var s := After(p, s0, tr.prev);
    hide Opens, IsRun, After;
    es := RunInputsAreSorted(p, t, PlainResults(s.results));
    InputsHaveResults(p, s, t);
    hide RunInputs, WellFormed, Done;
  }

  lemma InputsHaveResults(p: Pipeline, s: State, t: nat)
    requires t < |p.tasks| && InputSet(p, t) <= Done(LedgerOf(s))
    ensures forall d :: d in p.tasks[t].inputs ==> d.inputTask in s.results
  {
    forall d | d in p.tasks[t].inputs ensures d.inputTask in s.results {
      assert d.inputTask in InputSet(p, t);
    }
  }

  /** Until the scheduler exits, the variable of every task with a result that is not pending, retried
      or not, is the error of that result, or else its value. */
  lemma VariablesFollowResults(p: Pipeline, runs: seq<Runs.TaskRun>, vars: VarMap, s0: State, tr: Trace, t: nat)
    requires WellFormed(p) && PlainDotIDs(p) && Opens(p, runs, vars, s0)
    requires IsRun(p, s0, tr) && !After(p, s0, tr).exiting
    requires t in After(p, s0, tr).results && !After(p, s0, tr).results[t].isPending
    ensures HasVariable(p, After(p, s0, tr).results, After(p, s0, tr).vars, t)
  {
    StartsSeeing(p, runs, vars, s0);
    hide Inv, Opens, PlainDotIDs, WellFormed, IsRun, After, TokensSee, Keypaths.Trim;
    Resume.BookedRun(p, vars, s0, tr);
  }
}
