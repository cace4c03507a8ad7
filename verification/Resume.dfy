/** Suspending a run and resuming it: a new scheduler built from the saved task runs continues where
    the old one stopped. */
module Resume {
  import opened Values
  import opened Ordering
  import opened Variables
  import opened Pipelines
  import opened Runs
  import opened Scheduling
  import opened Tokens
  import opened Releases
  import opened Ledgers
  import opened Invariants
  import opened Startup
  import opened Completeness
  import opened Evaluation
  import opened FailEarly

  // ----- saving -----

  /** The task run that the runner records for a result. */
  function SavedRun(p: Pipeline, t: nat, r: TaskRunResult): TaskRun
    requires t < |p.tasks|
  {
    TaskRun(p.tasks[t].dotID, p.tasks[t].index, OutputDB(r.result), ErrorDB(r.result), r.finishedAt)
  }

  /** The results of a run, saved in some order. */
  function SavedRuns(p: Pipeline, results: map<nat, TaskRunResult>, order: seq<nat>): seq<TaskRun>
    requires forall i :: 0 <= i < |order| ==> order[i] < |p.tasks| && order[i] in results
  {
    if order == [] then []
    else SavedRuns(p, results, order[..|order| - 1]) + [SavedRun(p, order[|order| - 1], results[order[|order| - 1]])]
  }

  /** `order` lists each task that has a result once. */
  ghost predicate Enumerates(p: Pipeline, results: map<nat, TaskRunResult>, order: seq<nat>) {
    && Distinct(order)
    && (forall i :: 0 <= i < |order| ==> order[i] < |p.tasks| && order[i] in results)
    && (forall t :: t in results ==> t in order)
  }

  /** Saved and read back, a result is pending exactly if it was pending. This holds of every
      report that is finished when it is not pending, and bare when it is. */
  ghost predicate Faithful(r: TaskRunResult) {
    r.isPending <==> r.finishedAt.None? && !OutputDB(r.result).valid && r.result.error.None?
  }

  /** A result after saving and reconstruction: values survive (nil pointers become nil), errors keep
      their message. */
  function Roundtrip(r: Result): Result {
    Result(
      if OutputDB(r).valid then r.value else NIL_VALUE,
      match r.error case None => None case Some(e) => Some(Restored(Message(e))))
  }

  lemma SavedResultRoundtrips(p: Pipeline, t: nat, r: TaskRunResult)
    requires t < |p.tasks|
    ensures SavedResult(SavedRun(p, t, r)) == Roundtrip(r.result)
    ensures ErrorDB(Roundtrip(r.result)) == ErrorDB(r.result)
    ensures OutputDB(r.result).valid ==> Roundtrip(r.result).value == r.result.value
    ensures !OutputDB(r.result).valid ==> Roundtrip(r.result).value == NIL_VALUE
    ensures Faithful(r) ==> (IsPending(SavedRun(p, t, r)) <==> r.isPending)
    ensures Faithful(r) && !r.isPending ==> Faithful(RestoredResult(t, SavedRun(p, t, r)))
  {
  }

  /** Why pending reports have to be bare: saved and read back, a pending result is still pending
      exactly if it has neither a value nor an error; otherwise it counts as finished. */
  lemma PendingSurvivesIffBare(p: Pipeline, s: State, t: nat, r: TaskRunResult)
    requires t < |p.tasks| && FindDotID(p, p.tasks[t].dotID) == Some(t)
    requires r.isPending && r.finishedAt.None?
    ensures IsPending(SavedRun(p, t, r)) <==> r.result.value in {NIL_VALUE, Scalar(NilPointer)} && r.result.error.None?
    ensures RestoreOne(p, s, SavedRun(p, t, r)) == Some(
      if r.result.value in {NIL_VALUE, Scalar(NilPointer)} && r.result.error.None? then s
      else RestoreFinished(p, s, t, SavedRun(p, t, r)))
  {
    hide RestoreFinished;
  }

  // ----- pending reports are bare -----

  /** A task that stays pending returns neither a value nor an error. */
  ghost predicate BarePending(e: Event) {
    e.Finish? && e.isPending ==> !OutputDB(e.result).valid && e.result.error.None?
  }

  ghost predicate AllBarePending(tr: Trace) {
    tr.Then? ==> AllBarePending(tr.prev) && BarePending(tr.event)
  }

  ghost predicate AllFaithful(s: State) {
    && (forall t :: t in s.results ==> Faithful(s.results[t]))
    && (forall g :: g in s.goroutines && g.Reporting? ==> Faithful(g.report))
  }

  lemma FaithfulExit(p: Pipeline, results: map<nat, TaskRunResult>, err: GoError, now: int)
    requires forall t :: t in results ==> Faithful(results[t])
    ensures forall t :: t in MarkRemaining(p, results, err, now) ==> Faithful(MarkRemaining(p, results, err, now)[t])
  {
  }

  lemma FaithfulStored(s: State, r: TaskRunResult)
    requires s.waiting > 0 && AllFaithful(s) && Reporting(r) in s.goroutines
    ensures AllFaithful(StoreReport(s, r))
  {
    var s1 := StoreReport(s, r);
    assert Faithful(r) && Faithful(Counted(s, r)) == Faithful(r) by {
      CountedFaithful(s, r);
    }
    hide Faithful;
    assert forall g :: g in s1.goroutines ==> g in s.goroutines;
  }

  lemma FaithfulVariable(p: Pipeline, s1: State, r: TaskRunResult, now: int)
    requires r.task < |p.tasks| && AllFaithful(s1)
    ensures AllFaithful(StoreVariable(p, s1, r, now))
  {
    hide SetVariable, MarkRemaining, Faithful;
    FaithfulExit(p, s1.results, Cancelled, now);
  }

  lemma CountedFaithful(s: State, r: TaskRunResult)
    ensures Faithful(Counted(s, r)) == Faithful(r)
  {
  }

  lemma FaithfulReceive(p: Pipeline, s: State, r: TaskRunResult, now: int)
    requires WellFormed(p) && r.task < |p.tasks| && s.waiting > 0 && AllFaithful(s) && Reporting(r) in s.goroutines
    ensures AllFaithful(Receive(p, s, r, now))
  {
    hide NewMemoryTaskRun, StoreVariable, StoreReport, Faithful, SortedLinks, InverseLinks, Decremented;
    var s1 := StoreReport(s, r);
    FaithfulStored(s, r);
    if !r.isPending {
      var s2 := StoreVariable(p, s1, r, now);
      FaithfulVariable(p, s1, r, now);
      if !s2.exiting && !MustRetry(p, Counted(s, r).attempts, r) {
        OutputsDistinct(p, r.task);
        ReleaseQueues(p, s2, p.tasks[r.task].outputs);
      }
    }
  }

  lemma FaithfulBecome(s: State, before: Goroutine, r: TaskRunResult)
    requires AllFaithful(s) && Faithful(r)
    ensures AllFaithful(Become(s, before, Reporting(r)))
  {
    hide Faithful;
  }

  lemma FaithfulSame(s: State, s': State)
    requires AllFaithful(s) && s'.results == s.results
    requires forall g :: g in s'.goroutines && g.Reporting? ==> g in s.goroutines
    ensures AllFaithful(s')
  {
    hide Faithful;
  }

  lemma FaithfulStep(p: Pipeline, s: State, e: Event)
    requires WellFormed(p) && AllFaithful(s) && Enabled(p, s, e) && BarePending(e)
    ensures AllFaithful(Apply(p, s, e))
  {
    hide NewMemoryTaskRun, Receive, SortedLinks, InverseLinks, AllFaithful, Become;
    match e
    case Finish(run, result, isPending, now) =>
      FaithfulBecome(s, Executing(run), Executed(run, result, isPending, now));
    case Panic(run, detail, now) =>
      FaithfulBecome(s, Executing(run), Errored(run.task, Panicked(detail), now));
    case Cancel(g, now) =>
      FaithfulBecome(s, g, Errored(g.task, Cancelled, now));
    case Deliver(r, now) => FaithfulReceive(p, s, r, now);
    case _ => FaithfulSame(s, Apply(p, s, e));
  }

  lemma {:induction false} FaithfulRun(p: Pipeline, s0: State, tr: Trace)
    requires WellFormed(p) && AllFaithful(s0) && IsRun(p, s0, tr) && AllBarePending(tr)
    ensures AllFaithful(After(p, s0, tr))
  {
    hide AllFaithful, Apply, Enabled, BarePending;
    if tr.Then? {
      FaithfulRun(p, s0, tr.prev);
      FaithfulStep(p, After(p, s0, tr.prev), tr.event);
    }
  }

  // ----- what reconstruction restores -----

  ghost predicate NamesResult(p: Pipeline, results: map<nat, TaskRunResult>, x: string) {
    exists t :: t in results && t < |p.tasks| && Name(p, t) == x
  }

  /** Saved run `tr` is restored: its result, and its value or error as the variable of its task. */
  ghost predicate RestoredRun(p: Pipeline, tr: TaskRun, results: map<nat, TaskRunResult>, vars: VarMap) {
    var t := FindDotID(p, tr.dotID);
    && t.Some?
    && t.value in results && results[t.value] == RestoredResult(t.value, tr)
    && Name(p, t.value) in vars && vars[Name(p, t.value)] == VarValue(SavedResult(tr))
  }

  ghost predicate RestoredRuns(p: Pipeline, runs: seq<TaskRun>, results: map<nat, TaskRunResult>, vars: VarMap) {
    forall i :: 0 <= i < |runs| && !IsPending(runs[i]) ==> RestoredRun(p, runs[i], results, vars)
  }

  /** Variables that belong to no restored task are as they were. */
  ghost predicate OthersKept(p: Pipeline, before: VarMap, results: map<nat, TaskRunResult>, vars: VarMap) {
    forall x :: !NamesResult(p, results, x) ==> SameEntry(before, vars, x)
  }

  lemma AssignedVariable(p: Pipeline, vars: VarMap, t: nat, r: Result)
    requires PlainDotIDs(p) && t < |p.tasks|
    ensures SetVariable(p, vars, t, r) == vars[Name(p, t) := VarValue(r)]
  {
    hide Keypaths.Trim;
  }

  lemma RestoredRunSurvives(p: Pipeline, tr: TaskRun, results: map<nat, TaskRunResult>, vars: VarMap, t: nat,
      r: TaskRunResult, v: Value)
    requires PlainDotIDs(p) && RestoredRun(p, tr, results, vars) && t < |p.tasks| && FindDotID(p, tr.dotID) != Some(t)
    ensures RestoredRun(p, tr, results[t := r], vars[Name(p, t) := v])
  {
    assert FindDotID(p, tr.dotID).value != t;
  }

  lemma RestoredRunsAfterOne(p: Pipeline, init: seq<TaskRun>, tr: TaskRun, s: State, t: nat)
    requires PlainDotIDs(p) && RestoredRuns(p, init, s.results, s.vars) && t !in s.results
    requires t < |p.tasks| && FindDotID(p, tr.dotID) == Some(t) && !IsPending(tr)
    ensures RestoredRuns(p, init + [tr], RestoreFinished(p, s, t, tr).results, RestoreFinished(p, s, t, tr).vars)
  {
    hide PlainDotIDs, SetVariable, FindDotID;
    AssignedVariable(p, s.vars, t, SavedResult(tr));
    var s' := RestoreFinished(p, s, t, tr);
    forall i | 0 <= i < |init + [tr]| && !IsPending((init + [tr])[i])
      ensures RestoredRun(p, (init + [tr])[i], s'.results, s'.vars)
    {
      if i < |init| {
        RestoredRunSurvives(p, init[i], s.results, s.vars, t, RestoredResult(t, tr), VarValue(SavedResult(tr)));
      }
    }
  }

  lemma OthersKeptAfterOne(p: Pipeline, before: VarMap, s: State, t: nat, tr: TaskRun)
    requires PlainDotIDs(p) && OthersKept(p, before, s.results, s.vars) && t < |p.tasks|
    ensures OthersKept(p, before, RestoreFinished(p, s, t, tr).results, RestoreFinished(p, s, t, tr).vars)
  {
    hide PlainDotIDs, SetVariable, Decremented;
    AssignedVariable(p, s.vars, t, SavedResult(tr));
    var s' := RestoreFinished(p, s, t, tr);
    assert t in s'.results;
    forall x ensures NamesResult(p, s'.results, x) <==> NamesResult(p, s.results, x) || x == Name(p, t) {
      if u :| u in s.results && u < |p.tasks| && Name(p, u) == x {
        assert u in s'.results;
      }
    }
  }

  /** Reconstruction restores every finished run, and nothing else. */
  lemma {:induction false} RestoreRestores(p: Pipeline, runs: seq<TaskRun>, vars: VarMap)
    requires WellFormed(p) && PlainDotIDs(p) && Known(p, runs) && DistinctRuns(runs)
    ensures var r := Restore(p, EmptyState(p, vars), runs);
      && r.Some? && RestoredRuns(p, runs, r.value.results, r.value.vars)
      && OthersKept(p, vars, r.value.results, r.value.vars)
  {
    hide PlainDotIDs, RestoredRuns, OthersKept, RestoreFinished, InitialCounters;
    if runs == [] {
      NothingRestored(p, vars);
    } else {
      var init, tr := runs[..|runs| - 1], runs[|runs| - 1];
      assert runs == init + [tr];
      RestoreRestores(p, init, vars);
      RestoreCounts(p, init, vars);
      var s := Restore(p, EmptyState(p, vars), init).value;
      var t := FindDotID(p, tr.dotID).value;
      if IsPending(tr) {
        PendingIsNotRestored(p, init, tr, s);
      } else {
        NotYetFinished(p, init, tr, t);
        RestoredRunsAfterOne(p, init, tr, s, t);
        OthersKeptAfterOne(p, vars, s, t, tr);
      }
    }
  }

  lemma NothingRestored(p: Pipeline, vars: VarMap)
    ensures RestoredRuns(p, [], map[], vars) && OthersKept(p, vars, map[], vars)
  {
  }

  lemma PendingIsNotRestored(p: Pipeline, init: seq<TaskRun>, tr: TaskRun, s: State)
    requires RestoredRuns(p, init, s.results, s.vars) && IsPending(tr)
    ensures RestoredRuns(p, init + [tr], s.results, s.vars)
  {
    hide RestoredRun;
  }

  // ----- the order of saved runs -----

  ghost predicate SameRuns(xs: seq<TaskRun>, ys: seq<TaskRun>) {
    forall tr :: tr in xs <==> tr in ys
  }

  lemma RunIsRestored(p: Pipeline, runs: seq<TaskRun>, t: nat, tr: TaskRun, results: map<nat, TaskRunResult>,
      vars: VarMap)
    requires tr in runs && !IsPending(tr) && FindDotID(p, tr.dotID) == Some(t) && t < |p.tasks|
    requires RestoredRuns(p, runs, results, vars)
    ensures t in results && results[t] == RestoredResult(t, tr)
    ensures Name(p, t) in vars && vars[Name(p, t)] == VarValue(SavedResult(tr))
  {
    var i :| 0 <= i < |runs| && runs[i] == tr;
  }

  lemma CountsAreDetermined(p: Pipeline, a: map<nat, nat>, b: map<nat, nat>, done: set<nat>)
    requires Counts(p, a, done) && Counts(p, b, done)
    ensures a == b
  {
  }

  lemma ResultAgrees(p: Pipeline, xs: seq<TaskRun>, ys: seq<TaskRun>, a: State, b: State, t: nat)
    requires SameRuns(xs, ys) && RestoredResults(p, xs, a.results) && t in a.results
    requires RestoredRuns(p, xs, a.results, a.vars) && RestoredRuns(p, ys, b.results, b.vars)
    ensures t in b.results && t < |p.tasks| && a.results[t] == b.results[t]
    ensures Name(p, t) in a.vars && Name(p, t) in b.vars && a.vars[Name(p, t)] == b.vars[Name(p, t)]
  {
    hide FindDotID, RestoredRuns;
    assert Finished(p, xs, t);
    var i :| 0 <= i < |xs| && !IsPending(xs[i]) && FindDotID(p, xs[i].dotID) == Some(t);
    RunIsRestored(p, xs, t, xs[i], a.results, a.vars);
    RunIsRestored(p, ys, t, xs[i], b.results, b.vars);
  }

  lemma SameResults(p: Pipeline, xs: seq<TaskRun>, ys: seq<TaskRun>, a: State, b: State)
    requires SameRuns(xs, ys) && RestoredResults(p, xs, a.results) && RestoredResults(p, ys, b.results)
    requires RestoredRuns(p, xs, a.results, a.vars) && RestoredRuns(p, ys, b.results, b.vars)
    ensures a.results == b.results
  {
    hide RestoredRuns;
    forall t ensures t in a.results <==> t in b.results {
      if t in a.results {
        ResultAgrees(p, xs, ys, a, b, t);
      } else if t in b.results {
        ResultAgrees(p, ys, xs, b, a, t);
      }
    }
    forall t | t in a.results ensures a.results[t] == b.results[t] {
      ResultAgrees(p, xs, ys, a, b, t);
    }
  }

  lemma SameEntriesSameMap(u: VarMap, v: VarMap)
    requires forall x :: SameEntry(u, v, x)
    ensures u == v
  {
    assert forall x :: x in u ==> SameEntry(u, v, x);
    assert forall x :: x in v ==> SameEntry(u, v, x);
  }

  lemma SameVars(p: Pipeline, before: VarMap, xs: seq<TaskRun>, ys: seq<TaskRun>, a: State, b: State)
    requires SameRuns(xs, ys) && RestoredResults(p, xs, a.results) && a.results == b.results
    requires RestoredRuns(p, xs, a.results, a.vars) && RestoredRuns(p, ys, b.results, b.vars)
    requires OthersKept(p, before, a.results, a.vars) && OthersKept(p, before, b.results, b.vars)
    ensures a.vars == b.vars
  {
    hide RestoredRuns, RestoredResults;
    forall x ensures SameEntry(a.vars, b.vars, x) {
      if NamesResult(p, a.results, x) {
        var t :| t in a.results && t < |p.tasks| && Name(p, t) == x;
        ResultAgrees(p, xs, ys, a, b, t);
      } else {
        assert SameEntry(before, a.vars, x) && SameEntry(before, b.vars, x);
      }
    }
    SameEntriesSameMap(a.vars, b.vars);
  }

  /** The order of the saved task runs does not matter, nor do pending ones. */
  lemma OrderOfRunsIsIrrelevant(p: Pipeline, xs: seq<TaskRun>, ys: seq<TaskRun>, vars: VarMap)
    requires WellFormed(p) && PlainDotIDs(p) && SameRuns(xs, ys)
    requires Known(p, xs) && Known(p, ys) && DistinctRuns(xs) && DistinctRuns(ys)
    ensures NewScheduler(p, xs, vars) == NewScheduler(p, ys, vars)
  {
    hide PlainDotIDs, RestoredRuns, OthersKept, RestoredResults, InitialCounters, SameRuns, Counts, ScheduleFirst;
    RestoreCounts(p, xs, vars);
    RestoreCounts(p, ys, vars);
    RestoreRestores(p, xs, vars);
    RestoreRestores(p, ys, vars);
    var a, b := Restore(p, EmptyState(p, vars), xs).value, Restore(p, EmptyState(p, vars), ys).value;
    SameResults(p, xs, ys, a, b);
    SameVars(p, vars, xs, ys, a, b);
    CountsAreDetermined(p, a.dependencies, b.dependencies, a.results.Keys);
    assert a == b;
  }

  // ----- the saved runs of a suspended run -----

  lemma {:induction false} SavedRunsAre(p: Pipeline, results: map<nat, TaskRunResult>, order: seq<nat>)
    requires forall i :: 0 <= i < |order| ==> order[i] < |p.tasks| && order[i] in results
    ensures |SavedRuns(p, results, order)| == |order|
    ensures forall i :: 0 <= i < |order| ==> SavedRuns(p, results, order)[i] == SavedRun(p, order[i], results[order[i]])
  {
    if order != [] {
      SavedRunsAre(p, results, order[..|order| - 1]);
    }
  }

  lemma TaskIsFound(p: Pipeline, t: nat)
    requires PlainDotIDs(p) && t < |p.tasks|
    ensures FindDotID(p, p.tasks[t].dotID) == Some(t)
  {
    hide Keypaths.Trim;
    var u := FindDotID(p, p.tasks[t].dotID);
    assert u.Some?;
    assert Name(p, u.value) == Name(p, t);
  }

  lemma SavedRunsAreKnown(p: Pipeline, results: map<nat, TaskRunResult>, order: seq<nat>)
    requires PlainDotIDs(p) && Enumerates(p, results, order)
    ensures |SavedRuns(p, results, order)| == |order|
    ensures Known(p, SavedRuns(p, results, order)) && DistinctRuns(SavedRuns(p, results, order))
    ensures forall i :: 0 <= i < |order| ==> FindDotID(p, SavedRuns(p, results, order)[i].dotID) == Some(order[i])
  {
    hide PlainDotIDs, FindDotID;
    SavedRunsAre(p, results, order);
    forall i | 0 <= i < |order| ensures FindDotID(p, SavedRuns(p, results, order)[i].dotID) == Some(order[i]) {
      TaskIsFound(p, order[i]);
    }
  }

  lemma SavedAt(p: Pipeline, s: State, order: seq<nat>, i: nat)
    requires PlainDotIDs(p) && Enumerates(p, s.results, order) && AllFaithful(s) && i < |order|
    ensures |SavedRuns(p, s.results, order)| == |order|
    ensures FindDotID(p, SavedRuns(p, s.results, order)[i].dotID) == Some(order[i])
    ensures IsPending(SavedRuns(p, s.results, order)[i]) <==> s.results[order[i]].isPending
  {
    hide PlainDotIDs, FindDotID, SavedRuns, IsPending, SavedRun, Faithful, OutputDB;
    SavedRunsAre(p, s.results, order);
    SavedRunsAreKnown(p, s.results, order);
    SavedResultRoundtrips(p, order[i], s.results[order[i]]);
  }

  /** The finished runs are those of the tasks whose result is not pending. */
  lemma SavedAndFinished(p: Pipeline, s: State, order: seq<nat>, t: nat)
    requires PlainDotIDs(p) && Enumerates(p, s.results, order) && AllFaithful(s)
    ensures Finished(p, SavedRuns(p, s.results, order), t) <==> t in s.results && !s.results[t].isPending
  {
    hide PlainDotIDs, FindDotID, SavedRuns, IsPending, SavedRun, AllFaithful, Distinct;
    var runs := SavedRuns(p, s.results, order);
    SavedRunsAre(p, s.results, order);
    if t in s.results {
      var i :| 0 <= i < |order| && order[i] == t;
      SavedAt(p, s, order, i);
    }
    if Finished(p, runs, t) {
      var j :| 0 <= j < |runs| && !IsPending(runs[j]) && FindDotID(p, runs[j].dotID) == Some(t);
      SavedAt(p, s, order, j);
    }
  }

  /** A suspended run: its channel is closed, and it is not exiting. */
  ghost predicate Suspended(p: Pipeline, s: State) {
    Inv(p, s) && s.closed && !s.exiting && AllFaithful(s)
  }

  lemma SuspendedBooks(p: Pipeline, s: State)
    requires Suspended(p, s)
    ensures Owners(s) == {}
    ensures forall t :: t in Done(LedgerOf(s)) <==> t in s.results && !s.results[t].isPending
    ensures CountersExact(p, LedgerOf(s)) && ResultsClosed(p, LedgerOf(s)) && ReadyStarted(p, LedgerOf(s))
    ensures KnownResults(p, LedgerOf(s))
  {
    NothingOwned(p, s);
  }

  /** Every suspension without fail-early saves a set that is closed under predecessors. */
  lemma SuspensionIsClosed(p: Pipeline, s: State, order: seq<nat>)
    requires WellFormed(p) && PlainDotIDs(p) && Suspended(p, s) && Enumerates(p, s.results, order)
    ensures ClosedRuns(p, SavedRuns(p, s.results, order))
  {
    hide PlainDotIDs, Owners, Finished, SortedLinks, InverseLinks, CountersExact, ReadyStarted;
    var runs := SavedRuns(p, s.results, order);
    SuspendedBooks(p, s);
    forall t: nat, u: nat | t < |p.tasks| && Finished(p, runs, t) && u in InputSet(p, t) ensures Finished(p, runs, u) {
      SavedAndFinished(p, s, order, t);
      SavedAndFinished(p, s, order, u);
      assert u in Done(LedgerOf(s));
    }
  }

  // ----- variables of a run -----

  /** Every finished result is stored under its task's name, and names of tasks without any result,
      or of no task, are as in `before`. A pending task may have left the error of an earlier try. */
  ghost predicate VarsBooked(p: Pipeline, before: VarMap, results: map<nat, TaskRunResult>, vars: VarMap) {
    && (forall t :: t in results && !results[t].isPending ==>
          t < |p.tasks| && Name(p, t) in vars && vars[Name(p, t)] == VarValue(results[t].result))
    && OthersKept(p, before, results, vars)
  }

  lemma NamesAfterOne(p: Pipeline, results: map<nat, TaskRunResult>, t: nat, r: TaskRunResult, x: string)
    requires NamesResult(p, results, x)
    ensures NamesResult(p, results[t := r], x)
  {
    var u :| u in results && u < |p.tasks| && Name(p, u) == x;
    assert u in results[t := r];
  }

  lemma OthersKeptForMore(p: Pipeline, before: VarMap, results: map<nat, TaskRunResult>, vars: VarMap, t: nat,
      r: TaskRunResult)
    requires OthersKept(p, before, results, vars)
    ensures OthersKept(p, before, results[t := r], vars)
  {
    hide NamesResult;
    forall x | !NamesResult(p, results[t := r], x) ensures !NamesResult(p, results, x) {
      if NamesResult(p, results, x) {
        NamesAfterOne(p, results, t, r, x);
      }
    }
  }

  lemma BookedAfterPending(p: Pipeline, before: VarMap, results: map<nat, TaskRunResult>, vars: VarMap, t: nat,
      r: TaskRunResult)
    requires VarsBooked(p, before, results, vars) && r.isPending
    ensures VarsBooked(p, before, results[t := r], vars)
  {
    hide OthersKept;
    OthersKeptForMore(p, before, results, vars, t, r);
  }

  lemma BookedAfterResult(p: Pipeline, before: VarMap, results: map<nat, TaskRunResult>, vars: VarMap, t: nat,
      r: TaskRunResult)
    requires PlainDotIDs(p) && VarsBooked(p, before, results, vars) && t < |p.tasks|
    ensures VarsBooked(p, before, results[t := r], SetVariable(p, vars, t, r.result))
  {
    hide SetVariable, NamesResult;
    AssignedVariable(p, vars, t, r.result);
    OthersKeptForMore(p, before, results, vars, t, r);
    assert NamesResult(p, results[t := r], Name(p, t)) by {
      NamesIt(p, results[t := r], t);
    }
    hide Keypaths.Trim;
  }

  lemma NamesIt(p: Pipeline, results: map<nat, TaskRunResult>, t: nat)
    requires t in results && t < |p.tasks|
    ensures NamesResult(p, results, Name(p, t))
  {
  }

  lemma BookedReceive(p: Pipeline, before: VarMap, s: State, r: TaskRunResult, now: int)
    requires WellFormed(p) && PlainDotIDs(p) && r.task < |p.tasks| && s.waiting > 0 && !s.exiting
    requires VarsBooked(p, before, s.results, s.vars)
    ensures var s' := Receive(p, s, r, now); s'.exiting || VarsBooked(p, before, s'.results, s'.vars)
  {
    hide VarsBooked, PlainDotIDs, NewMemoryTaskRun, SetVariable, MarkRemaining, SortedLinks, InverseLinks, Decremented;
    var c := Counted(s, r);
    if r.isPending {
      BookedAfterPending(p, before, s.results, s.vars, r.task, c);
    } else if !Fails(p, r) {
      BookedAfterResult(p, before, s.results, s.vars, r.task, c);
      if !MustRetry(p, c.attempts, r) {
        OutputsDistinct(p, r.task);
        ReleaseQueues(p, StoreVariable(p, StoreReport(s, r), r, now), p.tasks[r.task].outputs);
      }
    }
  }

  lemma BookedStep(p: Pipeline, before: VarMap, s: State, e: Event)
    requires WellFormed(p) && PlainDotIDs(p) && !s.exiting && Enabled(p, s, e)
    requires VarsBooked(p, before, s.results, s.vars)
    ensures var s' := Apply(p, s, e); s'.exiting || VarsBooked(p, before, s'.results, s'.vars)
  {
    hide VarsBooked, PlainDotIDs, NewMemoryTaskRun, Receive;
    if e.Deliver? {
      BookedReceive(p, before, s, e.report, e.now);
    }
  }

  lemma {:induction false} BookedRun(p: Pipeline, before: VarMap, s0: State, tr: Trace)
    requires WellFormed(p) && PlainDotIDs(p) && Inv(p, s0) && IsRun(p, s0, tr) && !After(p, s0, tr).exiting
    requires VarsBooked(p, before, s0.results, s0.vars)
    ensures VarsBooked(p, before, After(p, s0, tr).results, After(p, s0, tr).vars)
  {
    hide VarsBooked, PlainDotIDs, Inv, Apply, Enabled;
    if tr.Then? {
      NeverExited(p, s0, tr);
      BookedRun(p, before, s0, tr.prev);
      BookedStep(p, before, After(p, s0, tr.prev), tr.event);
    }
  }

  // ----- resuming -----

  /** The books of a scheduler restored from a suspended one. */
  ghost predicate Resumes(p: Pipeline, s: State, s': State) {
    && s'.dependencies == s.dependencies
    && (forall t :: t in s'.results <==> t in s.results && !s.results[t].isPending)
    && (forall t :: t in s'.results ==>
          s'.results[t] == TaskRunResult(t, Roundtrip(s.results[t].result), 0, s.results[t].finishedAt, false))
    && (forall t :: t in Owners(s') <==> PendingTask(LedgerOf(s), t))
  }

  lemma ResumedResults(p: Pipeline, s: State, order: seq<nat>, results: map<nat, TaskRunResult>, vars: VarMap, t: nat)
    requires PlainDotIDs(p) && AllFaithful(s) && Enumerates(p, s.results, order)
    requires RestoredRuns(p, SavedRuns(p, s.results, order), results, vars)
    requires t in s.results && !s.results[t].isPending
    ensures t < |p.tasks| && t in results
    ensures results[t] == TaskRunResult(t, Roundtrip(s.results[t].result), 0, s.results[t].finishedAt, false)
    ensures Name(p, t) in vars && vars[Name(p, t)] == VarValue(Roundtrip(s.results[t].result))
  {
    hide PlainDotIDs, FindDotID, Roundtrip, OutputDB;
    var i :| 0 <= i < |order| && order[i] == t;
    SavedRunsAre(p, s.results, order);
    SavedRunsAreKnown(p, s.results, order);
    SavedResultRoundtrips(p, t, s.results[t]);
    RunIsRestored(p, SavedRuns(p, s.results, order), t, SavedRun(p, t, s.results[t]), results, vars);
  }

  lemma ResumedCounters(p: Pipeline, s: State, deps: map<nat, nat>, done: set<nat>)
    requires Suspended(p, s) && Counts(p, deps, done) && done == Done(LedgerOf(s))
    ensures deps == s.dependencies
  {
    hide Suspended, Done, ResultsClosed, ReadyStarted, InputSet, KnownResults;
    SuspendedBooks(p, s);
    assert LedgerOf(s).dependencies == s.dependencies;
    CountsAreDetermined(p, s.dependencies, deps, done);
  }

  /** A task is queued again exactly if it was pending. */
  lemma ResumedQueue(p: Pipeline, s: State, r: State, t: nat)
    requires Suspended(p, s) && t < |p.tasks| && r.dependencies == s.dependencies
    requires forall u :: u in r.results <==> u in s.results && !s.results[u].isPending
    ensures Startable(r, t) <==> PendingTask(LedgerOf(s), t)
  {
    hide Suspended, Owners, InputSet;
    SuspendedBooks(p, s);
    assert LedgerOf(s).dependencies == s.dependencies && LedgerOf(s).results == s.results;
    StartableAtRest(p, LedgerOf(s), t);
  }

  lemma StartableAtRest(p: Pipeline, b: Ledger, t: nat)
    requires CountersExact(p, b) && ResultsClosed(p, b) && ReadyStarted(p, b) && b.owners == {} && t < |p.tasks|
    ensures t in b.dependencies
    ensures b.dependencies[t] == 0 && t !in Done(b) <==> PendingTask(b, t)
  {
    hide Done, InputSet, OpenInputs;
    NothingOpen(p, t, Done(b));
    DoneAtRest(b, t);
  }

  lemma DoneAtRest(b: Ledger, t: nat)
    requires b.owners == {}
    ensures t in Done(b) <==> t in b.results && !PendingTask(b, t)
  {
  }

  lemma ResumedParts(p: Pipeline, s: State, order: seq<nat>, vars: VarMap) returns (r: State, s': State)
    requires WellFormed(p) && PlainDotIDs(p) && Suspended(p, s) && Enumerates(p, s.results, order)
    ensures NewScheduler(p, SavedRuns(p, s.results, order), vars) == Some(s') && Fresh(s') && Inv(p, s')
    ensures s'.dependencies == r.dependencies && s'.results == r.results && s'.vars == r.vars
    ensures Counts(p, r.dependencies, r.results.Keys)
    ensures RestoredResults(p, SavedRuns(p, s.results, order), r.results)
    ensures RestoredRuns(p, SavedRuns(p, s.results, order), r.results, r.vars) && OthersKept(p, vars, r.results, r.vars)
    ensures forall t :: t in Owners(s') <==> 0 <= t < |p.tasks| && Startable(r, t)
  {
    hide Owners, PlainDotIDs, Suspended, Inv, NewScheduler, RestoredRuns, OthersKept, RestoredResults, Counts,
      ClosedRuns, Fresh, Conserved;
    var runs := SavedRuns(p, s.results, order);
    SavedRunsAreKnown(p, s.results, order);
    SuspensionIsClosed(p, s, order);
    StartsWell(p, runs, vars);
    RestoreRestores(p, runs, vars);
    r, s' := NewSchedulerParts(p, runs, vars);
  }

  lemma ResumedKeys(p: Pipeline, s: State, order: seq<nat>, results: map<nat, TaskRunResult>)
    requires PlainDotIDs(p) && AllFaithful(s) && Enumerates(p, s.results, order)
    requires RestoredResults(p, SavedRuns(p, s.results, order), results)
    ensures forall t :: t in results <==> t in s.results && !s.results[t].isPending
  {
    hide PlainDotIDs, Finished;
    forall t: nat ensures t in results <==> t in s.results && !s.results[t].isPending {
      SavedAndFinished(p, s, order, t);
    }
  }

  lemma ResumedFaithful(p: Pipeline, s: State, s': State)
    requires AllFaithful(s) && Resumes(p, s, s') && Fresh(s')
    ensures AllFaithful(s')
  {
    hide Owners;
  }

  /** Suspend and resume is faithful. The scheduler built from the results of a suspended run, saved
      in any order, has the same counters, the same finished results up to saving, the variables of
      the finished tasks, and a first try queued for exactly the tasks that were pending. It
      satisfies every invariant of a run, so it can be suspended and resumed again. */
  lemma ResumeIsFaithful(p: Pipeline, s: State, order: seq<nat>, vars: VarMap) returns (s': State)
    requires WellFormed(p) && PlainDotIDs(p) && Suspended(p, s) && Enumerates(p, s.results, order)
    ensures NewScheduler(p, SavedRuns(p, s.results, order), vars) == Some(s')
    ensures Inv(p, s') && Fresh(s') && Resumes(p, s, s')
    ensures AllFaithful(s') && VarsBooked(p, vars, s'.results, s'.vars)
  {
    hide Owners, PlainDotIDs, Inv, NewScheduler, RestoredRuns, OthersKept, RestoredResults, Counts, ClosedRuns, Fresh,
      Roundtrip, AllFaithful, Startable, Suspended, Keypaths.Trim, Resumes, VarsBooked, Enumerates, WellFormed;
    var r: State;
    r, s' := ResumedParts(p, s, order, vars);
    SuspendedFaithful(p, s);
    ResumedResultsAre(p, s, order, vars, r);
    ResumedBooks(p, s, r, s');
    ResumedFaithful(p, s, s');
  }

  lemma ResumedResultsAre(p: Pipeline, s: State, order: seq<nat>, vars: VarMap, r: State)
    requires PlainDotIDs(p) && AllFaithful(s) && Enumerates(p, s.results, order)
    requires RestoredResults(p, SavedRuns(p, s.results, order), r.results)
    requires RestoredRuns(p, SavedRuns(p, s.results, order), r.results, r.vars) &&
      OthersKept(p, vars, r.results, r.vars)
    ensures forall t :: t in r.results <==> t in s.results && !s.results[t].isPending
    ensures forall t :: t in r.results ==>
      r.results[t] == TaskRunResult(t, Roundtrip(s.results[t].result), 0, s.results[t].finishedAt, false)
    ensures VarsBooked(p, vars, r.results, r.vars)
  {
    hide PlainDotIDs, RestoredRuns, OthersKept, RestoredResults, Roundtrip, AllFaithful, Keypaths.Trim;
    ResumedKeys(p, s, order, r.results);
    forall t | t in r.results
      ensures r.results[t] == TaskRunResult(t, Roundtrip(s.results[t].result), 0, s.results[t].finishedAt, false)
      ensures t < |p.tasks| && Name(p, t) in r.vars && r.vars[Name(p, t)] == VarValue(r.results[t].result)
    {
      ResumedResults(p, s, order, r.results, r.vars, t);
    }
  }

  lemma ResumedOwners(p: Pipeline, s: State, r: State, owners: set<nat>)
    requires Suspended(p, s) && r.dependencies == s.dependencies
    requires forall t :: t in r.results <==> t in s.results && !s.results[t].isPending
    requires forall t :: t in owners <==> 0 <= t < |p.tasks| && Startable(r, t)
    ensures forall t :: t in owners <==> PendingTask(LedgerOf(s), t)
  {
    hide Owners, Inv, Startable, Suspended, CountersExact, ResultsClosed, ReadyStarted, Done;
    SuspendedBooks(p, s);
    assert LedgerOf(s).results == s.results;
    forall t: nat ensures t in owners <==> PendingTask(LedgerOf(s), t) {
      if t < |p.tasks| {
        ResumedQueue(p, s, r, t);
      }
    }
  }

  lemma ResumedDone(p: Pipeline, s: State, r: State)
    requires Suspended(p, s)
    requires forall t :: t in r.results <==> t in s.results && !s.results[t].isPending
    ensures r.results.Keys == Done(LedgerOf(s))
  {
    hide Suspended, Owners, Done, CountersExact, ResultsClosed, ReadyStarted;
    SuspendedBooks(p, s);
  }

  lemma ResumedBooks(p: Pipeline, s: State, r: State, s': State)
    requires WellFormed(p) && Suspended(p, s) && s'.dependencies == r.dependencies && s'.results == r.results
    requires Counts(p, r.dependencies, r.results.Keys)
    requires forall t :: t in r.results <==> t in s.results && !s.results[t].isPending
    requires forall t :: t in r.results ==>
      r.results[t] == TaskRunResult(t, Roundtrip(s.results[t].result), 0, s.results[t].finishedAt, false)
    requires forall t :: t in Owners(s') <==> 0 <= t < |p.tasks| && Startable(r, t)
    ensures Resumes(p, s, s')
  {
    hide Owners, Inv, Counts, Roundtrip, AllFaithful, Startable, Suspended, WellFormed, Done, PendingTask;
    ResumedDone(p, s, r);
    ResumedCounters(p, s, r.dependencies, r.results.Keys);
    ResumedOwners(p, s, r, Owners(s'));
  }

  lemma SuspendedFaithful(p: Pipeline, s: State)
    requires Suspended(p, s)
    ensures AllFaithful(s)
  {
  }

  // ----- suspended runs -----

  /** What a scheduler satisfies when it starts, for the first time or resumed. */
  ghost predicate StartsFrom(p: Pipeline, before: VarMap, s: State) {
    Inv(p, s) && Fresh(s) && AllFaithful(s) && VarsBooked(p, before, s.results, s.vars)
  }

  /** The variables after reconstruction hold the restored results. */
  lemma RestoredIsBooked(p: Pipeline, runs: seq<TaskRun>, vars: VarMap, s: State)
    requires WellFormed(p) && PlainDotIDs(p) && Known(p, runs) && DistinctRuns(runs)
    requires Restore(p, EmptyState(p, vars), runs) == Some(s)
    ensures VarsBooked(p, vars, s.results, s.vars)
  {
    RestoreCounts(p, runs, vars);
    RestoreRestores(p, runs, vars);
    hide PlainDotIDs, OthersKept, FindDotID, Restore, Known, DistinctRuns, WellFormed;
    forall t | t in s.results
      ensures t < |p.tasks| && Name(p, t) in s.vars && s.vars[Name(p, t)] == VarValue(s.results[t].result)
    {
      assert Finished(p, runs, t);
      var i :| 0 <= i < |runs| && !IsPending(runs[i]) && FindDotID(p, runs[i].dotID) == Some(t);
      RunIsRestored(p, runs, t, runs[i], s.results, s.vars);
    }
  }

  lemma FirstStart(p: Pipeline, vars: VarMap)
    requires WellFormed(p)
    ensures NewScheduler(p, [], vars).Some? && StartsFrom(p, vars, NewScheduler(p, [], vars).value)
  {
    StartsFresh(p, vars);
    var s, s' := NewSchedulerParts(p, [], vars);
    assert s == EmptyState(p, vars) && s'.results == map[] && s'.vars == vars && s'.goroutines == multiset{};
    hide Inv, Fresh, NewScheduler;
    NothingBooked(p, vars, s');
  }

  lemma NothingBooked(p: Pipeline, vars: VarMap, s: State)
    requires s.results == map[] && s.vars == vars && s.goroutines == multiset{}
    ensures AllFaithful(s) && VarsBooked(p, vars, s.results, s.vars)
  {
    assert forall x :: SameEntry(vars, s.vars, x);
  }

  /** A run whose pending reports are bare, that has closed and is not exiting, is suspended (or
      complete): its books say so, and its variables hold the finished results. */
  lemma RunSuspends(p: Pipeline, before: VarMap, s0: State, tr: Trace)
    requires WellFormed(p) && PlainDotIDs(p) && StartsFrom(p, before, s0)
    requires IsRun(p, s0, tr) && AllBarePending(tr) && After(p, s0, tr).closed && !After(p, s0, tr).exiting
    ensures Suspended(p, After(p, s0, tr))
    ensures VarsBooked(p, before, After(p, s0, tr).results, After(p, s0, tr).vars)
  {
    hide Inv, Fresh, AllFaithful, VarsBooked, PlainDotIDs, AllBarePending;
    RunKeeps(p, s0, tr);
    FaithfulRun(p, s0, tr);
    BookedRun(p, before, s0, tr);
  }

  /** Running, suspending, saving in any order and resuming gives a scheduler that is again as at a
      start, with the counters, results and queue of the suspended run. */
  lemma SuspendAndResume(p: Pipeline, before: VarMap, s0: State, tr: Trace, order: seq<nat>) returns (s': State)
    requires WellFormed(p) && PlainDotIDs(p) && StartsFrom(p, before, s0)
    requires IsRun(p, s0, tr) && AllBarePending(tr) && After(p, s0, tr).closed && !After(p, s0, tr).exiting
    requires Enumerates(p, After(p, s0, tr).results, order)
    ensures NewScheduler(p, SavedRuns(p, After(p, s0, tr).results, order), before) == Some(s')
    ensures StartsFrom(p, before, s') && Resumes(p, After(p, s0, tr), s')
  {
    hide Inv, Fresh, AllFaithful, VarsBooked, PlainDotIDs, AllBarePending, NewScheduler, Suspended, Resumes;
    RunSuspends(p, before, s0, tr);
    s' := ResumeIsFaithful(p, After(p, s0, tr), order, before);
  }

  /** A pipeline run over any number of suspensions. */
  datatype Session = First | Again(prev: Session, tr: Trace, order: seq<nat>)

  /** From `s0`, the run `tr` is suspended, and `order` lists its results. */
  ghost predicate Suspends(p: Pipeline, s0: State, tr: Trace, order: seq<nat>)
    requires InRange(p)
  {
    && IsRun(p, s0, tr) && AllBarePending(tr) && After(p, s0, tr).closed && !After(p, s0, tr).exiting
    && Enumerates(p, After(p, s0, tr).results, order)
  }

  /** `s0` is the scheduler that the last part of the session starts with. */
  ghost predicate StartsSession(p: Pipeline, vars: VarMap, session: Session, s0: State)
    requires InRange(p)
    decreases session
  {
    match session
    case First => NewScheduler(p, [], vars) == Some(s0)
    case Again(prev, tr, order) =>
      exists s :: StartsSession(p, vars, prev, s) && Suspends(p, s, tr, order)
        && NewScheduler(p, SavedRuns(p, After(p, s, tr).results, order), vars) == Some(s0)
  }

  /** However often a run has been suspended and resumed, its scheduler starts in the invariant, with
      its finished results in its variables, and resumes the one before. */
  lemma {:induction false} SessionsStartWell(p: Pipeline, vars: VarMap, session: Session, s0: State)
    requires WellFormed(p) && PlainDotIDs(p) && StartsSession(p, vars, session, s0)
    ensures StartsFrom(p, vars, s0)
    ensures session.Again? ==>
      exists s :: StartsSession(p, vars, session.prev, s) && Suspends(p, s, session.tr, session.order)
        && Resumes(p, After(p, s, session.tr), s0)
    decreases session
  {
    hide PlainDotIDs, StartsFrom, Resumes, NewScheduler, AllBarePending;
    match session
    case First => FirstStart(p, vars);
    case Again(prev, tr, order) =>
      var s :| StartsSession(p, vars, prev, s) && Suspends(p, s, tr, order)
        && NewScheduler(p, SavedRuns(p, After(p, s, tr).results, order), vars) == Some(s0);
      SessionsStartWell(p, vars, prev, s);
      var s' := SuspendAndResume(p, vars, s, tr, order);
  }

  // ----- field by field -----

  /** What a saved task run restores: it is a result exactly if it has a time, an output or an error;
      the result has that time, output and error, and no attempts; and its variable is the error, or
      else the output. */
  lemma RestoredFields(p: Pipeline, runs: seq<TaskRun>, vars: VarMap, s0: State, tr: TaskRun, t: nat)
    requires WellFormed(p) && PlainDotIDs(p) && Known(p, runs) && DistinctRuns(runs)
    requires NewScheduler(p, runs, vars) == Some(s0) && tr in runs && FindDotID(p, tr.dotID) == Some(t)
    ensures t in s0.results <==> tr.finishedAt.Some? || tr.output.valid || tr.error.Some?
    ensures t in s0.results ==>
      && t < |p.tasks| && s0.results[t].task == t
      && s0.results[t].attempts == 0 && !s0.results[t].isPending && s0.results[t].finishedAt == tr.finishedAt
      && s0.results[t].result.value == (if tr.output.valid then tr.output.val else Scalar(Nil))
      && match tr.error
         case None =>
           && s0.results[t].result.error == None
           && Lookup(s0.vars, p.tasks[t].dotID) == Ok(s0.results[t].result.value)
         case Some(text) =>
           && s0.results[t].result.error == Some(Restored(text))
           && Lookup(s0.vars, p.tasks[t].dotID) == Ok(Scalar(Failure(Restored(text))))
  {
    var s := NewSchedulerBooks(p, runs, vars, s0);
    RestoreRestores(p, runs, vars);
    FinishedIffNotPending(p, runs, tr, t);
    if !IsPending(tr) {
      RunIsRestored(p, runs, t, tr, s.results, s.vars);
      VariableIsFound(p, s.vars, t);
    }
    hide PlainDotIDs, FindDotID, Restore, NewScheduler, RestoredRuns, OthersKept, Known, DistinctRuns, WellFormed,
      Lookup, Finished, FirstQueue;
  }

  lemma FinishedIffNotPending(p: Pipeline, runs: seq<TaskRun>, tr: TaskRun, t: nat)
    requires DistinctRuns(runs) && tr in runs && FindDotID(p, tr.dotID) == Some(t)
    ensures Finished(p, runs, t) <==> !IsPending(tr)
  {
    var i :| 0 <= i < |runs| && runs[i] == tr;
    if Finished(p, runs, t) {
      var j :| 0 <= j < |runs| && !IsPending(runs[j]) && FindDotID(p, runs[j].dotID) == Some(t);
      assert runs[j].dotID == p.tasks[t].dotID == runs[i].dotID;
    }
  }

  lemma VariableIsFound(p: Pipeline, vars: VarMap, t: nat)
    requires PlainDotIDs(p) && t < |p.tasks| && Name(p, t) in vars
    ensures Lookup(vars, p.tasks[t].dotID) == Ok(vars[Name(p, t)])
  {
    assert VarName(p.tasks[t].dotID) == Ok(Name(p, t));
    LookupOfName(vars, p.tasks[t].dotID);
    hide Lookup, PlainDotIDs;
  }

  /** A resumed result has the time, the value and the error text of the result that was suspended; a
      nil pointer has become nil. */
  lemma ResumedFields(p: Pipeline, s: State, s': State, t: nat)
    requires Resumes(p, s, s') && t in s'.results
    ensures t in s.results && s'.results[t].finishedAt == s.results[t].finishedAt
    ensures s'.results[t].task == t && s'.results[t].attempts == 0 && !s'.results[t].isPending
    ensures s'.results[t].result.value ==
      if s.results[t].result.value == Scalar(NilPointer) then Scalar(Nil) else s.results[t].result.value
    ensures match s.results[t].result.error
      case None => s'.results[t].result.error == None
      case Some(e) => exists text :: Says(e, text) && s'.results[t].result.error == Some(Restored(text))
  {
    hide Owners;
    var r := s.results[t].result;
    if r.error.Some? {
      MessageSays(r.error.value);
      assert s'.results[t].result.error == Some(Restored(Message(r.error.value)));
    }
  }
}
