/** The end of a run: how the results map becomes ordered task runs, outputs, errors and a state, and
    how the second aggregation, `FinalResult`, agrees with it. */
module Runner {
  import opened Values
  import opened Ordering
  import opened Pipelines
  import opened Runs
  import opened Scheduling
  import opened Invariants
  import opened FailEarly
  import opened Resume
  import Completeness
  import Ledgers
  import Releases

  datatype RunStatus = Running | Suspended | Errored | Completed

  /** A saved task run with the task it belongs to. */
  datatype TaskRecord = TaskRecord(task: nat, run: TaskRun)

  /** What a terminal task contributes. */
  datatype Verdict = Verdict(output: Value, error: Option<string>)

  // ----- collecting -----

  function Collect<T, E>(xs: seq<T>, f: T -> Option<E>): seq<E> {
    if xs == [] then []
    else
      Collect(xs[..|xs| - 1], f) + match f(xs[|xs| - 1]) case None => [] case Some(e) => [e]
  }

  lemma CollectAppend<T, E>(xs: seq<T>, x: T, f: T -> Option<E>)
    ensures Collect(xs + [x], f) == Collect(xs, f) + match f(x) case None => [] case Some(e) => [e]
  {
    assert (xs + [x])[..|xs|] == xs;
  }

  lemma {:induction false} CollectConcat<T, E>(xs: seq<T>, ys: seq<T>, f: T -> Option<E>)
    ensures Collect(xs + ys, f) == Collect(xs, f) + Collect(ys, f)
  {
    if ys == [] {
      assert xs + ys == xs;
    } else {
      var init, last := ys[..|ys| - 1], ys[|ys| - 1];
      assert xs + ys == (xs + init) + [last];
      CollectConcat(xs, init, f);
      CollectAppend(xs + init, last, f);
    }
  }

  lemma {:induction false} Collected<T, E>(xs: seq<T>, f: T -> Option<E>, e: E)
    ensures e in Collect(xs, f) <==> exists x :: x in xs && f(x) == Some(e)
  {
    if xs != [] {
      var init, last := xs[..|xs| - 1], xs[|xs| - 1];
      assert xs == init + [last];
      Collected(init, f, e);
    }
  }

  lemma RemoveMiddle<T>(init: seq<T>, x: T, pre: seq<T>, post: seq<T>)
    requires multiset(init + [x]) == multiset(pre + [x] + post)
    ensures multiset(init) == multiset(pre + post)
  {
    assert multiset(init) == multiset(init + [x]) - multiset{x};
    assert multiset(pre + post) == multiset(pre + [x] + post) - multiset{x};
  }

  /** What one element contributes. */
  function Share<E>(e: Option<E>): multiset<E> {
    match e case None => multiset{} case Some(x) => multiset{x}
  }

  lemma CollectMiddle<T, E>(pre: seq<T>, x: T, post: seq<T>, f: T -> Option<E>)
    ensures multiset(Collect(pre + [x] + post, f)) == multiset(Collect(pre + post, f)) + Share(f(x))
  {
    CollectConcat(pre, post, f);
    CollectConcat(pre + [x], post, f);
    CollectAppend(pre, x, f);
  }

  lemma Found<T>(xs: seq<T>, x: T) returns (pre: seq<T>, post: seq<T>)
    requires x in xs
    ensures xs == pre + [x] + post
  {
    var i :| 0 <= i < |xs| && xs[i] == x;
    pre, post := xs[..i], xs[i + 1..];
  }

  /** Collecting from a permutation collects a permutation. */
  lemma {:induction false} CollectPermutes<T, E>(xs: seq<T>, ys: seq<T>, f: T -> Option<E>)
    requires multiset(xs) == multiset(ys)
    ensures multiset(Collect(xs, f)) == multiset(Collect(ys, f))
  {
    if xs == [] {
      assert |ys| == |multiset(ys)|;
    } else {
      var init, last := xs[..|xs| - 1], xs[|xs| - 1];
      assert xs == init + [last];
      assert last in multiset(ys);
      var pre, post := Found(ys, last);
      RemoveMiddle(init, last, pre, post);
      CollectPermutes(init, pre + post, f);
      CollectMiddle(pre, last, post, f);
      CollectAppend(init, last, f);
    }
  }

  /** Entries collected from a sequence in key order are in key order. */
  lemma {:induction false} CollectSorted<T, E>(xs: seq<T>, f: T -> Option<Entry<E>>)
    requires forall i, j :: 0 <= i < j < |xs| && f(xs[i]).Some? && f(xs[j]).Some? ==>
      f(xs[i]).value.key <= f(xs[j]).value.key
    ensures Sorted(Collect(xs, f))
  {
    if xs != [] {
      var init, last := xs[..|xs| - 1], xs[|xs| - 1];
      CollectSorted(init, f);
      if f(last).Some? {
        forall e | e in Collect(init, f) ensures e.key <= f(last).value.key {
          Collected(init, f, e);
          var i :| 0 <= i < |init| && f(init[i]) == Some(e);
        }
      }
    }
  }

  // ----- what the two aggregations read -----

  /** `TaskRunResult.IsTerminal`. */
  predicate IsTerminal(p: Pipeline, t: nat) {
    t < |p.tasks| && p.tasks[t].outputs == []
  }

  function OutputIndex(p: Pipeline, t: nat): int {
    if t < |p.tasks| then p.tasks[t].index else 0
  }

  function RecordVerdict(p: Pipeline): TaskRecord -> Option<Entry<Verdict>> {
    (rec: TaskRecord) =>
      if !IsTerminal(p, rec.task) then None
      else Some(Entry(OutputIndex(p, rec.task), Verdict(rec.run.output.val, rec.run.error)))
  }

  function ResultVerdict(p: Pipeline): TaskRunResult -> Option<Entry<Verdict>> {
    (r: TaskRunResult) =>
      if !IsTerminal(p, r.task) then None
      else Some(Entry(OutputIndex(p, r.task), Verdict(r.result.value, ErrorDB(r.result))))
  }

  function RecordError(): TaskRecord -> Option<Option<string>> {
    (rec: TaskRecord) => if rec.run.error.Some? then Some(rec.run.error) else None
  }

  function Outputs(vs: seq<Entry<Verdict>>): seq<Value> {
    if vs == [] then [] else Outputs(vs[..|vs| - 1]) + [vs[|vs| - 1].item.output]
  }

  function FatalErrors(vs: seq<Entry<Verdict>>): seq<Option<string>> {
    if vs == [] then [] else FatalErrors(vs[..|vs| - 1]) + [vs[|vs| - 1].item.error]
  }

  /** `Run.HasFatalErrors`. */
  predicate HasFatalErrors(errors: seq<Option<string>>) {
    exists i :: 0 <= i < |errors| && errors[i].Some?
  }

  // ----- records -----

  /** `FinishedAt.ValueOrZero()`, with the zero time as 0. */
  function FinishTime(rec: TaskRecord): int {
    match rec.run.finishedAt case None => 0 case Some(time) => time
  }

  /** By output index, then by the time of finishing. */
  predicate Before(p: Pipeline, a: TaskRecord, b: TaskRecord) {
    if OutputIndex(p, a.task) == OutputIndex(p, b.task) then FinishTime(a) < FinishTime(b)
    else OutputIndex(p, a.task) < OutputIndex(p, b.task)
  }

  function RecordOrder(p: Pipeline): (TaskRecord, TaskRecord) -> bool {
    (a: TaskRecord, b: TaskRecord) => Before(p, a, b)
  }

  ghost predicate InOrder(p: Pipeline, recs: seq<TaskRecord>) {
    Ordered(RecordOrder(p), recs)
  }

  lemma RecordsHaveOrder(p: Pipeline)
    ensures WeakOrder(RecordOrder(p))
  {
  }

  function RecordOf(p: Pipeline): TaskRunResult -> Option<TaskRecord> {
    (r: TaskRunResult) => if r.task < |p.tasks| then Some(TaskRecord(r.task, SavedRun(p, r.task, r))) else None
  }

  function ResultAt(results: map<nat, TaskRunResult>): nat -> Option<TaskRunResult> {
    (t: nat) => if t in results then Some(results[t]) else None
  }

  /** The results in the order in which the map is iterated. */
  function Listed(results: map<nat, TaskRunResult>, order: seq<nat>): seq<TaskRunResult> {
    Collect(order, ResultAt(results))
  }

  function Records(p: Pipeline, trrs: seq<TaskRunResult>): seq<TaskRecord> {
    Collect(trrs, RecordOf(p))
  }

  /** Every result is stored under its own task. */
  ghost predicate Keyed(p: Pipeline, results: map<nat, TaskRunResult>) {
    forall t :: t in results ==> t < |p.tasks| && results[t].task == t
  }

  // ----- what a record says -----

  /** Earlier records have a smaller output index, or the same and no later time of finishing; no time
      counts as the zero time. */
  ghost predicate InTimeOrder(p: Pipeline, recs: seq<TaskRecord>) {
    forall i, j :: 0 <= i < j < |recs| && recs[i].task < |p.tasks| && recs[j].task < |p.tasks| ==>
      || p.tasks[recs[i].task].index < p.tasks[recs[j].task].index
      || (p.tasks[recs[i].task].index == p.tasks[recs[j].task].index
          && NoLater(recs[i].run.finishedAt, recs[j].run.finishedAt))
  }

  ghost predicate NoLater(a: Option<int>, b: Option<int>) {
    match (a, b)
    case (None, None) => true
    case (None, Some(y)) => 0 <= y
    case (Some(x), None) => x <= 0
    case (Some(x), Some(y)) => x <= y
  }

  /** The record of a result: its task, value, error and time. A nil value is no output. */
  ghost predicate Tells(p: Pipeline, results: map<nat, TaskRunResult>, rec: TaskRecord) {
    && rec.task in results && rec.task < |p.tasks|
    && rec.run.dotID == p.tasks[rec.task].dotID && rec.run.index == p.tasks[rec.task].index
    && rec.run.finishedAt == results[rec.task].finishedAt
    && rec.run.output.val == results[rec.task].result.value
    && (rec.run.output.valid <==> rec.run.output.val !in {Scalar(Nil), Scalar(NilPointer)})
    && (rec.run.error.Some? <==> results[rec.task].result.error.Some?)
    && (rec.run.error.Some? ==> Says(results[rec.task].result.error.value, rec.run.error.value))
  }

  /** One record for every result. */
  ghost predicate RecordsTell(p: Pipeline, results: map<nat, TaskRunResult>, recs: seq<TaskRecord>) {
    && |recs| == |results|
    && (forall rec :: rec in recs ==> Tells(p, results, rec))
    && (forall t :: t in results ==> exists rec :: rec in recs && rec.task == t)
  }

  /** `outputs` and `errors` are those of the terminal records, which are at the positions `at`. */
  ghost predicate OfTerminals(p: Pipeline, recs: seq<TaskRecord>, at: seq<nat>, outputs: seq<Value>,
      errors: seq<Option<string>>)
  {
    && |at| == |outputs| == |errors|
    && (forall j, k :: 0 <= j < k < |at| ==> at[j] < at[k])
    && (forall j :: 0 <= j < |at| ==>
        && at[j] < |recs| && recs[at[j]].task < |p.tasks|
        && p.tasks[recs[at[j]].task].outputs == []
        && outputs[j] == recs[at[j]].run.output.val && errors[j] == recs[at[j]].run.error)
    && (forall i :: 0 <= i < |recs| && recs[i].task < |p.tasks| && p.tasks[recs[i].task].outputs == [] ==> i in at)
  }

  /** `errors` are those of the records that have one, which are at the positions `at`. */
  ghost predicate OfErrors(recs: seq<TaskRecord>, at: seq<nat>, errors: seq<Option<string>>) {
    && |at| == |errors|
    && (forall j, k :: 0 <= j < k < |at| ==> at[j] < at[k])
    && (forall j :: 0 <= j < |at| ==> at[j] < |recs| && errors[j].Some? && errors[j] == recs[at[j]].run.error)
    && (forall i :: 0 <= i < |recs| && recs[i].run.error.Some? ==> i in at)
  }

  /** What a finished run sums up. */
  ghost predicate SumsTell(p: Pipeline, recs: seq<TaskRecord>, allErrors: seq<Option<string>>,
      fatalErrors: seq<Option<string>>, outputs: seq<Value>)
  {
    && (exists at :: OfTerminals(p, recs, at, outputs, fatalErrors))
    && (exists at :: OfErrors(recs, at, allErrors))
  }

  ghost predicate Summed(p: Pipeline, recs: seq<TaskRecord>, allErrors: seq<Option<string>>,
      fatalErrors: seq<Option<string>>, outputs: seq<Value>)
  {
    && allErrors == Collect(recs, RecordError())
    && outputs == Outputs(Collect(recs, RecordVerdict(p)))
    && fatalErrors == FatalErrors(Collect(recs, RecordVerdict(p)))
    && SumsTell(p, recs, allErrors, fatalErrors, outputs)
  }

  lemma SumsAre(p: Pipeline, recs: seq<TaskRecord>, allErrors: seq<Option<string>>,
      fatalErrors: seq<Option<string>>, outputs: seq<Value>)
    requires Summed(p, recs, allErrors, fatalErrors, outputs)
    ensures allErrors == Collect(recs, RecordError())
    ensures outputs == Outputs(Collect(recs, RecordVerdict(p)))
    ensures fatalErrors == FatalErrors(Collect(recs, RecordVerdict(p)))
    ensures SumsTell(p, recs, allErrors, fatalErrors, outputs)
  {
  }

  lemma NothingSummed(p: Pipeline)
    ensures Summed(p, [], [], [], [])
  {
    assert OfTerminals(p, [], [], [], []) && OfErrors([], [], []);
  }

  lemma TerminalsNext(p: Pipeline, recs: seq<TaskRecord>, rec: TaskRecord, outputs: seq<Value>,
      errors: seq<Option<string>>)
    requires (exists at :: OfTerminals(p, recs, at, outputs, errors)) && rec.task < |p.tasks|
    ensures if p.tasks[rec.task].outputs == []
      then exists at :: OfTerminals(p, recs + [rec], at, outputs + [rec.run.output.val], errors + [rec.run.error])
      else exists at :: OfTerminals(p, recs + [rec], at, outputs, errors)
  {
    hide OfTerminals;
    var at :| OfTerminals(p, recs, at, outputs, errors);
    TerminalsAppend(p, recs, rec, at, outputs, errors);
  }

  lemma ErrorsNext(recs: seq<TaskRecord>, rec: TaskRecord, errors: seq<Option<string>>)
    requires exists at :: OfErrors(recs, at, errors)
    ensures if rec.run.error.Some? then exists at :: OfErrors(recs + [rec], at, errors + [rec.run.error])
      else exists at :: OfErrors(recs + [rec], at, errors)
  {
    hide OfErrors;
    var at :| OfErrors(recs, at, errors);
    ErrorsAppend(recs, rec, at, errors);
  }

  lemma SummedNext(p: Pipeline, recs: seq<TaskRecord>, rec: TaskRecord, allErrors: seq<Option<string>>,
      fatalErrors: seq<Option<string>>, outputs: seq<Value>)
    requires Summed(p, recs, allErrors, fatalErrors, outputs) && rec.task < |p.tasks|
    ensures var terminal := p.tasks[rec.task].outputs == [];
      Summed(p, recs + [rec],
        if rec.run.error.Some? then allErrors + [rec.run.error] else allErrors,
        if terminal then fatalErrors + [rec.run.error] else fatalErrors,
        if terminal then outputs + [rec.run.output.val] else outputs)
  {
    hide OfTerminals, OfErrors, Collect, Outputs, FatalErrors;
    SumsAppend(p, recs, rec);
    TerminalsNext(p, recs, rec, outputs, fatalErrors);
    ErrorsNext(recs, rec, allErrors);
    assert Collect(recs, RecordError()) + [] == Collect(recs, RecordError());
    assert outputs + [] == outputs && fatalErrors + [] == fatalErrors;
  }

  lemma OrderTells(p: Pipeline, recs: seq<TaskRecord>)
    requires InOrder(p, recs)
    ensures InTimeOrder(p, recs)
  {
    forall i, j | 0 <= i < j < |recs| && recs[i].task < |p.tasks| && recs[j].task < |p.tasks|
      ensures || p.tasks[recs[i].task].index < p.tasks[recs[j].task].index
        || (p.tasks[recs[i].task].index == p.tasks[recs[j].task].index
            && NoLater(recs[i].run.finishedAt, recs[j].run.finishedAt))
    {
      assert !RecordOrder(p)(recs[j], recs[i]);
    }
  }

  lemma TerminalsAppend(p: Pipeline, recs: seq<TaskRecord>, rec: TaskRecord, at: seq<nat>, outputs: seq<Value>,
      errors: seq<Option<string>>)
    requires OfTerminals(p, recs, at, outputs, errors) && rec.task < |p.tasks|
    ensures if p.tasks[rec.task].outputs == []
      then OfTerminals(p, recs + [rec], at + [|recs|], outputs + [rec.run.output.val], errors + [rec.run.error])
      else OfTerminals(p, recs + [rec], at, outputs, errors)
  {
  }

  lemma ErrorsAppend(recs: seq<TaskRecord>, rec: TaskRecord, at: seq<nat>, errors: seq<Option<string>>)
    requires OfErrors(recs, at, errors)
    ensures if rec.run.error.Some? then OfErrors(recs + [rec], at + [|recs|], errors + [rec.run.error])
      else OfErrors(recs + [rec], at, errors)
  {
  }

  // ----- the record of a run -----

  class PipelineRun {
    var pending: bool
    var failSilently: bool
    var state: RunStatus
    var finishedAt: Option<int>
    var taskRuns: seq<TaskRecord>
    var allErrors: seq<Option<string>>
    var fatalErrors: seq<Option<string>>
    var outputs: seq<Value>

    constructor ()
      ensures state == Running && finishedAt == None && !pending && !failSilently
      ensures taskRuns == [] && allErrors == [] && fatalErrors == [] && outputs == []
    {
      pending, failSilently, state, finishedAt := false, false, Running, None;
      taskRuns, allErrors, fatalErrors, outputs := [], [], [], [];
    }

    /** Saves the results, whatever the order in which the map is iterated. */
    method SaveTaskRuns(p: Pipeline, results: map<nat, TaskRunResult>, order: seq<nat>)
      requires Keyed(p, results) && Enumerates(p, results, order)
      modifies this`taskRuns
      ensures InOrder(p, taskRuns) && multiset(taskRuns) == multiset(Records(p, Listed(results, order)))
      ensures InTimeOrder(p, taskRuns) && RecordsTell(p, results, taskRuns)
    {
      taskRuns := [];
      RecordsHaveOrder(p);
      NothingInOrder(p);
      hide InOrder, Records, Listed, Collect, WeakOrder, Ordered;
      for i := 0 to |order|
        invariant InOrder(p, taskRuns)
        invariant multiset(taskRuns) == multiset(Records(p, Listed(results, order[..i])))
      {
        var r := results[order[i]];
        var rec := TaskRecord(r.task, SavedRun(p, r.task, r));
        RecordsAppend(p, results, order, i);
        taskRuns := taskRuns + [rec];
        taskRuns := Slice(RecordOrder(p), taskRuns);
      }
      assert order[..|order|] == order;
      OrderTells(p, taskRuns);
      RecordsAreTold(p, results, order, taskRuns);
    }

    /** Sums up the task runs of a finished run. */
    method SumUp(p: Pipeline)
      requires forall i :: 0 <= i < |taskRuns| ==> taskRuns[i].task < |p.tasks|
      modifies this`allErrors, this`fatalErrors, this`outputs, this`state
      ensures allErrors == Collect(taskRuns, RecordError())
      ensures outputs == Outputs(Collect(taskRuns, RecordVerdict(p)))
      ensures fatalErrors == FatalErrors(Collect(taskRuns, RecordVerdict(p)))
      ensures state == if HasFatalErrors(fatalErrors) then Errored else Completed
      ensures SumsTell(p, taskRuns, allErrors, fatalErrors, outputs)
    {
      hide Summed, HasFatalErrors;
      allErrors, fatalErrors, outputs := [], [], [];
      NothingSummed(p);
      assert taskRuns[..0] == [];
      for i := 0 to |taskRuns|
        invariant Summed(p, taskRuns[..i], allErrors, fatalErrors, outputs)
      {
        var rec := taskRuns[i];
        assert taskRuns[..i + 1] == taskRuns[..i] + [rec];
        SummedNext(p, taskRuns[..i], rec, allErrors, fatalErrors, outputs);
        if rec.run.error.Some? {
          allErrors := allErrors + [rec.run.error];
        }
        if p.tasks[rec.task].outputs != [] {
          continue;
        }
        fatalErrors := fatalErrors + [rec.run.error];
        outputs := outputs + [rec.run.output.val];
      }
      assert taskRuns[..|taskRuns|] == taskRuns;
      SumsAre(p, taskRuns, allErrors, fatalErrors, outputs);
      state := if HasFatalErrors(fatalErrors) then Errored else Completed;
    }

    /** The end of `runner.run`. A run that was never pending is errored exactly if a terminal task
        has an error. */
    method Conclude(p: Pipeline, s: State, order: seq<nat>, now: int)
      requires Keyed(p, s.results) && Enumerates(p, s.results, order)
      modifies this
      ensures pending == s.pending && failSilently == s.exiting
      ensures finishedAt == if s.pending then old(finishedAt) else Some(now)
      ensures InOrder(p, taskRuns) && multiset(taskRuns) == multiset(Records(p, Listed(s.results, order)))
      ensures InTimeOrder(p, taskRuns) && RecordsTell(p, s.results, taskRuns)
      ensures finishedAt.Some? ==> SumsTell(p, taskRuns, allErrors, fatalErrors, outputs)
      ensures finishedAt.Some? ==>
        && allErrors == Collect(taskRuns, RecordError())
        && outputs == Outputs(Collect(taskRuns, RecordVerdict(p)))
        && fatalErrors == FatalErrors(Collect(taskRuns, RecordVerdict(p)))
        && state == if TerminalErrs(p, s) then Errored else Completed
      ensures finishedAt.None? ==>
        && allErrors == old(allErrors) && outputs == old(outputs) && fatalErrors == old(fatalErrors)
        && state == Suspended
    {
      hide InTimeOrder, RecordsTell, SumsTell, InOrder, Collect, Records, Listed;
      pending, failSilently, state := s.pending, s.exiting, RunStatus.Suspended;
      if !s.pending {
        finishedAt := Some(now);
      }
      SaveTaskRuns(p, s.results, order);
      if finishedAt.Some? {
        RecordsAreTasks(p, s.results, order, taskRuns);
        SumUp(p);
        ErroredIffTerminalErrs(p, s, order, taskRuns);
      }
    }
  }

  lemma NothingInOrder(p: Pipeline)
    ensures InOrder(p, []) && forall results :: Records(p, Listed(results, [])) == []
  {
  }

  lemma RecordsAppend(p: Pipeline, results: map<nat, TaskRunResult>, order: seq<nat>, i: nat)
    requires i < |order| && order[i] in results && results[order[i]].task < |p.tasks|
    ensures Records(p, Listed(results, order[..i + 1])) ==
      Records(p, Listed(results, order[..i])) +
      [TaskRecord(results[order[i]].task, SavedRun(p, results[order[i]].task, results[order[i]]))]
  {
    var r := results[order[i]];
    assert order[..i + 1] == order[..i] + [order[i]];
    CollectAppend(order[..i], order[i], ResultAt(results));
    CollectAppend(Listed(results, order[..i]), r, RecordOf(p));
  }

  lemma VerdictsAppend(vs: seq<Entry<Verdict>>, v: Entry<Verdict>)
    ensures Outputs(vs + [v]) == Outputs(vs) + [v.item.output]
    ensures FatalErrors(vs + [v]) == FatalErrors(vs) + [v.item.error]
  {
    assert (vs + [v])[..|vs|] == vs;
  }

  lemma SumsAppend(p: Pipeline, recs: seq<TaskRecord>, rec: TaskRecord)
    requires rec.task < |p.tasks|
    ensures Collect(recs + [rec], RecordError()) ==
      Collect(recs, RecordError()) + (if rec.run.error.Some? then [rec.run.error] else [])
    ensures Outputs(Collect(recs + [rec], RecordVerdict(p))) ==
      Outputs(Collect(recs, RecordVerdict(p))) + (if p.tasks[rec.task].outputs == [] then [rec.run.output.val] else [])
    ensures FatalErrors(Collect(recs + [rec], RecordVerdict(p))) ==
      FatalErrors(Collect(recs, RecordVerdict(p))) + (if p.tasks[rec.task].outputs == [] then [rec.run.error] else [])
  {
    CollectAppend(recs, rec, RecordError());
    CollectAppend(recs, rec, RecordVerdict(p));
    if IsTerminal(p, rec.task) {
      VerdictsAppend(Collect(recs, RecordVerdict(p)),
        Entry(OutputIndex(p, rec.task), Verdict(rec.run.output.val, rec.run.error)));
    } else {
      assert Collect(recs, RecordVerdict(p)) + [] == Collect(recs, RecordVerdict(p));
    }
  }

  // ----- which records there are -----

  lemma RecordIs(p: Pipeline, results: map<nat, TaskRunResult>, order: seq<nat>, recs: seq<TaskRecord>, rec: TaskRecord)
    requires Keyed(p, results) && Enumerates(p, results, order)
    requires multiset(recs) == multiset(Records(p, Listed(results, order)))
    ensures rec in recs <==> exists t :: t in results && rec == TaskRecord(t, SavedRun(p, t, results[t]))
  {
    assert rec in recs <==> rec in multiset(recs);
    assert rec in multiset(Records(p, Listed(results, order))) <==> rec in Records(p, Listed(results, order));
    Collected(Listed(results, order), RecordOf(p), rec);
    if r :| r in Listed(results, order) && RecordOf(p)(r) == Some(rec) {
      Collected(order, ResultAt(results), r);
    }
    if t :| t in results && rec == TaskRecord(t, SavedRun(p, t, results[t])) {
      assert t in order && ResultAt(results)(t) == Some(results[t]);
      Collected(order, ResultAt(results), results[t]);
      assert RecordOf(p)(results[t]) == Some(rec);
    }
  }

  lemma RecordsAreTasks(p: Pipeline, results: map<nat, TaskRunResult>, order: seq<nat>, recs: seq<TaskRecord>)
    requires Keyed(p, results) && Enumerates(p, results, order)
    requires multiset(recs) == multiset(Records(p, Listed(results, order)))
    ensures forall i :: 0 <= i < |recs| ==> recs[i].task < |p.tasks|
  {
    forall i | 0 <= i < |recs| ensures recs[i].task < |p.tasks| {
      RecordIs(p, results, order, recs, recs[i]);
    }
  }

  lemma {:induction false} EveryResultIsListed(p: Pipeline, results: map<nat, TaskRunResult>, order: seq<nat>)
    requires Keyed(p, results) && forall t :: t in order ==> t in results
    ensures |Records(p, Listed(results, order))| == |order|
  {
    if order != [] {
      var init, t := order[..|order| - 1], order[|order| - 1];
      assert order == init + [t];
      EveryResultIsListed(p, results, init);
      CollectAppend(init, t, ResultAt(results));
      CollectAppend(Listed(results, init), results[t], RecordOf(p));
    }
  }

  /** As many elements as there are in a list without repetition. */
  lemma {:induction false} DistinctSize(order: seq<nat>, ts: set<nat>)
    requires Distinct(order) && forall t :: t in order <==> t in ts
    ensures |order| == |ts|
  {
    if order == [] {
      assert ts == {};
    } else {
      var init, t := order[..|order| - 1], order[|order| - 1];
      assert order == init + [t];
      forall u ensures u in init <==> u in ts - {t} {
        if u in init {
          var i :| 0 <= i < |init| && init[i] == u;
          assert order[i] != order[|order| - 1];
        }
      }
      DistinctSize(init, ts - {t});
    }
  }

  lemma SavedRunTells(p: Pipeline, results: map<nat, TaskRunResult>, t: nat)
    requires t in results && t < |p.tasks|
    ensures Tells(p, results, TaskRecord(t, SavedRun(p, t, results[t])))
  {
  }

  lemma RecordsAreTold(p: Pipeline, results: map<nat, TaskRunResult>, order: seq<nat>, recs: seq<TaskRecord>)
    requires Keyed(p, results) && Enumerates(p, results, order)
    requires multiset(recs) == multiset(Records(p, Listed(results, order)))
    ensures RecordsTell(p, results, recs)
  {
    EveryResultIsListed(p, results, order);
    DistinctSize(order, results.Keys);
    assert |recs| == |multiset(recs)| == |Records(p, Listed(results, order))|;
    assert |results| == |results.Keys|;
    forall rec | rec in recs ensures Tells(p, results, rec) {
      RecordIs(p, results, order, recs, rec);
      SavedRunTells(p, results, rec.task);
    }
    forall t | t in results ensures exists rec :: rec in recs && rec.task == t {
      RecordIs(p, results, order, recs, TaskRecord(t, SavedRun(p, t, results[t])));
    }
  }

  lemma {:induction false} FatalErrorsAre(vs: seq<Entry<Verdict>>)
    ensures HasFatalErrors(FatalErrors(vs)) <==> exists v :: v in vs && v.item.error.Some?
  {
    if vs != [] {
      var init, last := vs[..|vs| - 1], vs[|vs| - 1];
      assert vs == init + [last];
      FatalErrorsAre(init);
      assert HasFatalErrors(FatalErrors(vs)) <==> HasFatalErrors(FatalErrors(init)) || last.item.error.Some? by {
        HasFatalErrorsAppend(FatalErrors(init), last.item.error);
      }
    }
  }

  lemma HasFatalErrorsAppend(errors: seq<Option<string>>, e: Option<string>)
    ensures HasFatalErrors(errors + [e]) <==> HasFatalErrors(errors) || e.Some?
  {
    var longer := errors + [e];
    assert longer[|errors|] == e;
    if i :| 0 <= i < |errors| && errors[i].Some? {
      assert longer[i].Some?;
    }
  }

  /** The run has a fatal error exactly if a terminal task erred. */
  lemma ErroredIffTerminalErrs(p: Pipeline, s: State, order: seq<nat>, recs: seq<TaskRecord>)
    requires Keyed(p, s.results) && Enumerates(p, s.results, order)
    requires multiset(recs) == multiset(Records(p, Listed(s.results, order)))
    ensures HasFatalErrors(FatalErrors(Collect(recs, RecordVerdict(p)))) <==> TerminalErrs(p, s)
  {
    hide HasFatalErrors, Collect, Records, Listed, FatalErrors, Enumerates, Keyed;
    var vs := Collect(recs, RecordVerdict(p));
    FatalErrorsAre(vs);
    if v :| v in vs && v.item.error.Some? {
      FatalIsTerminal(p, s, order, recs, v);
    }
    if t :| t in s.results && t < |p.tasks| && p.tasks[t].outputs == [] && s.results[t].result.error.Some? {
      TerminalIsFatal(p, s, order, recs, t);
    }
  }

  lemma FatalIsTerminal(p: Pipeline, s: State, order: seq<nat>, recs: seq<TaskRecord>, v: Entry<Verdict>)
    requires Keyed(p, s.results) && Enumerates(p, s.results, order)
    requires multiset(recs) == multiset(Records(p, Listed(s.results, order)))
    requires v in Collect(recs, RecordVerdict(p)) && v.item.error.Some?
    ensures TerminalErrs(p, s)
  {
    Collected(recs, RecordVerdict(p), v);
    hide Collect, Records, Listed, Enumerates;
    var rec :| rec in recs && RecordVerdict(p)(rec) == Some(v);
    RecordIs(p, s.results, order, recs, rec);
  }

  lemma TerminalIsFatal(p: Pipeline, s: State, order: seq<nat>, recs: seq<TaskRecord>, t: nat)
    requires Keyed(p, s.results) && Enumerates(p, s.results, order)
    requires multiset(recs) == multiset(Records(p, Listed(s.results, order)))
    requires t in s.results && t < |p.tasks| && p.tasks[t].outputs == [] && s.results[t].result.error.Some?
    ensures exists v :: v in Collect(recs, RecordVerdict(p)) && v.item.error.Some?
  {
    hide Collect, Records, Listed, Enumerates;
    var rec := TaskRecord(t, SavedRun(p, t, s.results[t]));
    RecordIs(p, s.results, order, recs, rec);
    var v := RecordVerdict(p)(rec).value;
    Collected(recs, RecordVerdict(p), v);
    assert v.item.error.Some?;
  }

  // ----- FinalResult -----

  datatype FinalResult = FinalResult(
    values: seq<Value>,
    allErrors: seq<Option<GoError>>,
    fatalErrors: seq<Option<GoError>>)

  function IndexOrder(p: Pipeline): (TaskRunResult, TaskRunResult) -> bool {
    (a: TaskRunResult, b: TaskRunResult) => OutputIndex(p, a.task) < OutputIndex(p, b.task)
  }

  ghost predicate ByIndex(p: Pipeline, trrs: seq<TaskRunResult>) {
    Ordered(IndexOrder(p), trrs)
  }

  lemma ResultsHaveOrder(p: Pipeline)
    ensures WeakOrder(IndexOrder(p))
  {
  }

  function Messages(errors: seq<Option<GoError>>): seq<Option<string>> {
    if errors == [] then []
    else
      Messages(errors[..|errors| - 1]) +
      [match errors[|errors| - 1] case None => None case Some(e) => Some(Message(e))]
  }

  function ResultError(): TaskRunResult -> Option<Option<GoError>> {
    (r: TaskRunResult) => Some(r.result.error)
  }

  /** The sums of `FinalResult` over results that are in order. */
  ghost predicate SumsUp(p: Pipeline, trrs: seq<TaskRunResult>, fr: FinalResult) {
    && fr.values == Outputs(Collect(trrs, ResultVerdict(p)))
    && Messages(fr.fatalErrors) == FatalErrors(Collect(trrs, ResultVerdict(p)))
    && fr.allErrors == Collect(trrs, ResultError())
  }

  /** `values` and `errors` are those of the terminal results, which are at the positions `at`. */
  ghost predicate OfTerminalResults(p: Pipeline, trrs: seq<TaskRunResult>, at: seq<nat>, values: seq<Value>,
      errors: seq<Option<GoError>>)
  {
    && |at| == |values| == |errors|
    && (forall j, k :: 0 <= j < k < |at| ==> at[j] < at[k])
    && (forall j :: 0 <= j < |at| ==>
        && at[j] < |trrs| && trrs[at[j]].task < |p.tasks|
        && p.tasks[trrs[at[j]].task].outputs == []
        && values[j] == trrs[at[j]].result.value && errors[j] == trrs[at[j]].result.error)
    && (forall i :: 0 <= i < |trrs| && trrs[i].task < |p.tasks| && p.tasks[trrs[i].task].outputs == [] ==> i in at)
  }

  /** All errors, nil ones included, and the values and errors of terminal results, in order. */
  ghost predicate FinalTells(p: Pipeline, trrs: seq<TaskRunResult>, fr: FinalResult) {
    && |fr.allErrors| == |trrs| && (forall i :: 0 <= i < |trrs| ==> fr.allErrors[i] == trrs[i].result.error)
    && exists at :: OfTerminalResults(p, trrs, at, fr.values, fr.fatalErrors)
  }

  lemma TerminalResultsAppend(p: Pipeline, trrs: seq<TaskRunResult>, r: TaskRunResult, at: seq<nat>,
      values: seq<Value>, errors: seq<Option<GoError>>)
    requires OfTerminalResults(p, trrs, at, values, errors) && r.task < |p.tasks|
    ensures if p.tasks[r.task].outputs == []
      then OfTerminalResults(p, trrs + [r], at + [|trrs|], values + [r.result.value], errors + [r.result.error])
      else OfTerminalResults(p, trrs + [r], at, values, errors)
  {
  }

  lemma NoResults(p: Pipeline)
    ensures SumsUp(p, [], FinalResult([], [], [])) && FinalTells(p, [], FinalResult([], [], []))
  {
    assert OfTerminalResults(p, [], [], [], []);
  }

  lemma FinalTellsNext(p: Pipeline, trrs: seq<TaskRunResult>, r: TaskRunResult, fr: FinalResult, longer: FinalResult)
    requires FinalTells(p, trrs, fr) && r.task < |p.tasks|
    requires longer.allErrors == fr.allErrors + [r.result.error]
    requires longer.values == if p.tasks[r.task].outputs == [] then fr.values + [r.result.value] else fr.values
    requires longer.fatalErrors ==
      if p.tasks[r.task].outputs == [] then fr.fatalErrors + [r.result.error] else fr.fatalErrors
    ensures FinalTells(p, trrs + [r], longer)
  {
    hide OfTerminalResults;
    var at :| OfTerminalResults(p, trrs, at, fr.values, fr.fatalErrors);
    TerminalResultsAppend(p, trrs, r, at, fr.values, fr.fatalErrors);
  }

  lemma IndexesRise(p: Pipeline, trrs: seq<TaskRunResult>)
    requires ByIndex(p, trrs) && forall i :: 0 <= i < |trrs| ==> trrs[i].task < |p.tasks|
    ensures forall i, j :: 0 <= i < j < |trrs| ==> p.tasks[trrs[i].task].index <= p.tasks[trrs[j].task].index
  {
    forall i, j | 0 <= i < j < |trrs| ensures p.tasks[trrs[i].task].index <= p.tasks[trrs[j].task].index {
      assert !IndexOrder(p)(trrs[j], trrs[i]);
    }
  }

  lemma SumsUpAppend(p: Pipeline, trrs: seq<TaskRunResult>, r: TaskRunResult, fr: FinalResult, longer: FinalResult)
    requires SumsUp(p, trrs, fr) && r.task < |p.tasks|
    requires longer.allErrors == fr.allErrors + [r.result.error]
    requires longer.values == if p.tasks[r.task].outputs == [] then fr.values + [r.result.value] else fr.values
    requires longer.fatalErrors ==
      if p.tasks[r.task].outputs == [] then fr.fatalErrors + [r.result.error] else fr.fatalErrors
    ensures SumsUp(p, trrs + [r], longer)
  {
    CollectAppend(trrs, r, ResultError());
    CollectAppend(trrs, r, ResultVerdict(p));
    var vs := Collect(trrs, ResultVerdict(p));
    if IsTerminal(p, r.task) {
      VerdictsAppend(vs, Entry(OutputIndex(p, r.task), Verdict(r.result.value, ErrorDB(r.result))));
      assert longer.fatalErrors[..|fr.fatalErrors|] == fr.fatalErrors;
    } else {
      assert vs + [] == vs;
    }
  }

  /** `TaskRunResults.FinalResult`: sorts its receiver in place and panics, here `None`, exactly if
      no task is terminal. */
  method ComputeFinalResult(p: Pipeline, trrs: array<TaskRunResult>) returns (fr: Option<FinalResult>)
    requires forall i :: 0 <= i < trrs.Length ==> trrs[i].task < |p.tasks|
    modifies trrs
    ensures ByIndex(p, trrs[..]) && multiset(trrs[..]) == multiset(old(trrs[..]))
    ensures fr.None? <==> forall r :: r in trrs[..] ==> !IsTerminal(p, r.task)
    ensures fr.Some? ==> SumsUp(p, trrs[..], fr.value) && FinalTells(p, trrs[..], fr.value)
    ensures forall i :: 0 <= i < trrs.Length ==> trrs[i].task < |p.tasks|
    ensures forall i, j :: 0 <= i < j < trrs.Length ==> p.tasks[trrs[i].task].index <= p.tasks[trrs[j].task].index
  {
    ResultsHaveOrder(p);
    var sorted := Slice(IndexOrder(p), trrs[..]);
    assert |sorted| == |multiset(sorted)| == |trrs[..]|;
    forall i | 0 <= i < trrs.Length ensures sorted[i].task < |p.tasks| {
      assert sorted[i] in multiset(trrs[..]);
    }
    forall i | 0 <= i < trrs.Length {
      trrs[i] := sorted[i];
    }
    assert trrs[..] == sorted;
    IndexesRise(p, sorted);
    var found, sums := SumResults(p, sorted);
    fr := if found then Some(sums) else None;
  }

  /** The summing loop of `FinalResult`. */
  method SumResults(p: Pipeline, trrs: seq<TaskRunResult>) returns (found: bool, fr: FinalResult)
    requires forall i :: 0 <= i < |trrs| ==> trrs[i].task < |p.tasks|
    ensures SumsUp(p, trrs, fr) && FinalTells(p, trrs, fr)
    ensures found <==> exists r :: r in trrs && IsTerminal(p, r.task)
  {
    hide SumsUp, FinalTells;
    found, fr := false, FinalResult([], [], []);
    NoResults(p);
    assert trrs[..0] == [];
    for i := 0 to |trrs|
      invariant SumsUp(p, trrs[..i], fr) && FinalTells(p, trrs[..i], fr)
      invariant found <==> exists r :: r in trrs[..i] && IsTerminal(p, r.task)
    {
      var r, before := trrs[i], fr;
      assert trrs[..i + 1] == trrs[..i] + [r];
      fr := fr.(allErrors := fr.allErrors + [r.result.error]);
      if IsTerminal(p, r.task) {
        fr := fr.(values := fr.values + [r.result.value], fatalErrors := fr.fatalErrors + [r.result.error]);
        found := true;
      }
      SumsUpAppend(p, trrs[..i], r, before, fr);
      FinalTellsNext(p, trrs[..i], r, before, fr);
    }
    assert trrs[..|trrs|] == trrs;
  }

  // ----- the two aggregations agree -----

  /** Terminal tasks have distinct output indices. */
  ghost predicate DistinctTerminals(p: Pipeline) {
    forall t, u :: IsTerminal(p, t) && IsTerminal(p, u) && OutputIndex(p, t) == OutputIndex(p, u) ==> t == u
  }

  lemma {:induction false} VerdictsOfRecords(p: Pipeline, trrs: seq<TaskRunResult>)
    requires forall i :: 0 <= i < |trrs| ==> trrs[i].task < |p.tasks|
    ensures Collect(Records(p, trrs), RecordVerdict(p)) == Collect(trrs, ResultVerdict(p))
  {
    if trrs != [] {
      var init, last := trrs[..|trrs| - 1], trrs[|trrs| - 1];
      VerdictsOfRecords(p, init);
      CollectAppend(Records(p, init), RecordOf(p)(last).value, RecordVerdict(p));
    }
  }

  lemma ListedAreTasks(p: Pipeline, results: map<nat, TaskRunResult>, order: seq<nat>)
    requires Keyed(p, results)
    ensures forall i :: 0 <= i < |Listed(results, order)| ==> Listed(results, order)[i].task < |p.tasks|
  {
    forall r | r in Listed(results, order) ensures r.task < |p.tasks| {
      Collected(order, ResultAt(results), r);
    }
  }

  lemma EnumerationsPermute(p: Pipeline, results: map<nat, TaskRunResult>, a: seq<nat>, b: seq<nat>)
    requires Enumerates(p, results, a) && Enumerates(p, results, b)
    ensures multiset(a) == multiset(b)
  {
    assert forall t :: t in a <==> t in results;
    DistinctPermute(a, b);
  }

  lemma VerdictsPermute(p: Pipeline, results: map<nat, TaskRunResult>, order: seq<nat>, order': seq<nat>,
      recs: seq<TaskRecord>, trrs: seq<TaskRunResult>)
    requires Keyed(p, results) && Enumerates(p, results, order) && Enumerates(p, results, order')
    requires multiset(recs) == multiset(Records(p, Listed(results, order)))
    requires multiset(trrs) == multiset(Listed(results, order'))
    ensures multiset(Collect(recs, RecordVerdict(p))) == multiset(Collect(trrs, ResultVerdict(p)))
  {
    EnumerationsPermute(p, results, order, order');
    CollectPermutes(order, order', ResultAt(results));
    ListedAreTasks(p, results, order);
    VerdictsOfRecords(p, Listed(results, order));
    CollectPermutes(recs, Records(p, Listed(results, order)), RecordVerdict(p));
    CollectPermutes(trrs, Listed(results, order), ResultVerdict(p));
  }

  lemma RecordVerdictsSorted(p: Pipeline, recs: seq<TaskRecord>)
    requires InOrder(p, recs)
    ensures Sorted(Collect(recs, RecordVerdict(p)))
  {
    var f := RecordVerdict(p);
    forall i, j | 0 <= i < j < |recs| && f(recs[i]).Some? && f(recs[j]).Some?
      ensures f(recs[i]).value.key <= f(recs[j]).value.key
    {
      assert !RecordOrder(p)(recs[j], recs[i]);
    }
    CollectSorted(recs, f);
  }

  lemma ResultVerdictsSorted(p: Pipeline, trrs: seq<TaskRunResult>)
    requires ByIndex(p, trrs)
    ensures Sorted(Collect(trrs, ResultVerdict(p)))
  {
    assert forall i, j :: 0 <= i < j < |trrs| ==> !IndexOrder(p)(trrs[j], trrs[i]);
    CollectSorted(trrs, ResultVerdict(p));
  }

  lemma VerdictsHaveKeys(p: Pipeline, results: map<nat, TaskRunResult>, order: seq<nat>, recs: seq<TaskRecord>)
    requires Keyed(p, results) && Enumerates(p, results, order) && DistinctTerminals(p)
    requires multiset(recs) == multiset(Records(p, Listed(results, order)))
    ensures KeyDetermines(Collect(recs, RecordVerdict(p)))
  {
    var f, vs := RecordVerdict(p), Collect(recs, RecordVerdict(p));
    forall x, y | x in vs && y in vs && x.key == y.key ensures x == y {
      Collected(recs, f, x);
      Collected(recs, f, y);
      var a :| a in recs && f(a) == Some(x);
      var b :| b in recs && f(b) == Some(y);
      RecordIs(p, results, order, recs, a);
      RecordIs(p, results, order, recs, b);
      assert a.task == b.task;
    }
  }

  /** The runner's own fold and `FinalResult` agree, for every two orders of iterating the map and
      every outcome of the two unstable sorts: on the multiset of terminal outputs and errors, and on
      their sequence when terminal tasks have distinct output indices. */
  lemma AggregationsAgree(p: Pipeline, results: map<nat, TaskRunResult>, order: seq<nat>, order': seq<nat>,
      recs: seq<TaskRecord>, trrs: seq<TaskRunResult>, fr: FinalResult)
    requires Keyed(p, results) && Enumerates(p, results, order) && Enumerates(p, results, order')
    requires InOrder(p, recs) && multiset(recs) == multiset(Records(p, Listed(results, order)))
    requires ByIndex(p, trrs) && multiset(trrs) == multiset(Listed(results, order')) && SumsUp(p, trrs, fr)
    ensures multiset(Collect(recs, RecordVerdict(p))) == multiset(Collect(trrs, ResultVerdict(p)))
    ensures HasFatalErrors(FatalErrors(Collect(recs, RecordVerdict(p)))) <==> HasFatalErrors(Messages(fr.fatalErrors))
    ensures DistinctTerminals(p) ==>
      && fr.values == Outputs(Collect(recs, RecordVerdict(p)))
      && Messages(fr.fatalErrors) == FatalErrors(Collect(recs, RecordVerdict(p)))
  {
    hide Keyed, Enumerates, InOrder, ByIndex, DistinctTerminals, Collect, Records, Listed, HasFatalErrors, Outputs,
      FatalErrors;
    var xs, ys := Collect(recs, RecordVerdict(p)), Collect(trrs, ResultVerdict(p));
    VerdictsPermute(p, results, order, order', recs, trrs);
    SameFatalErrors(xs, ys);
    if DistinctTerminals(p) {
      RecordVerdictsSorted(p, recs);
      ResultVerdictsSorted(p, trrs);
      VerdictsHaveKeys(p, results, order, recs);
      SortedPermutationsAgree(xs, ys);
    }
  }

  lemma SameFatalErrors(xs: seq<Entry<Verdict>>, ys: seq<Entry<Verdict>>)
    requires multiset(xs) == multiset(ys)
    ensures HasFatalErrors(FatalErrors(xs)) <==> HasFatalErrors(FatalErrors(ys))
  {
    FatalErrorsAre(xs);
    FatalErrorsAre(ys);
    assert forall v :: v in xs <==> v in multiset(xs);
    assert forall v :: v in ys <==> v in multiset(ys);
  }

  // ----- the results of a run -----

  lemma KeyedStored(p: Pipeline, results: map<nat, TaskRunResult>, t: nat, r: TaskRunResult)
    requires Keyed(p, results) && t < |p.tasks| && r.task == t
    ensures Keyed(p, results[t := r])
  {
  }

  lemma KeyedRemaining(p: Pipeline, results: map<nat, TaskRunResult>, now: int)
    requires PositionalIds(p) && Keyed(p, results)
    ensures Keyed(p, MarkRemaining(p, results, Cancelled, now))
  {
    MarkRemainingFills(p, results, Cancelled, now);
  }

  lemma KeyedReceive(p: Pipeline, s: State, r: TaskRunResult, now: int)
    requires WellFormed(p) && r.task < |p.tasks| && s.waiting > 0 && Keyed(p, s.results)
    ensures Keyed(p, Receive(p, s, r, now).results)
  {
    hide SetVariable, NewMemoryTaskRun, InverseLinks, Keyed, MarkRemaining;
    var s2 := StoreVariable(p, StoreReport(s, r), r, now);
    KeyedStored(p, s.results, r.task, Counted(s, r));
    KeyedRemaining(p, s.results[r.task := Counted(s, r)], now);
    if !r.isPending && !s2.exiting && !MustRetry(p, Counted(s, r).attempts, r) {
      Ledgers.OutputsDistinct(p, r.task);
      Releases.ReleaseQueues(p, s2, p.tasks[r.task].outputs);
    }
  }

  lemma KeyedStep(p: Pipeline, s: State, e: Event)
    requires WellFormed(p) && Keyed(p, s.results) && Enabled(p, s, e)
    ensures Keyed(p, Apply(p, s, e).results)
  {
    hide Keyed, Receive, NewMemoryTaskRun;
    if e.Deliver? {
      KeyedReceive(p, s, e.report, e.now);
    }
  }

  lemma {:induction false} KeyedRun(p: Pipeline, s0: State, tr: Trace)
    requires WellFormed(p) && Keyed(p, s0.results) && IsRun(p, s0, tr)
    ensures Keyed(p, After(p, s0, tr).results)
  {
    hide Keyed, Apply, Enabled;
    if tr.Then? {
      KeyedRun(p, s0, tr.prev);
      KeyedStep(p, After(p, s0, tr.prev), tr.event);
    }
  }

  /** After a fail-early error the run is errored, however its results are ordered. */
  lemma FailEarlyRunIsErrored(p: Pipeline, s0: State, tr: Trace, later: Trace, r: TaskRunResult, now: int,
      order: seq<nat>, recs: seq<TaskRecord>)
    requires WellFormed(p) && Inv(p, s0) && !s0.exiting && Keyed(p, s0.results)
    requires IsRun(p, s0, later) && Continues(tr, later)
    requires tr.Then? && tr.event == Deliver(r, now) && IsRun(p, s0, tr)
    requires r.task < |p.tasks| && Fails(p, r) && !r.isPending
    requires Enumerates(p, After(p, s0, later).results, order)
    requires multiset(recs) == multiset(Records(p, Listed(After(p, s0, later).results, order)))
    ensures HasFatalErrors(FatalErrors(Collect(recs, RecordVerdict(p))))
  {
    hide Inv, Keyed, Enumerates, Fails, TerminalErrs, HasFatalErrors, After, IsRun, Continues, Collect, Records, Listed,
      FatalErrors, SortedLinks, InverseLinks, PositionalIds;
    FailEarlyErrsAtTerminal(p, s0, tr, later, r, now);
    KeyedRun(p, s0, later);
    ErroredIffTerminalErrs(p, After(p, s0, later), order, recs);
  }

  /** A run that ends with nothing pending has a record for every task, so `FinalResult` finds a
      terminal one unless the pipeline is empty. */
  lemma CompleteRunHasAllRecords(p: Pipeline, s0: State, tr: Trace, order: seq<nat>)
    requires WellFormed(p) && Inv(p, s0) && Keyed(p, s0.results) && IsRun(p, s0, tr)
    requires After(p, s0, tr).closed && !After(p, s0, tr).pending
    requires Enumerates(p, After(p, s0, tr).results, order)
    ensures forall t :: 0 <= t < |p.tasks| ==> t in order
    ensures |p.tasks| > 0 ==> exists r :: r in Listed(After(p, s0, tr).results, order) && IsTerminal(p, r.task)
  {
    var s := After(p, s0, tr);
    Completeness.ResultsAtClose(p, s0, tr);
    assert Ledgers.AllHaveResults(p, LedgerOf(s));
    KeyedRun(p, s0, tr);
    hide Inv, IsRun, After, Listed, Completeness.ExactlyComplete, SortedLinks, InverseLinks, InRange, PositionalIds;
    if |p.tasks| > 0 {
      var t := TerminalBelow(p, 0);
      ListedHas(s.results, order, t);
    }
  }

  lemma ListedHas(results: map<nat, TaskRunResult>, order: seq<nat>, t: nat)
    requires t in results && t in order
    ensures results[t] in Listed(results, order)
  {
    assert ResultAt(results)(t) == Some(results[t]);
    Collected(order, ResultAt(results), results[t]);
  }
}
