/** The scheduler's books: counters, results, flags and who owns a token. The core invariant speaks
    only of these. */
module Ledgers {
  import opened Values
  import opened Ordering
  import opened Pipelines
  import opened Scheduling
  import opened Releases

  datatype Ledger = Ledger(
    dependencies: map<nat, nat>,
    results: map<nat, TaskRunResult>,
    pending: bool,
    exiting: bool,
    owners: set<nat>)

  /** Finally completed: a result that is not pending, and no token left. */
  ghost function Done(b: Ledger): set<nat> {
    set t | t in b.results && !b.results[t].isPending && t !in b.owners
  }

  ghost predicate PendingTask(b: Ledger, t: nat) {
    t in b.results && b.results[t].isPending
  }

  /** The number of inputs outside `done`. */
  ghost function OpenInputs(p: Pipeline, t: nat, done: set<nat>): nat
    requires t < |p.tasks|
  {
    |InputSet(p, t) - done|
  }

  lemma NothingOpen(p: Pipeline, t: nat, done: set<nat>)
    requires t < |p.tasks|
    ensures OpenInputs(p, t, done) == 0 <==> InputSet(p, t) <= done
  {
    hide InputSet;
    if InputSet(p, t) <= done {
      assert InputSet(p, t) - done == {};
    } else {
      var x :| x in InputSet(p, t) && x !in done;
      assert x in InputSet(p, t) - done;
    }
  }

  /** The counters count the inputs outside `done`. */
  ghost predicate Counts(p: Pipeline, deps: map<nat, nat>, done: set<nat>) {
    && (forall t :: 0 <= t < |p.tasks| ==> t in deps && deps[t] == OpenInputs(p, t, done))
    && (forall t :: t in deps ==> t < |p.tasks|)
  }

  /** Every counter is the number of inputs that are not finally completed. */
  ghost predicate CountersExact(p: Pipeline, b: Ledger) {
    Counts(p, b.dependencies, Done(b))
  }

  /** Whoever owns a token has all inputs finally completed. */
  ghost predicate OwnersReady(p: Pipeline, b: Ledger) {
    forall t :: t in b.owners ==> t < |p.tasks| && InputSet(p, t) <= Done(b)
  }

  /** Results are closed under predecessors. */
  ghost predicate ResultsClosed(p: Pipeline, b: Ledger) {
    forall t :: t in b.results ==> t < |p.tasks| && InputSet(p, t) <= Done(b)
  }

  /** No ready task is forgotten. */
  ghost predicate ReadyStarted(p: Pipeline, b: Ledger) {
    forall t :: 0 <= t < |p.tasks| && InputSet(p, t) <= Done(b) ==> t in b.results || t in b.owners
  }

  ghost predicate AllHaveResults(p: Pipeline, b: Ledger) {
    forall t :: 0 <= t < |p.tasks| ==> t in b.results
  }

  ghost predicate KnownResults(p: Pipeline, b: Ledger) {
    forall t :: t in b.results ==> t < |p.tasks|
  }

  /** `pending` is raised by a pending result, and pending tasks own no token. */
  ghost predicate PendingExact(b: Ledger) {
    && (b.pending <==> exists t :: PendingTask(b, t))
    && (forall t :: PendingTask(b, t) ==> t !in b.owners)
  }

  ghost predicate Core(p: Pipeline, b: Ledger) {
    && KnownResults(p, b)
    && OwnersReady(p, b)
    && PendingExact(b)
    && (if b.exiting then AllHaveResults(p, b)
        else CountersExact(p, b) && ResultsClosed(p, b) && ReadyStarted(p, b))
  }

  /** A task that has a result and no token keeps that result, and never gets a token again. */
  ghost predicate Stable(b: Ledger, b': Ledger) {
    forall t :: t in b.results && t !in b.owners ==>
      t in b'.results && t !in b'.owners && b'.results[t] == b.results[t]
  }

  lemma StableIsTransitive(a: Ledger, b: Ledger, c: Ledger)
    requires Stable(a, b) && Stable(b, c)
    ensures Stable(a, c)
  {
  }

  lemma StableKeepsDone(b: Ledger, b': Ledger)
    requires Stable(b, b')
    ensures Done(b) <= Done(b')
    ensures forall t :: t in Done(b) ==> b'.results[t] == b.results[t]
  {
  }

  // ----- the ways a report can be booked -----

  lemma OwnersReadyMono(p: Pipeline, b: Ledger, b': Ledger)
    requires OwnersReady(p, b) && Done(b) <= Done(b') && b'.owners <= b.owners
    ensures OwnersReady(p, b')
  {
  }

  lemma DoneUnchanged(b: Ledger, b': Ledger, r: TaskRunResult)
    requires r.task in b.owners && b'.results == b.results[r.task := r]
    requires (r.isPending && b'.owners == b.owners - {r.task}) || b'.owners == b.owners
    ensures Done(b') == Done(b) && Stable(b, b')
  {
  }

  lemma PendingAdded(b: Ledger, b': Ledger, r: TaskRunResult)
    requires PendingExact(b) && r.isPending
    requires b'.results == b.results[r.task := r] && b'.pending && b'.owners == b.owners - {r.task}
    ensures PendingExact(b')
  {
    assert PendingTask(b', r.task);
    assert forall t :: t != r.task ==> (PendingTask(b', t) <==> PendingTask(b, t));
  }

  lemma PendingKept(b: Ledger, b': Ledger, x: nat)
    requires PendingExact(b) && x in b.owners && !PendingTask(b', x)
    requires forall t :: t != x ==> (PendingTask(b', t) <==> PendingTask(b, t))
    requires b'.pending == b.pending
    requires forall t :: PendingTask(b', t) ==> t !in b'.owners
    ensures PendingExact(b')
  {
    assert !PendingTask(b, x);
  }

  lemma SamePending(b: Ledger, b': Ledger, r: TaskRunResult)
    requires b'.results == b.results[r.task := r]
    ensures forall t :: t != r.task ==> (PendingTask(b', t) <==> PendingTask(b, t))
    ensures PendingTask(b', r.task) <==> r.isPending
  {
  }

  lemma SameDoneKeepsCounters(p: Pipeline, b: Ledger, b': Ledger)
    requires CountersExact(p, b) && Done(b') == Done(b) && b'.dependencies == b.dependencies
    ensures CountersExact(p, b')
  {
    hide Done, InputSet;
  }

  lemma SameDoneKeepsClosed(p: Pipeline, b: Ledger, r: TaskRunResult, b': Ledger)
    requires ResultsClosed(p, b) && OwnersReady(p, b) && r.task in b.owners
    requires Done(b') == Done(b) && b'.results == b.results[r.task := r]
    ensures ResultsClosed(p, b')
  {
    hide Done, InputSet;
  }

  lemma SameDoneKeepsStarted(p: Pipeline, b: Ledger, r: TaskRunResult, b': Ledger)
    requires ReadyStarted(p, b) && Done(b') == Done(b) && b'.results == b.results[r.task := r]
    requires b.owners - {r.task} <= b'.owners
    ensures ReadyStarted(p, b')
  {
    hide Done, InputSet;
  }

  /** A report that does not complete its task leaves counters and readiness as they are. */
  lemma BookIncomplete(p: Pipeline, b: Ledger, r: TaskRunResult, b': Ledger)
    requires Core(p, b) && r.task in b.owners && Done(b') == Done(b)
    requires b'.results == b.results[r.task := r] && b'.dependencies == b.dependencies
    requires b'.exiting == b.exiting && b.owners - {r.task} <= b'.owners <= b.owners
    requires PendingExact(b')
    ensures Core(p, b')
  {
    OwnersReadyMono(p, b, b');
    OwnerIsTask(p, b, r.task);
    hide Done, OwnersReady, PendingExact, CountersExact, ResultsClosed, ReadyStarted;
    if !b.exiting {
      SameDoneKeepsCounters(p, b, b');
      SameDoneKeepsClosed(p, b, r, b');
      SameDoneKeepsStarted(p, b, r, b');
    }
  }

  lemma OwnerIsTask(p: Pipeline, b: Ledger, t: nat)
    requires OwnersReady(p, b) && t in b.owners
    ensures t < |p.tasks|
  {
  }

  /** A pending report: the token is gone, the task is not complete. */
  lemma BookPending(p: Pipeline, b: Ledger, r: TaskRunResult, b': Ledger)
    requires Core(p, b) && r.task in b.owners && r.isPending
    requires b' == b.(results := b.results[r.task := r], pending := true, owners := b.owners - {r.task})
    ensures Core(p, b') && Stable(b, b')
  {
    hide PendingExact, Stable, OwnersReady, CountersExact, ResultsClosed, ReadyStarted;
    DoneUnchanged(b, b', r);
    PendingAdded(b, b', r);
    BookIncomplete(p, b, r, b');
  }

  /** A failed report that will be retried: the token stays. */
  lemma BookRetry(p: Pipeline, b: Ledger, r: TaskRunResult, b': Ledger)
    requires Core(p, b) && r.task in b.owners && !r.isPending
    requires b' == b.(results := b.results[r.task := r])
    ensures Core(p, b') && Stable(b, b')
  {
    hide PendingExact, Stable, OwnersReady, CountersExact, ResultsClosed, ReadyStarted;
    DoneUnchanged(b, b', r);
    RetryPending(b, b', r);
    BookIncomplete(p, b, r, b');
  }

  lemma RetryPending(b: Ledger, b': Ledger, r: TaskRunResult)
    requires PendingExact(b) && r.task in b.owners && !r.isPending && b' == b.(results := b.results[r.task := r])
    ensures PendingExact(b')
  {
    SamePending(b, b', r);
    PendingKept(b, b', r.task);
  }

  /** While exiting, or on the step that starts to exit: every task has some result. */
  lemma BookExit(p: Pipeline, b: Ledger, r: TaskRunResult, b': Ledger)
    requires Core(p, b) && r.task in b.owners && !r.isPending
    requires b'.exiting && b'.pending == b.pending && b'.owners == b.owners - {r.task}
    requires forall t :: t in b'.results <==> 0 <= t < |p.tasks|
    requires b'.results[r.task] == r
    requires forall t :: t in b.results && t != r.task ==> b'.results[t] == b.results[t]
    requires forall t :: t in b'.results && t !in b.results && t != r.task ==> !b'.results[t].isPending
    ensures Core(p, b') && Stable(b, b')
  {
    assert Stable(b, b');
    StableKeepsDone(b, b');
    OwnersReadyMono(p, b, b');
    assert forall t :: t != r.task ==> (PendingTask(b', t) <==> PendingTask(b, t));
    PendingKept(b, b', r.task);
  }

  /** The books after a task is finally completed and its outputs have been released. */
  ghost predicate Completes(p: Pipeline, b: Ledger, r: TaskRunResult, b': Ledger)
    requires r.task < |p.tasks|
  {
    var outs := p.tasks[r.task].outputs;
    && b' == b.(results := b.results[r.task := r],
                dependencies := Decremented(b.dependencies, outs),
                owners := b'.owners)
    && (forall t :: t in b'.owners <==>
          (t in b.owners && t != r.task) || (t in outs && CounterAfter(b.dependencies, t) == 0))
  }

  /** Completing `x`, which is not in `d`, takes one open input from each of its outputs. */
  lemma CounterDropsByOne(p: Pipeline, deps: map<nat, nat>, d: set<nat>, x: nat, t: nat)
    requires InverseLinks(p) && x < |p.tasks| && t < |p.tasks| && x !in d
    requires t in deps && deps[t] == OpenInputs(p, t, d)
    ensures t in p.tasks[x].outputs <==> x in InputSet(p, t)
    ensures t in p.tasks[x].outputs ==> deps[t] > 0
    ensures (if t in p.tasks[x].outputs then CounterAfter(deps, t) else deps[t]) == OpenInputs(p, t, d + {x})
  {
    assert t in p.tasks[x].outputs <==> x in InputSet(p, t);
    SetMinusOne(InputSet(p, t), d, x);
  }

  lemma SetMinusOne(a: set<nat>, d: set<nat>, x: nat)
    requires x !in d
    ensures |a - (d + {x})| == if x in a then |a - d| - 1 else |a - d|
  {
    if x in a {
      assert a - (d + {x}) == (a - d) - {x};
    } else {
      assert a - (d + {x}) == a - d;
    }
  }

  /** The outputs of `x` have not been started; freed ones are those whose last open input was `x`. */
  lemma OutputsAreFresh(p: Pipeline, b: Ledger, x: nat, o: nat)
    requires InRange(p) && InverseLinks(p) && x < |p.tasks| && x in b.owners && o in p.tasks[x].outputs
    requires CountersExact(p, b) && OwnersReady(p, b) && ResultsClosed(p, b)
    ensures o < |p.tasks| && o !in b.owners && o !in b.results && o != x
    ensures CounterAfter(b.dependencies, o) == 0 <==> InputSet(p, o) <= Done(b) + {x}
  {
    CounterDropsByOne(p, b.dependencies, Done(b), x, o);
    assert x in InputSet(p, o) && x !in Done(b);
    NothingOpen(p, o, Done(b) + {x});
  }

  lemma AllOutputsAreFresh(p: Pipeline, b: Ledger, x: nat)
    requires InRange(p) && InverseLinks(p) && x < |p.tasks| && x in b.owners
    requires CountersExact(p, b) && OwnersReady(p, b) && ResultsClosed(p, b)
    ensures forall o :: o in p.tasks[x].outputs ==> o < |p.tasks| && o !in b.owners && o !in b.results && o != x
    ensures forall o :: o in p.tasks[x].outputs ==>
      (CounterAfter(b.dependencies, o) == 0 <==> InputSet(p, o) <= Done(b) + {x})
  {
    forall o | o in p.tasks[x].outputs
      ensures o < |p.tasks| && o !in b.owners && o !in b.results && o != x
      ensures CounterAfter(b.dependencies, o) == 0 <==> InputSet(p, o) <= Done(b) + {x}
    {
      OutputsAreFresh(p, b, x, o);
    }
  }

  lemma OutputsDistinct(p: Pipeline, x: nat)
    requires InRange(p) && SortedLinks(p) && x < |p.tasks|
    ensures Distinct(p.tasks[x].outputs)
    ensures forall i :: 0 <= i < |p.tasks[x].outputs| ==> p.tasks[x].outputs[i] < |p.tasks|
  {
  }

  lemma CompleteDone(p: Pipeline, b: Ledger, r: TaskRunResult, b': Ledger)
    requires r.task < |p.tasks| && r.task in b.owners && !r.isPending && Completes(p, b, r, b')
    requires forall o :: o in p.tasks[r.task].outputs ==> o !in b.results && o != r.task
    ensures Done(b') == Done(b) + {r.task} && Stable(b, b')
  {
  }

  lemma CompleteKeys(p: Pipeline, deps: map<nat, nat>, outs: seq<nat>)
    requires Distinct(outs) && (forall t :: t in deps ==> t < |p.tasks|)
    requires forall i :: 0 <= i < |outs| ==> outs[i] < |p.tasks|
    ensures forall t :: t in Decremented(deps, outs) ==> t < |p.tasks|
  {
    DecrementedCounters(deps, outs);
  }

  lemma CompleteCounter(p: Pipeline, deps: map<nat, nat>, done: set<nat>, x: nat, t: nat)
    requires InRange(p) && SortedLinks(p) && InverseLinks(p) && x < |p.tasks| && t < |p.tasks| && x !in done
    requires t in deps && deps[t] == OpenInputs(p, t, done)
    ensures t in Decremented(deps, p.tasks[x].outputs)
    ensures Decremented(deps, p.tasks[x].outputs)[t] == OpenInputs(p, t, done + {x})
  {
    hide SortedLinks, InverseLinks, InRange, Decremented, OpenInputs, Distinct, CounterAfter;
    OutputsDistinct(p, x);
    DecrementedCounters(deps, p.tasks[x].outputs);
    CounterDropsByOne(p, deps, done, x, t);
  }

  /** A step of the counters, seen from the set of completed tasks. */
  lemma CountsAfterOne(p: Pipeline, deps: map<nat, nat>, done: set<nat>, x: nat, done': set<nat>)
    requires InRange(p) && SortedLinks(p) && InverseLinks(p) && x < |p.tasks| && x !in done
    requires Counts(p, deps, done) && done' == done + {x}
    ensures Counts(p, Decremented(deps, p.tasks[x].outputs), done')
  {
    hide SortedLinks, InverseLinks, InRange, Decremented, OpenInputs, Distinct;
    OutputsDistinct(p, x);
    CompleteKeys(p, deps, p.tasks[x].outputs);
    forall t | 0 <= t < |p.tasks|
      ensures t in Decremented(deps, p.tasks[x].outputs)
      ensures Decremented(deps, p.tasks[x].outputs)[t] == OpenInputs(p, t, done')
    {
      CompleteCounter(p, deps, done, x, t);
    }
  }

  lemma CompleteCounters(p: Pipeline, b: Ledger, r: TaskRunResult, b': Ledger)
    requires InRange(p) && SortedLinks(p) && InverseLinks(p) && r.task < |p.tasks|
    requires CountersExact(p, b) && r.task in b.owners
    requires Completes(p, b, r, b') && Done(b') == Done(b) + {r.task}
    ensures CountersExact(p, b')
  {
    assert r.task !in Done(b);
    hide SortedLinks, InverseLinks, InRange, Decremented, Done, Counts;
    CountsAfterOne(p, b.dependencies, Done(b), r.task, Done(b'));
  }

  lemma CompleteOwners(p: Pipeline, b: Ledger, r: TaskRunResult, b': Ledger)
    requires InRange(p) && InverseLinks(p) && r.task < |p.tasks|
    requires CountersExact(p, b) && OwnersReady(p, b) && ResultsClosed(p, b) && r.task in b.owners
    requires Completes(p, b, r, b') && Done(b') == Done(b) + {r.task}
    ensures OwnersReady(p, b')
  {
    forall t | t in b'.owners ensures t < |p.tasks| && InputSet(p, t) <= Done(b') {
      if t in p.tasks[r.task].outputs {
        OutputsAreFresh(p, b, r.task, t);
      }
    }
  }

  lemma CompleteResults(p: Pipeline, b: Ledger, r: TaskRunResult, b': Ledger)
    requires r.task < |p.tasks| && OwnersReady(p, b) && ResultsClosed(p, b) && r.task in b.owners
    requires Completes(p, b, r, b') && Done(b') == Done(b) + {r.task}
    ensures ResultsClosed(p, b')
  {
  }

  lemma CompleteStarts(p: Pipeline, b: Ledger, r: TaskRunResult, b': Ledger)
    requires InRange(p) && InverseLinks(p) && r.task < |p.tasks|
    requires CountersExact(p, b) && OwnersReady(p, b) && ResultsClosed(p, b) && ReadyStarted(p, b)
    requires r.task in b.owners && Completes(p, b, r, b') && Done(b') == Done(b) + {r.task}
    ensures ReadyStarted(p, b')
  {
    forall t | 0 <= t < |p.tasks| && InputSet(p, t) <= Done(b')
      ensures t in b'.results || t in b'.owners
    {
      if t in p.tasks[r.task].outputs {
        OutputsAreFresh(p, b, r.task, t);
      } else {
        assert r.task !in InputSet(p, t);
        assert InputSet(p, t) <= Done(b);
      }
    }
  }

  lemma CompletePending(p: Pipeline, b: Ledger, r: TaskRunResult, b': Ledger)
    requires InRange(p) && InverseLinks(p) && r.task < |p.tasks| && !r.isPending
    requires CountersExact(p, b) && OwnersReady(p, b) && ResultsClosed(p, b) && PendingExact(b)
    requires r.task in b.owners && Completes(p, b, r, b')
    ensures PendingExact(b')
  {
    SamePending(b, b', r);
    forall t | PendingTask(b', t) ensures t !in b'.owners {
      assert PendingTask(b, t);
      if t in p.tasks[r.task].outputs {
        OutputsAreFresh(p, b, r.task, t);
      }
    }
    PendingKept(b, b', r.task);
  }

  /** A task is finally completed and its outputs are released. */
  lemma BookComplete(p: Pipeline, b: Ledger, r: TaskRunResult, b': Ledger)
    requires WellFormed(p) && Core(p, b) && !b.exiting && r.task in b.owners && !r.isPending
    requires r.task < |p.tasks| && Completes(p, b, r, b')
    ensures Core(p, b') && Stable(b, b')
    ensures Done(b') == Done(b) + {r.task}
  {
    AllOutputsAreFresh(p, b, r.task);
    CompleteDone(p, b, r, b');
    CompleteCounters(p, b, r, b');
    CompleteOwners(p, b, r, b');
    CompleteResults(p, b, r, b');
    CompleteStarts(p, b, r, b');
    CompletePending(p, b, r, b');
  }
}
