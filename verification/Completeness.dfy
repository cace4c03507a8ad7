/** What a scheduler that has nothing left to wait for has computed. */
module Completeness {
  import opened Values
  import opened Pipelines
  import opened Scheduling
  import opened Tokens
  import opened Ledgers
  import opened Invariants

  lemma NothingOwned(p: Pipeline, s: State)
    requires Conserved(p, s) && s.waiting == 0
    ensures Owners(s) == {}
  {
    assert s.taskCh == [] && s.goroutines == multiset{};
  }

  /** A task that was started has all its ancestors finally completed. */
  lemma {:induction false} AncestorsAreDone(p: Pipeline, b: Ledger, t: nat, a: nat)
    requires WellFormed(p) && Core(p, b) && !b.exiting && t < |p.tasks| && Ancestor(p, a, t)
    requires t in b.results || t in b.owners
    ensures a in Done(b)
    decreases t
  {
    var i :| i in InputSet(p, t) && i < t && (i == a || Ancestor(p, a, i));
    assert i in Done(b);
    if i != a {
      AncestorsAreDone(p, b, i, a);
    }
  }

  /** At rest, a task without a result has a pending ancestor. */
  lemma {:induction false} MissingHasPendingAncestor(p: Pipeline, b: Ledger, t: nat) returns (a: nat)
    requires WellFormed(p) && Core(p, b) && !b.exiting && b.owners == {}
    requires t < |p.tasks| && t !in b.results
    ensures Ancestor(p, a, t) && PendingTask(b, a)
    decreases t
  {
    assert !(InputSet(p, t) <= Done(b));
    var i :| i in InputSet(p, t) && i !in Done(b);
    assert i < t;
    if i in b.results {
      a := i;
    } else {
      a := MissingHasPendingAncestor(p, b, i);
    }
  }

  lemma MissingExactly(p: Pipeline, b: Ledger, t: nat)
    requires WellFormed(p) && Core(p, b) && !b.exiting && b.owners == {} && t < |p.tasks|
    ensures t !in b.results <==> exists a :: Ancestor(p, a, t) && PendingTask(b, a)
  {
    if t !in b.results {
      var a := MissingHasPendingAncestor(p, b, t);
    } else if a :| Ancestor(p, a, t) && PendingTask(b, a) {
      AncestorsAreDone(p, b, t, a);
    }
  }

  ghost predicate ExactlyComplete(p: Pipeline, b: Ledger)
    requires WellFormed(p)
  {
    && (b.exiting || !b.pending ==> AllHaveResults(p, b))
    && (!b.exiting ==> forall t :: 0 <= t < |p.tasks| ==>
          (t !in b.results <==> exists a :: Ancestor(p, a, t) && PendingTask(b, a)))
  }

  lemma LedgerAtRest(p: Pipeline, b: Ledger)
    requires WellFormed(p) && Core(p, b) && b.owners == {}
    ensures ExactlyComplete(p, b)
  {
    hide WellFormed, Ancestor, CountersExact, ResultsClosed, ReadyStarted, OwnersReady;
    if !b.exiting {
      forall t | 0 <= t < |p.tasks|
        ensures t !in b.results <==> exists a :: Ancestor(p, a, t) && PendingTask(b, a)
      {
        MissingExactly(p, b, t);
      }
    }
  }

  /** Exact completeness of every run that has closed the task channel: every task has a result if
      the run is exiting or nothing is pending; otherwise a task lacks one exactly when a strict
      ancestor is pending. Nothing is left in the channel or in flight. */
  lemma ResultsAtClose(p: Pipeline, s0: State, tr: Trace)
    requires WellFormed(p) && Inv(p, s0) && IsRun(p, s0, tr) && After(p, s0, tr).closed
    ensures ExactlyComplete(p, LedgerOf(After(p, s0, tr)))
    ensures After(p, s0, tr).taskCh == [] && After(p, s0, tr).goroutines == multiset{}
  {
    hide Core, ExactlyComplete, Owners;
    RunKeeps(p, s0, tr);
    NothingOwned(p, After(p, s0, tr));
    LedgerAtRest(p, LedgerOf(After(p, s0, tr)));
  }
}
