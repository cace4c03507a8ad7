/** Where the token of each task is, and how events move it. */
module Phases {
  import opened Values
  import opened Ordering
  import opened Pipelines
  import opened Scheduling
  import opened Tokens
  import opened Releases
  import opened Ledgers
  import opened Invariants

  datatype Phase = Idle | Asleep | Waiting | Working | Ready

  ghost predicate Has(s: State, t: nat, phase: Phase) {
    match phase
    case Idle => t !in Owners(s)
    case Asleep => exists g :: g in s.goroutines && g.Sleeping? && g.task == t
    case Waiting => exists run :: run in s.taskCh && run.task == t
    case Working => exists g :: g in s.goroutines && g.Executing? && g.run.task == t
    case Ready => exists g :: g in s.goroutines && g.Reporting? && g.report.task == t
  }

  ghost function PhaseOf(s: State, t: nat): Phase {
    if Has(s, t, Asleep) then Asleep
    else if Has(s, t, Waiting) then Waiting
    else if Has(s, t, Working) then Working
    else if Has(s, t, Ready) then Ready
    else Idle
  }

  lemma WaitingIsQueued(s: State, t: nat)
    ensures Has(s, t, Waiting) <==> t in QueuedTasks(s.taskCh)
  {
  }

  lemma OthersAreLive(s: State, t: nat, phase: Phase)
    requires Has(s, t, phase) && phase != Idle && phase != Waiting
    ensures t in LiveTasks(s.goroutines)
  {
    var g :| g in s.goroutines && g.Owner() == t;
  }

  lemma PlacesAreExclusive(s: State, t: nat, a: Phase, b: Phase)
    requires Unique(s) && a != Idle && b != Idle && Has(s, t, a) && Has(s, t, b)
    ensures a == b
  {
    WaitingIsQueued(s, t);
    if a != Waiting {
      OthersAreLive(s, t, a);
    }
    if b != Waiting {
      OthersAreLive(s, t, b);
    }
    if a != Waiting && b != Waiting {
      hide QueuedTasks, LiveTasks;
      var g :| g in s.goroutines && g.Owner() == t;
      assert forall h :: h in s.goroutines && h.Owner() == t ==> h == g;
    }
  }

  lemma OwnersAreSomewhere(s: State, t: nat)
    ensures t in Owners(s) <==> exists phase :: phase != Idle && Has(s, t, phase)
  {
    if run :| run in s.taskCh && run.task == t {
      assert Has(s, t, Waiting);
    }
    if g :| g in s.goroutines && g.Owner() == t {
      assert Has(s, t,
        match g case Executing(_) => Working case Sleeping(_, _, _) => Asleep case Reporting(_) => Ready);
    }
    if phase :| phase != Idle && Has(s, t, phase) {
      PlaceMakesOwner(s, t, phase);
    }
  }

  lemma PlaceMakesOwner(s: State, t: nat, phase: Phase)
    requires phase != Idle && Has(s, t, phase)
    ensures t in Owners(s)
  {
    if phase == Waiting {
      var run :| run in s.taskCh && run.task == t;
    } else {
      var g :| g in s.goroutines && g.Owner() == t;
    }
  }

  lemma PhaseIsUnique(s: State, t: nat, phase: Phase)
    requires Unique(s)
    ensures Has(s, t, phase) <==> PhaseOf(s, t) == phase
  {
    OwnersAreSomewhere(s, t);
    hide Unique, Owners;
    if exists a :: a != Idle && Has(s, t, a) {
      var a :| a != Idle && Has(s, t, a);
      assert PhaseOf(s, t) != Idle;
      PlacesAreExclusive(s, t, a, PhaseOf(s, t));
      if phase != Idle && Has(s, t, phase) {
        PlacesAreExclusive(s, t, a, phase);
      }
    }
  }

  lemma OwnersHavePhases(s: State, t: nat)
    requires Unique(s)
    ensures t in Owners(s) <==> PhaseOf(s, t) != Idle
  {
    PhaseIsUnique(s, t, Idle);
  }

  /** The tokens of `t` are the same in both states. */
  ghost predicate SameTokens(s: State, s': State, t: nat) {
    && (forall g: Goroutine :: g.Owner() == t ==> (g in s.goroutines <==> g in s'.goroutines))
    && (forall run: MemoryTaskRun :: run.task == t ==> (run in s.taskCh <==> run in s'.taskCh))
  }

  lemma SameTokensSamePhase(s: State, s': State, t: nat)
    requires SameTokens(s, s', t)
    ensures PhaseOf(s', t) == PhaseOf(s, t)
  {
    SameTokensSameHas(s, s', t, Asleep);
    SameTokensSameHas(s, s', t, Waiting);
    SameTokensSameHas(s, s', t, Working);
    SameTokensSameHas(s, s', t, Ready);
  }

  lemma SameTokensSameHas(s: State, s': State, t: nat, phase: Phase)
    requires SameTokens(s, s', t) && phase != Idle
    ensures Has(s, t, phase) <==> Has(s', t, phase)
  {
    assert forall g: Goroutine :: g.Sleeping? && g.task == t ==> g.Owner() == t;
    assert forall g: Goroutine :: g.Executing? && g.run.task == t ==> g.Owner() == t;
    assert forall g: Goroutine :: g.Reporting? && g.report.task == t ==> g.Owner() == t;
  }

  /** Only the token of `x` moved, to `phase`. */
  ghost predicate Moved(s: State, s': State, x: nat, phase: Phase) {
    PhaseOf(s', x) == phase && forall t: nat :: t != x ==> PhaseOf(s', t) == PhaseOf(s, t)
  }

  lemma OnlyMoved(s: State, s': State, x: nat, phase: Phase)
    requires Unique(s') && Has(s', x, phase)
    requires forall t: nat :: t != x ==> SameTokens(s, s', t)
    ensures Moved(s, s', x, phase)
  {
    hide SameTokens, Unique;
    PhaseIsUnique(s', x, phase);
    forall t: nat | t != x ensures PhaseOf(s', t) == PhaseOf(s, t) {
      SameTokensSamePhase(s, s', t);
    }
  }

  lemma BecomeMovesPhase(s: State, g: Goroutine, r: TaskRunResult)
    requires Unique(s) && g in s.goroutines && g.Owner() == r.task
    ensures Moved(s, Become(s, g, Reporting(r)), r.task, Ready)
  {
    hide Owners, Unique;
    var h := Reporting(r);
    var s' := Become(s, g, h);
    BecomeKeepsOwner(s, g, h);
    assert h.Owner() == r.task && h in s'.goroutines;
    assert forall x :: x != g && x != h ==> (x in s'.goroutines <==> x in s.goroutines);
    OnlyMoved(s, s', r.task, Ready);
  }

  lemma DispatchMovesPhase(p: Pipeline, s: State, t: nat)
    requires InRange(p) && Unique(s) && Enabled(p, s, Dispatch(t))
    ensures PhaseOf(s, t) == Waiting && Moved(s, Apply(p, s, Dispatch(t)), t, Working)
  {
    hide Owners, Unique;
    var s' := Apply(p, s, Dispatch(t));
    var run := s.taskCh[0];
    assert Executing(run).Owner() == t && Executing(run) in s'.goroutines;
    DispatchMovesToken(s, s');
    assert s.taskCh == [run] + s'.taskCh;
    assert run in s.taskCh;
    PhaseIsUnique(s, t, Waiting);
    OnlyMoved(s, s', t, Working);
  }

  lemma FireMovesPhase(p: Pipeline, s: State, g: Goroutine)
    requires InRange(p) && Unique(s) && Enabled(p, s, Fire(g))
    ensures PhaseOf(s, g.task) == Asleep && Moved(s, Apply(p, s, Fire(g)), g.task, Waiting)
  {
    hide Owners, Unique, NewMemoryTaskRun;
    var s' := Apply(p, s, Fire(g));
    var run := s'.taskCh[|s.taskCh|];
    assert g.Owner() == g.task;
    assert run.task == g.task by {
      assert run == NewMemoryTaskRun(p, s.results, g.vars, g.task, g.attempts);
      NewRunTask(p, s.results, g.vars, g.task, g.attempts);
    }
    FireMovesToken(s, s', g, run);
    assert s'.taskCh == s.taskCh + [run];
    assert forall x :: x != g ==> (x in s'.goroutines <==> x in s.goroutines);
    PhaseIsUnique(s, g.task, Asleep);
    OnlyMoved(s, s', g.task, Waiting);
  }

  /** Before the scheduler takes a report, its task is ready; afterwards it has no token, or it
      sleeps until the retry, and freed tasks are waiting. */
  lemma TakenPhase(s: State, r: TaskRunResult, s1: State)
    requires Unique(s) && Reporting(r) in s.goroutines
    requires s1.taskCh == s.taskCh && s1.goroutines == s.goroutines - multiset{Reporting(r)}
    ensures Unique(s1) && PhaseOf(s, r.task) == Ready && Moved(s, s1, r.task, Idle)
  {
    hide Unique;
    assert Reporting(r).Owner() == r.task;
    RemovalDropsOwner(s, s1, Reporting(r));
    assert forall x :: x != Reporting(r) ==> (x in s1.goroutines <==> x in s.goroutines);
    PhaseIsUnique(s, r.task, Ready);
    OnlyMoved(s, s1, r.task, Idle);
  }

  lemma SpawnedPhase(s: State, t: nat, attempts: nat)
    requires Unique(s) && t !in Owners(s)
    ensures Moved(s, ScheduleRetry(s, t, attempts), t, Asleep)
  {
    hide Unique, Owners;
    var g, s' := Sleeping(t, attempts, s.vars), ScheduleRetry(s, t, attempts);
    assert g.Owner() == t && g in s'.goroutines;
    SpawnAddsOwner(s, s', g);
    assert forall x :: x != g ==> (x in s'.goroutines <==> x in s.goroutines);
    OnlyMoved(s, s', t, Asleep);
  }

  lemma ReleasedPhase(p: Pipeline, s: State, outs: seq<nat>, t: nat)
    requires InRange(p) && Distinct(outs) && forall i :: 0 <= i < |outs| ==> outs[i] < |p.tasks|
    requires Conserved(p, s)
    requires forall o :: o in outs ==> o !in Owners(s)
    ensures PhaseOf(Release(p, s, outs), t) ==
      if t in outs && CounterAfter(s.dependencies, t) == 0 then Waiting else PhaseOf(s, t)
  {
    hide Owners, Unique, NewMemoryTaskRun, Release, Freed, PhaseOf, InRange, Distinct, CounterAfter;
    var s', freed := Release(p, s, outs), Freed(s.dependencies, outs);
    ReleaseAddsOwners(p, s, outs);
    ReleaseQueues(p, s, outs);
    FreedAreOutputs(s.dependencies, outs);
    NewRunsShape(p, s, freed);
    var runs := NewRuns(p, s, freed);
    assert s'.taskCh == s.taskCh + runs;
    if t in freed {
      var i :| 0 <= i < |freed| && freed[i] == t;
      assert runs[i] in s'.taskCh;
      PhaseIsUnique(s', t, Waiting);
    } else {
      forall run | run in runs ensures run.task in freed {
        var i :| 0 <= i < |runs| && runs[i] == run;
      }
      SameTokensSamePhase(s, s', t);
    }
  }
}
