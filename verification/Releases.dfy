/** The loop over a completed task's outputs, in closed form. */
module Releases {
  import opened Values
  import opened Ordering
  import opened Pipelines
  import opened Scheduling
  import opened Tokens

  function Decremented(deps: map<nat, nat>, outs: seq<nat>): map<nat, nat> {
    if outs == [] then deps
    else
      var before := Decremented(deps, outs[..|outs| - 1]);
      before[outs[|outs| - 1] := CounterAfter(before, outs[|outs| - 1])]
  }

  /** The tasks whose counter reaches zero, in order. */
  function Freed(deps: map<nat, nat>, outs: seq<nat>): seq<nat> {
    if outs == [] then []
    else
      var o := outs[|outs| - 1];
      Freed(deps, outs[..|outs| - 1]) + (if CounterAfter(deps, o) == 0 then [o] else [])
  }

  function NewRuns(p: Pipeline, s: State, ts: seq<nat>): seq<MemoryTaskRun>
    requires InRange(p) && forall i :: 0 <= i < |ts| ==> ts[i] < |p.tasks|
  {
    if ts == [] then []
    else NewRuns(p, s, ts[..|ts| - 1]) + [NewMemoryTaskRun(p, s.results, s.vars, ts[|ts| - 1], 0)]
  }

  lemma {:induction false} FreedAreOutputs(deps: map<nat, nat>, outs: seq<nat>)
    ensures forall o :: o in Freed(deps, outs) <==> o in outs && CounterAfter(deps, o) == 0
  {
    if outs != [] {
      FreedAreOutputs(deps, outs[..|outs| - 1]);
      assert outs == outs[..|outs| - 1] + [outs[|outs| - 1]];
    }
  }

  lemma FreedInRange(deps: map<nat, nat>, outs: seq<nat>, n: nat)
    requires forall i :: 0 <= i < |outs| ==> outs[i] < n
    ensures forall i :: 0 <= i < |Freed(deps, outs)| ==> Freed(deps, outs)[i] < n
  {
    FreedAreOutputs(deps, outs);
    forall i | 0 <= i < |Freed(deps, outs)| ensures Freed(deps, outs)[i] < n {
      assert Freed(deps, outs)[i] in outs;
    }
  }

  /** Each counter named once in `outs` goes down by one. */
  lemma {:induction false} DecrementedCounters(deps: map<nat, nat>, outs: seq<nat>)
    requires Distinct(outs)
    ensures var after := Decremented(deps, outs);
      && (forall o :: o in after <==> o in deps || o in outs)
      && (forall o :: o in outs ==> after[o] == CounterAfter(deps, o))
      && (forall o :: o in after && o !in outs ==> after[o] == deps[o])
  {
    if outs != [] {
      var init, last := outs[..|outs| - 1], outs[|outs| - 1];
      DecrementedCounters(deps, init);
      assert outs == init + [last];
    }
  }

  lemma {:induction false} ReleaseCounters(p: Pipeline, s: State, outs: seq<nat>)
    requires InRange(p) && forall i :: 0 <= i < |outs| ==> outs[i] < |p.tasks|
    ensures Release(p, s, outs).dependencies == Decremented(s.dependencies, outs)
  {
    hide NewMemoryTaskRun, InRange;
    if outs != [] {
      ReleaseCounters(p, s, outs[..|outs| - 1]);
    }
  }

  lemma SameCounter(p: Pipeline, s: State, outs: seq<nat>)
    requires InRange(p) && Distinct(outs) && forall i :: 0 <= i < |outs| ==> outs[i] < |p.tasks|
    requires outs != []
    ensures var init, last := outs[..|outs| - 1], outs[|outs| - 1];
      CounterAfter(Release(p, s, init).dependencies, last) == CounterAfter(s.dependencies, last)
  {
    var init, last := outs[..|outs| - 1], outs[|outs| - 1];
    ReleaseCounters(p, s, init);
    DecrementedCounters(s.dependencies, init);
  }

  /** `s` with other counters and first runs of `ts` added to the queue. */
  function Queued(p: Pipeline, s: State, deps: map<nat, nat>, ts: seq<nat>): State
    requires InRange(p) && forall i :: 0 <= i < |ts| ==> ts[i] < |p.tasks|
  {
    s.(dependencies := deps, taskCh := s.taskCh + NewRuns(p, s, ts), waiting := s.waiting + |ts|)
  }

  lemma EnqueueQueues(p: Pipeline, s: State, deps: map<nat, nat>, ts: seq<nat>, o: nat)
    requires InRange(p) && o < |p.tasks| && forall i :: 0 <= i < |ts| ==> ts[i] < |p.tasks|
    ensures Enqueue(Queued(p, s, deps, ts), NewMemoryTaskRun(p, s.results, s.vars, o, 0)) ==
      Queued(p, s, deps, ts + [o])
  {
    hide NewMemoryTaskRun;
    var run := NewMemoryTaskRun(p, s.results, s.vars, o, 0);
    assert (ts + [o])[..|ts|] == ts;
    assert NewRuns(p, s, ts + [o]) == NewRuns(p, s, ts) + [run];
    assert s.taskCh + (NewRuns(p, s, ts) + [run]) == s.taskCh + NewRuns(p, s, ts) + [run];
  }

  lemma ReleaseOneQueues(p: Pipeline, s: State, deps: map<nat, nat>, ts: seq<nat>, o: nat)
    requires InRange(p) && o < |p.tasks| && forall i :: 0 <= i < |ts| ==> ts[i] < |p.tasks|
    ensures var n := CounterAfter(deps, o);
      ReleaseOne(p, Queued(p, s, deps, ts), o) == Queued(p, s, deps[o := n], if n == 0 then ts + [o] else ts)
  {
    hide NewMemoryTaskRun;
    EnqueueQueues(p, s, deps[o := CounterAfter(deps, o)], ts, o);
  }

  /** Nothing but the counters, the queue and the count of waiting tasks changes; the queue grows
      by a first run of every freed task. */
  lemma {:induction false} ReleaseQueues(p: Pipeline, s: State, outs: seq<nat>)
    requires InRange(p) && Distinct(outs) && forall i :: 0 <= i < |outs| ==> outs[i] < |p.tasks|
    ensures forall i :: 0 <= i < |Freed(s.dependencies, outs)| ==> Freed(s.dependencies, outs)[i] < |p.tasks|
    ensures Release(p, s, outs) == Queued(p, s, Decremented(s.dependencies, outs), Freed(s.dependencies, outs))
  {
    FreedInRange(s.dependencies, outs, |p.tasks|);
    if outs == [] {
      assert s.taskCh + NewRuns(p, s, []) == s.taskCh;
    } else {
      var init, last := outs[..|outs| - 1], outs[|outs| - 1];
      ReleaseQueues(p, s, init);
      DecrementedCounters(s.dependencies, init);
      assert last !in init;
      assert CounterAfter(Decremented(s.dependencies, init), last) == CounterAfter(s.dependencies, last);
      assert Freed(s.dependencies, init) + [] == Freed(s.dependencies, init);
      ReleaseOneQueues(p, s, Decremented(s.dependencies, init), Freed(s.dependencies, init), last);
    }
  }

  lemma NewRunTask(p: Pipeline, results: map<nat, TaskRunResult>, vars: map<string, Value>, t: nat, attempts: nat)
    requires InRange(p) && t < |p.tasks|
    ensures NewMemoryTaskRun(p, results, vars, t, attempts).task == t
  {
  }

  lemma SameTokensConserved(p: Pipeline, s: State, deps: map<nat, nat>)
    requires Conserved(p, s)
    ensures Conserved(p, s.(dependencies := deps)) && Owners(s.(dependencies := deps)) == Owners(s)
  {
    hide UniqueQueue, UniqueLive, QueuedTasks, LiveTasks;
    assert Owners(s.(dependencies := deps)) == Owners(s);
  }

  lemma EnqueueConserves(p: Pipeline, s: State, run: MemoryTaskRun)
    requires Conserved(p, s) && run.task !in Owners(s) && run.task < |p.tasks|
    ensures Conserved(p, Enqueue(s, run)) && Owners(Enqueue(s, run)) == Owners(s) + {run.task}
  {
    hide Unique, Owners;
    EnqueueAddsOwner(s, run);
  }

  lemma ReleaseOneAddsOwner(p: Pipeline, s: State, o: nat)
    requires InRange(p) && o < |p.tasks| && Conserved(p, s)
    requires CounterAfter(s.dependencies, o) == 0 ==> o !in Owners(s)
    ensures Conserved(p, ReleaseOne(p, s, o))
    ensures Owners(ReleaseOne(p, s, o)) == Owners(s) + (if CounterAfter(s.dependencies, o) == 0 then {o} else {})
  {
    hide Conserved, Owners, NewMemoryTaskRun, InRange, CounterAfter, Enqueue;
    var deps := s.dependencies[o := CounterAfter(s.dependencies, o)];
    SameTokensConserved(p, s, deps);
    NewRunTask(p, s.results, s.vars, o, 0);
    if CounterAfter(s.dependencies, o) == 0 {
      EnqueueConserves(p, s.(dependencies := deps), NewMemoryTaskRun(p, s.results, s.vars, o, 0));
    }
  }

  /** If no freed task owns a token yet, the loop gives each of them one. */
  lemma {:induction false} ReleaseAddsOwners(p: Pipeline, s: State, outs: seq<nat>)
    requires InRange(p) && Distinct(outs) && forall i :: 0 <= i < |outs| ==> outs[i] < |p.tasks|
    requires Conserved(p, s)
    requires forall o :: o in outs && CounterAfter(s.dependencies, o) == 0 ==> o !in Owners(s)
    ensures Conserved(p, Release(p, s, outs))
    ensures forall o :: o in Owners(Release(p, s, outs)) <==>
      o in Owners(s) || (o in outs && CounterAfter(s.dependencies, o) == 0)
  {
    if outs != [] {
      var init, last := outs[..|outs| - 1], outs[|outs| - 1];
      assert outs == init + [last];
      SameCounter(p, s, outs);
      ReleaseAddsOwners(p, s, init);
      ReleaseOneAddsOwner(p, Release(p, s, init), last);
    }
  }
}
