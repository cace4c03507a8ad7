/** Who owns a token: every task that is queued, executing, reporting or waiting for a retry. */
module Tokens {
  import opened Values
  import opened Variables
  import opened Pipelines
  import opened Scheduling

  ghost function QueuedTasks(taskCh: seq<MemoryTaskRun>): set<nat> {
    set run <- taskCh :: run.task
  }

  ghost function LiveTasks(goroutines: multiset<Goroutine>): set<nat> {
    set g | g in goroutines :: g.Owner()
  }

  ghost function Owners(s: State): set<nat> {
    QueuedTasks(s.taskCh) + LiveTasks(s.goroutines)
  }

  ghost predicate UniqueQueue(taskCh: seq<MemoryTaskRun>) {
    forall i, j :: 0 <= i < j < |taskCh| ==> taskCh[i].task != taskCh[j].task
  }

  ghost predicate UniqueLive(goroutines: multiset<Goroutine>) {
    && (forall g :: g in goroutines ==> goroutines[g] == 1)
    && (forall g, h :: g in goroutines && h in goroutines && g.Owner() == h.Owner() ==> g == h)
  }

  /** No task owns two tokens. */
  ghost predicate Unique(s: State) {
    UniqueQueue(s.taskCh) && UniqueLive(s.goroutines) && QueuedTasks(s.taskCh) !! LiveTasks(s.goroutines)
  }

  /** Token conservation. */
  ghost predicate Conserved(p: Pipeline, s: State) {
    && Unique(s)
    && s.waiting == |s.taskCh| + |s.goroutines|
    && (forall t :: t in Owners(s) ==> t < |p.tasks|)
  }

  // ----- cardinalities -----

  lemma {:induction false} DistinctTasksCount(runs: seq<MemoryTaskRun>)
    requires UniqueQueue(runs)
    ensures |QueuedTasks(runs)| == |runs|
  {
    if runs != [] {
      var init, last := runs[..|runs| - 1], runs[|runs| - 1];
      assert runs == init + [last];
      QueueGrows(init, last);
      LastIsNew(init, last);
      hide QueuedTasks, UniqueQueue;
      DistinctTasksCount(init);
    }
  }

  lemma LastIsNew(init: seq<MemoryTaskRun>, last: MemoryTaskRun)
    requires UniqueQueue(init + [last])
    ensures UniqueQueue(init) && last.task !in QueuedTasks(init)
  {
    var runs := init + [last];
    assert forall i :: 0 <= i < |init| ==> runs[i] == init[i];
    assert runs[|init|] == last;
  }

  lemma {:induction false} DistinctOwnersCount(gs: multiset<Goroutine>)
    requires UniqueLive(gs)
    ensures |LiveTasks(gs)| == |gs|
    decreases |gs|
  {
    if gs == multiset{} {
      assert LiveTasks(gs) == {};
    } else {
      var g :| g in gs;
      LiveShrinks(gs, g);
      assert g.Owner() in LiveTasks(gs);
      DistinctOwnersCount(gs - multiset{g});
    }
  }

  lemma {:induction false} BoundedSet(ts: set<nat>, n: nat)
    requires forall t :: t in ts ==> t < n
    ensures |ts| <= n
  {
    if n == 0 {
      assert ts == {};
    } else {
      BoundedSet(ts - {n - 1}, n - 1);
      assert ts <= (ts - {n - 1}) + {n - 1};
    }
  }

  /** `waiting` counts the tasks that own a token, so neither it nor the channel exceeds the
      number of tasks. */
  lemma WaitingCountsOwners(p: Pipeline, s: State)
    requires Conserved(p, s)
    ensures s.waiting == |Owners(s)| <= |p.tasks|
    ensures |s.taskCh| <= |p.tasks|
  {
    hide UniqueQueue, UniqueLive, QueuedTasks, LiveTasks;
    DistinctTasksCount(s.taskCh);
    DistinctOwnersCount(s.goroutines);
    BoundedSet(Owners(s), |p.tasks|);
  }

  /** While some goroutine is alive the channel has room for one more run. */
  lemma RoomForOneMore(p: Pipeline, s: State)
    requires Conserved(p, s) && s.goroutines != multiset{}
    ensures |s.taskCh| < |p.tasks|
  {
    WaitingCountsOwners(p, s);
  }

  // ----- how queue and goroutines change -----

  lemma QueueGrows(taskCh: seq<MemoryTaskRun>, run: MemoryTaskRun)
    ensures QueuedTasks(taskCh + [run]) == QueuedTasks(taskCh) + {run.task}
    ensures UniqueQueue(taskCh) && run.task !in QueuedTasks(taskCh) ==> UniqueQueue(taskCh + [run])
  {
    var longer := taskCh + [run];
    assert forall r :: r in longer <==> r in taskCh || r == run;
    assert forall i :: 0 <= i < |taskCh| ==> taskCh[i] in taskCh;
  }

  lemma QueueShrinks(taskCh: seq<MemoryTaskRun>)
    requires taskCh != [] && UniqueQueue(taskCh)
    ensures UniqueQueue(taskCh[1..])
    ensures taskCh[0].task in QueuedTasks(taskCh)
    ensures QueuedTasks(taskCh[1..]) == QueuedTasks(taskCh) - {taskCh[0].task}
  {
    var rest := taskCh[1..];
    assert taskCh == [taskCh[0]] + rest;
    assert forall r :: r in rest ==> r.task != taskCh[0].task;
  }

  lemma LiveGrows(gs: multiset<Goroutine>, g: Goroutine)
    ensures LiveTasks(gs + multiset{g}) == LiveTasks(gs) + {g.Owner()}
    ensures UniqueLive(gs) && g.Owner() !in LiveTasks(gs) ==> UniqueLive(gs + multiset{g})
  {
    var more := gs + multiset{g};
    assert forall x :: x in more <==> x in gs || x == g;
    assert forall x :: x in gs ==> x.Owner() in LiveTasks(gs);
  }

  lemma LiveShrinks(gs: multiset<Goroutine>, g: Goroutine)
    requires UniqueLive(gs) && g in gs
    ensures UniqueLive(gs - multiset{g}) && g !in gs - multiset{g}
    ensures LiveTasks(gs - multiset{g}) == LiveTasks(gs) - {g.Owner()}
    ensures g.Owner() in LiveTasks(gs)
  {
    var fewer := gs - multiset{g};
    assert forall x :: x in fewer <==> x in gs && x != g;
  }

  // ----- how the steps move tokens -----

  lemma DispatchMovesToken(s: State, s': State)
    requires Unique(s) && s.taskCh != []
    requires s'.taskCh == s.taskCh[1..]
    requires s'.goroutines == s.goroutines + multiset{Executing(s.taskCh[0])}
    ensures Unique(s') && Owners(s') == Owners(s)
  {
    hide UniqueQueue, UniqueLive, QueuedTasks, LiveTasks;
    assert Executing(s.taskCh[0]).Owner() == s.taskCh[0].task;
    QueueShrinks(s.taskCh);
    LiveGrows(s.goroutines, Executing(s.taskCh[0]));
  }

  lemma BecomeKeepsOwner(s: State, g: Goroutine, h: Goroutine)
    requires Unique(s) && g in s.goroutines && g.Owner() == h.Owner()
    ensures Unique(Become(s, g, h)) && Owners(Become(s, g, h)) == Owners(s)
    ensures |Become(s, g, h).goroutines| == |s.goroutines|
  {
    hide UniqueQueue, UniqueLive, QueuedTasks, LiveTasks;
    LiveShrinks(s.goroutines, g);
    LiveGrows(s.goroutines - multiset{g}, h);
  }

  lemma FireMovesToken(s: State, s': State, g: Goroutine, run: MemoryTaskRun)
    requires Unique(s) && g in s.goroutines && g.Owner() == run.task
    requires s'.taskCh == s.taskCh + [run] && s'.goroutines == s.goroutines - multiset{g}
    ensures Unique(s') && Owners(s') == Owners(s)
  {
    hide UniqueQueue, UniqueLive, QueuedTasks, LiveTasks;
    LiveShrinks(s.goroutines, g);
    QueueGrows(s.taskCh, run);
  }

  lemma RemovalDropsOwner(s: State, s': State, g: Goroutine)
    requires Unique(s) && g in s.goroutines
    requires s'.taskCh == s.taskCh && s'.goroutines == s.goroutines - multiset{g}
    ensures Unique(s') && Owners(s') == Owners(s) - {g.Owner()}
  {
    hide UniqueQueue, UniqueLive, QueuedTasks, LiveTasks;
    LiveShrinks(s.goroutines, g);
  }

  lemma SpawnAddsOwner(s: State, s': State, g: Goroutine)
    requires Unique(s) && g.Owner() !in Owners(s)
    requires s'.taskCh == s.taskCh && s'.goroutines == s.goroutines + multiset{g}
    ensures Unique(s') && Owners(s') == Owners(s) + {g.Owner()}
  {
    hide UniqueQueue, UniqueLive, QueuedTasks, LiveTasks;
    LiveGrows(s.goroutines, g);
  }

  lemma EnqueueAddsOwner(s: State, run: MemoryTaskRun)
    requires Unique(s) && run.task !in Owners(s)
    ensures Unique(Enqueue(s, run)) && Owners(Enqueue(s, run)) == Owners(s) + {run.task}
  {
    hide UniqueQueue, UniqueLive, QueuedTasks, LiveTasks;
    QueueGrows(s.taskCh, run);
  }
}
