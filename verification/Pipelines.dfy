/** Tasks and pipelines as the scheduler reads them. */
module Pipelines {
  import opened Values

  type int32 = x: int | -0x8000_0000 <= x < 0x8000_0000
  type uint32 = x: int | 0 <= x < 0x1_0000_0000

  /** Tasks are named by their position in `Pipeline.Tasks`. */
  datatype TaskDependency = TaskDependency(propagateResult: bool, inputTask: nat)

  datatype Task = Task(
    id: nat,
    dotID: string,
    index: int32,
    failEarly: bool,
    retries: uint32,
    inputs: seq<TaskDependency>,
    outputs: seq<nat>)

  datatype Pipeline = Pipeline(tasks: seq<Task>)

  ghost function InputSet(p: Pipeline, t: nat): set<nat>
    requires t < |p.tasks|
  {
    set d <- p.tasks[t].inputs :: d.inputTask
  }

  /** Every link names a task: inputs an earlier one, outputs a later one. */
  ghost predicate InRange(p: Pipeline) {
    && (forall t, k :: 0 <= t < |p.tasks| && 0 <= k < |p.tasks[t].inputs| ==>
          p.tasks[t].inputs[k].inputTask < t)
    && (forall t, k :: 0 <= t < |p.tasks| && 0 <= k < |p.tasks[t].outputs| ==>
          t < p.tasks[t].outputs[k] < |p.tasks|)
  }

  /** Links are listed by id, without repetition. */
  ghost predicate SortedLinks(p: Pipeline) {
    && (forall t, j, k :: 0 <= t < |p.tasks| && 0 <= j < k < |p.tasks[t].inputs| ==>
          p.tasks[t].inputs[j].inputTask < p.tasks[t].inputs[k].inputTask)
    && (forall t, j, k :: 0 <= t < |p.tasks| && 0 <= j < k < |p.tasks[t].outputs| ==>
          p.tasks[t].outputs[j] < p.tasks[t].outputs[k])
  }

  /** Inputs and outputs are inverse to each other. */
  ghost predicate InverseLinks(p: Pipeline) {
    forall u, v :: 0 <= u < |p.tasks| && 0 <= v < |p.tasks| ==>
      (v in p.tasks[u].outputs <==> u in InputSet(p, v))
  }

  ghost predicate PositionalIds(p: Pipeline) {
    forall t :: 0 <= t < |p.tasks| ==> p.tasks[t].id == t
  }

  ghost predicate WellFormed(p: Pipeline) {
    PositionalIds(p) && InRange(p) && SortedLinks(p) && InverseLinks(p)
  }

  /** How often a task may be executed: once, or as often as its `retries` say. */
  function Tries(p: Pipeline, t: nat): nat
    requires t < |p.tasks|
  {
    if p.tasks[t].retries == 0 then 1 else p.tasks[t].retries
  }

  /** `a` is a strict ancestor of `t`. */
  ghost predicate Ancestor(p: Pipeline, a: nat, t: nat)
    requires WellFormed(p) && t < |p.tasks|
    decreases t
  {
    exists i :: i in InputSet(p, t) && i < t && (i == a || Ancestor(p, a, i))
  }

  /** Paths can be extended at the front too. */
  lemma {:induction false} AncestorStepsDown(p: Pipeline, a: nat, b: nat, t: nat)
    requires WellFormed(p) && t < |p.tasks| && b < |p.tasks|
    requires a in InputSet(p, b) && (b == t || Ancestor(p, b, t))
    ensures Ancestor(p, a, t)
    decreases t
  {
    if b == t {
      assert a in InputSet(p, t) && a < t;
    } else {
      var i :| i in InputSet(p, t) && i < t && (i == b || Ancestor(p, b, i));
      AncestorStepsDown(p, a, b, i);
    }
  }

  /** A pairwise distinct input list is as long as its set. */
  lemma {:induction false} DistinctInputsCount(ds: seq<TaskDependency>)
    requires forall j, k :: 0 <= j < k < |ds| ==> ds[j].inputTask < ds[k].inputTask
    ensures |set d <- ds :: d.inputTask| == |ds|
  {
    if ds != [] {
      var init, last := ds[..|ds| - 1], ds[|ds| - 1];
      DistinctInputsCount(init);
      assert ds == init + [last];
      assert (set d <- ds :: d.inputTask) == (set d <- init :: d.inputTask) + {last.inputTask};
      assert last.inputTask !in set d <- init :: d.inputTask;
    }
  }

  function FindFrom(p: Pipeline, id: string, i: nat): (r: Option<nat>)
    requires i <= |p.tasks|
    ensures r.Some? ==> i <= r.value < |p.tasks| && p.tasks[r.value].dotID == id
    ensures forall j :: i <= j < (if r.Some? then r.value else |p.tasks|) ==> p.tasks[j].dotID != id
    decreases |p.tasks| - i
  {
    if i == |p.tasks| then None
    else if p.tasks[i].dotID == id then Some(i)
    else FindFrom(p, id, i + 1)
  }

  /** The first task with a DotID. */
  function FindDotID(p: Pipeline, id: string): Option<nat> {
    FindFrom(p, id, 0)
  }

  /** `Pipeline.ByDotID`. */
  method ByDotID(p: Pipeline, id: string) returns (task: Option<nat>)
    ensures task == FindDotID(p, id)
  {
    for i := 0 to |p.tasks|
      invariant FindDotID(p, id) == FindFrom(p, id, i)
    {
      if p.tasks[i].dotID == id {
        return Some(i);
      }
    }
    return None;
  }
}
