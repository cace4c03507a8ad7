/** The reference semantics of a pipeline of deterministic tasks: run the tasks one at a time, in id
    order, each with up to max(1, retries) attempts. */
module Evaluation {
  import opened Values
  import opened Ordering
  import opened Variables
  import opened Pipelines
  import opened Scheduling

  /** Deterministic tasks: `f(task, attempt, inputs, visible variables)`, where a task sees only the
      variables whose names it references. Tasks in `saved` were finished by an earlier run. */
  datatype Program = Program(
    p: Pipeline,
    f: (nat, nat, seq<Result>, VarMap) -> Result,
    refs: nat -> set<string>,
    vars: VarMap,
    saved: map<nat, Result>)

  datatype Memo = Memo(results: map<nat, Result>, vars: VarMap)

  /** The result of task `t` from attempt `k` on. */
  function Try(g: Program, t: nat, inputs: seq<Result>, vars: VarMap, k: nat): Result
    requires t < |g.p.tasks|
    decreases Tries(g.p, t) - k
  {
    var r := g.f(t, k, inputs, vars);
    if r.error.Some? && k + 1 < g.p.tasks[t].retries then Try(g, t, inputs, vars, k + 1) else r
  }

  function EvalTask(g: Program, m: Memo, t: nat): Result
    requires InRange(g.p) && t < |g.p.tasks|
  {
    if t in g.saved then g.saved[t]
    else Try(g, t, RunInputs(g.p, t, m.results), Restrict(m.vars, g.refs(t)), 0)
  }

  /** Results and variables after the first `n` tasks. */
  function Eval(g: Program, n: nat): Memo
    requires InRange(g.p) && n <= |g.p.tasks|
  {
    if n == 0 then Memo(map[], g.vars)
    else
      var m := Eval(g, n - 1);
      var r := EvalTask(g, m, n - 1);
      Memo(m.results[n - 1 := r], SetVariable(g.p, m.vars, n - 1, r))
  }

  function Final(g: Program): map<nat, Result>
    requires InRange(g.p)
  {
    Eval(g, |g.p.tasks|).results
  }

  lemma {:induction false} EvalKeeps(g: Program, k: nat, n: nat)
    requires InRange(g.p) && k <= n <= |g.p.tasks|
    ensures forall t :: t in Eval(g, n).results <==> 0 <= t < n
    ensures forall t :: t in Eval(g, k).results <==> 0 <= t < k
    ensures forall t :: 0 <= t < k ==> Eval(g, n).results[t] == Eval(g, k).results[t]
  {
    hide EvalTask, SetVariable;
    if n > 0 {
      EvalKeeps(g, if k == n then k - 1 else k, n - 1);
    }
  }

  /** Two result maps give a task the same inputs if they agree on its input tasks. */
  ghost predicate AgreeOn(a: map<nat, Result>, b: map<nat, Result>, ts: set<nat>) {
    forall t :: t in ts ==> t in a && t in b && a[t] == b[t]
  }

  lemma {:induction false} PropagatedAgrees(p: Pipeline, deps: seq<TaskDependency>, a: map<nat, Result>,
      b: map<nat, Result>)
    requires forall i :: 0 <= i < |deps| ==> deps[i].inputTask < |p.tasks|
    requires forall i :: 0 <= i < |deps| ==> ResultOf(a, deps[i].inputTask) == ResultOf(b, deps[i].inputTask)
    ensures Propagated(p, deps, a) == Propagated(p, deps, b)
  {
    if deps != [] {
      PropagatedAgrees(p, deps[..|deps| - 1], a, b);
    }
  }

  lemma InputsAgree(p: Pipeline, t: nat, a: map<nat, Result>, b: map<nat, Result>)
    requires InRange(p) && t < |p.tasks| && AgreeOn(a, b, InputSet(p, t))
    ensures RunInputs(p, t, a) == RunInputs(p, t, b)
  {
    var deps := p.tasks[t].inputs;
    forall i | 0 <= i < |deps| ensures ResultOf(a, deps[i].inputTask) == ResultOf(b, deps[i].inputTask) {
      assert deps[i] in deps;
      assert deps[i].inputTask in InputSet(p, t);
    }
    PropagatedAgrees(p, deps, a, b);
  }

  // ----- variables -----

  function Name(p: Pipeline, t: nat): string
    requires t < |p.tasks|
  {
    Keypaths.Trim(p.tasks[t].dotID)
  }

  /** `Vars.Set` accepts every DotID, under distinct names. */
  ghost predicate PlainDotIDs(p: Pipeline) {
    && (forall t :: 0 <= t < |p.tasks| ==> VarName(p.tasks[t].dotID) == Ok(Name(p, t)))
    && (forall t, u :: 0 <= t < |p.tasks| && 0 <= u < |p.tasks| && Name(p, t) == Name(p, u) ==> t == u)
  }

  /** Whatever task a task references is one of its inputs; so none references itself. */
  ghost predicate RefsAreInputs(g: Program) {
    forall t, u :: 0 <= t < |g.p.tasks| && 0 <= u < |g.p.tasks| && Name(g.p, u) in g.refs(t) ==> u in InputSet(g.p, t)
  }

  ghost predicate IsTaskName(p: Pipeline, x: string) {
    exists u :: 0 <= u < |p.tasks| && Name(p, u) == x
  }

  ghost predicate HoldsOne(p: Pipeline, results: map<nat, Result>, u: nat, vars: VarMap) {
    u < |p.tasks| && u in results && Name(p, u) in vars && vars[Name(p, u)] == VarValue(results[u])
  }

  /** The variables hold the results of `done` under their tasks' names; names that belong to no
      task are as they were. */
  ghost predicate Holds(g: Program, results: map<nat, Result>, done: set<nat>, vars: VarMap) {
    && (forall u :: u in done ==> HoldsOne(g.p, results, u, vars))
    && (forall x :: !IsTaskName(g.p, x) ==> SameEntry(g.vars, vars, x))
  }

  /** All variables that hold a task's inputs look the same to it. */
  lemma VisibleAgree(g: Program, results: map<nat, Result>, t: nat, u: VarMap, v: VarMap)
    requires InRange(g.p) && RefsAreInputs(g) && t < |g.p.tasks|
    requires Holds(g, results, InputSet(g.p, t), u) && Holds(g, results, InputSet(g.p, t), v)
    ensures Restrict(u, g.refs(t)) == Restrict(v, g.refs(t))
  {
    forall x | x in g.refs(t) ensures SameEntry(u, v, x) {
      if IsTaskName(g.p, x) {
        var w :| 0 <= w < |g.p.tasks| && Name(g.p, w) == x;
        assert w in InputSet(g.p, t);
      } else {
        assert SameEntry(g.vars, u, x) && SameEntry(g.vars, v, x);
      }
    }
  }

  /** Storing a variable for `t` disturbs neither the other tasks' variables nor foreign names. */
  lemma AssignKeepsOthers(g: Program, results: map<nat, Result>, done: set<nat>, vars: VarMap, t: nat, r: Result)
    requires PlainDotIDs(g.p) && t < |g.p.tasks| && t !in done && Holds(g, results, done, vars)
    ensures Holds(g, results, done, SetVariable(g.p, vars, t, r))
    ensures t in results && results[t] == r ==> Holds(g, results, done + {t}, SetVariable(g.p, vars, t, r))
  {
    hide Keypaths.Trim;
    assert VarName(g.p.tasks[t].dotID) == Ok(Name(g.p, t));
    assert SetVariable(g.p, vars, t, r) == vars[Name(g.p, t) := VarValue(r)];
    assert IsTaskName(g.p, Name(g.p, t));
  }

  ghost function Below(n: nat): set<nat> {
    if n == 0 then {} else Below(n - 1) + {n - 1}
  }

  lemma {:induction false} BelowIs(n: nat)
    ensures forall t: nat :: t in Below(n) <==> t < n
  {
    if n > 0 {
      BelowIs(n - 1);
    }
  }

  lemma {:induction false} EvalHolds(g: Program, n: nat)
    requires InRange(g.p) && PlainDotIDs(g.p) && n <= |g.p.tasks|
    ensures Holds(g, Final(g), Below(n), Eval(g, n).vars)
  {
    hide EvalTask, SetVariable, PlainDotIDs, InRange, Final, Holds;
    if n == 0 {
      HoldsAtFirst(g, Final(g));
    } else {
      EvalHolds(g, n - 1);
      BelowIs(n - 1);
      FinalHas(g, n - 1);
      AssignKeepsOthers(g, Final(g), Below(n - 1), Eval(g, n - 1).vars, n - 1, Final(g)[n - 1]);
    }
  }

  lemma HoldsAtFirst(g: Program, results: map<nat, Result>)
    ensures Holds(g, results, {}, g.vars)
  {
  }

  lemma FinalHas(g: Program, t: nat)
    requires InRange(g.p) && t < |g.p.tasks|
    ensures t in Final(g) && Final(g)[t] == EvalTask(g, Eval(g, t), t)
  {
    hide EvalTask, SetVariable;
    EvalKeeps(g, t + 1, |g.p.tasks|);
  }

  lemma HoldsForFewer(g: Program, results: map<nat, Result>, more: set<nat>, fewer: set<nat>, vars: VarMap)
    requires Holds(g, results, more, vars) && fewer <= more
    ensures Holds(g, results, fewer, vars)
  {
  }

  /** The final inputs of a task, and what it sees of any variables that hold its inputs. */
  function Inputs(g: Program, t: nat): seq<Result>
    requires InRange(g.p) && t < |g.p.tasks|
  {
    RunInputs(g.p, t, Final(g))
  }

  function Visible(g: Program, t: nat): VarMap
    requires InRange(g.p) && t < |g.p.tasks|
  {
    Restrict(Eval(g, t).vars, g.refs(t))
  }

  lemma InputsAreBelow(p: Pipeline, t: nat)
    requires InRange(p) && t < |p.tasks|
    ensures InputSet(p, t) <= Below(t)
    ensures forall u :: u in InputSet(p, t) ==> u < t
  {
    BelowIs(t);
  }

  lemma EvalAgreesOnInputs(g: Program, t: nat)
    requires InRange(g.p) && t < |g.p.tasks|
    ensures AgreeOn(Eval(g, t).results, Final(g), InputSet(g.p, t))
  {
    hide EvalTask, SetVariable;
    EvalKeeps(g, t, |g.p.tasks|);
    InputsAreBelow(g.p, t);
    hide Eval, InRange, InputSet;
  }

  /** Saved results are taken as they are. */
  lemma FinalIsSaved(g: Program, t: nat)
    requires InRange(g.p) && t < |g.p.tasks| && t in g.saved
    ensures t in Final(g) && Final(g)[t] == g.saved[t]
  {
    FinalHas(g, t);
  }

  /** The reference result of `t` is a function of its final inputs and of what it sees. */
  lemma FinalIsTry(g: Program, t: nat)
    requires InRange(g.p) && t < |g.p.tasks| && t !in g.saved
    ensures t in Final(g) && Final(g)[t] == Try(g, t, Inputs(g, t), Visible(g, t), 0)
  {
    hide Restrict, SetVariable, Try, RunInputs, Final, Eval, InRange, InputSet, AgreeOn;
    FinalHas(g, t);
    EvalAgreesOnInputs(g, t);
    InputsAgree(g.p, t, Eval(g, t).results, Final(g));
  }

  lemma {:induction false} TryStops(g: Program, t: nat, inputs: seq<Result>, vars: VarMap, k: nat) returns (last: nat)
    requires t < |g.p.tasks|
    ensures k <= last && (last == k || last < g.p.tasks[t].retries)
    ensures Try(g, t, inputs, vars, k) == g.f(t, last, inputs, vars)
    ensures forall j :: k <= j < last ==> g.f(t, j, inputs, vars).error.Some?
    ensures g.f(t, last, inputs, vars).error.None? || last + 1 >= g.p.tasks[t].retries
    decreases Tries(g.p, t) - k
  {
    last := k;
    if g.f(t, k, inputs, vars).error.Some? && k + 1 < g.p.tasks[t].retries {
      last := TryStops(g, t, inputs, vars, k + 1);
    }
  }

  /** The reference result is that of the first try that succeeds; if none does, of the last of the
      `retries` tries, or of the only one. */
  lemma FinalIsFirstSuccess(g: Program, t: nat) returns (last: nat)
    requires InRange(g.p) && t < |g.p.tasks| && t !in g.saved
    ensures t in Final(g) && Final(g)[t] == g.f(t, last, Inputs(g, t), Visible(g, t))
    ensures forall k :: 0 <= k < last ==> g.f(t, k, Inputs(g, t), Visible(g, t)).error.Some?
    ensures last == 0 || last < g.p.tasks[t].retries
    ensures Final(g)[t].error.Some? ==> last + 1 >= g.p.tasks[t].retries
  {
    FinalIsTry(g, t);
    last := TryStops(g, t, Inputs(g, t), Visible(g, t), 0);
  }

  /** A task sees, of the names it references, its inputs' errors or else values, and the variables
      that belong to no task. */
  lemma VisibleIs(g: Program, t: nat, x: string)
    requires InRange(g.p) && PlainDotIDs(g.p) && RefsAreInputs(g) && t < |g.p.tasks|
    ensures x !in g.refs(t) ==> x !in Visible(g, t)
    ensures forall u :: x in g.refs(t) && 0 <= u < |g.p.tasks| && Name(g.p, u) == x ==>
      && u in InputSet(g.p, t) && u in Final(g) && x in Visible(g, t)
      && (match Final(g)[u].error
          case Some(e) => Visible(g, t)[x] == Scalar(Failure(e))
          case None => Visible(g, t)[x] == Final(g)[u].value)
    ensures x in g.refs(t) && (forall u :: 0 <= u < |g.p.tasks| ==> Name(g.p, u) != x) ==>
      SameEntry(g.vars, Visible(g, t), x)
  {
    EvalHolds(g, t);
    InputsAreBelow(g.p, t);
    hide PlainDotIDs, Final, Eval, InRange, InputSet, Below;
    forall u | x in g.refs(t) && 0 <= u < |g.p.tasks| && Name(g.p, u) == x
      ensures u in InputSet(g.p, t) && HoldsOne(g.p, Final(g), u, Eval(g, t).vars)
    {
      assert u in Below(t);
    }
    if forall u :: 0 <= u < |g.p.tasks| ==> Name(g.p, u) != x {
      assert !IsTaskName(g.p, x);
    }
  }

  lemma SeesVisible(g: Program, t: nat, vars: VarMap)
    requires InRange(g.p) && PlainDotIDs(g.p) && RefsAreInputs(g) && t < |g.p.tasks|
    requires Holds(g, Final(g), InputSet(g.p, t), vars)
    ensures Restrict(vars, g.refs(t)) == Visible(g, t)
  {
    EvalHolds(g, t);
    InputsAreBelow(g.p, t);
    HoldsForFewer(g, Final(g), Below(t), InputSet(g.p, t), Eval(g, t).vars);
    VisibleAgree(g, Final(g), t, vars, Eval(g, t).vars);
  }
}
