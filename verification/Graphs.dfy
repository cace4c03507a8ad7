/** The task graph of a pipeline: implicit dependency edges, and the tasks that are re-linked in
    topological order. */
module Graphs {
  import opened Values
  import opened Keypaths
  import opened Ordering
  import opened Pipelines
  import opened Evaluation

  /** The task parameters that the scheduler reads. */
  datatype Attributes = Attributes(index: int32, failEarly: bool, retries: uint32)

  /** A node: its DotID, the insides of all variable expressions in its attributes, and what decoding
      those attributes as a task gives. */
  datatype GraphNode = GraphNode(dotID: string, exprs: seq<string>, decoded: Outcome<Attributes>)

  type Edge = (int, int)

  datatype ParseError = ReservedName | BadTask(error: GoError)

  datatype Parsed = Success(pipeline: Pipeline) | Invalid(error: ParseError)

  const INPUT_TASK_KEY := "input"

  // ----- implicit edges -----

  /** The names that a node references. */
  function Params(exprs: seq<string>): set<string> {
    if exprs == [] then {} else Params(exprs[..|exprs| - 1]) + {FirstSegment(exprs[|exprs| - 1])}
  }

  /** `v` references its distinct node `u`. */
  predicate References(nodes: map<int, GraphNode>, u: int, v: int) {
    u in nodes && v in nodes && u != v && nodes[u].dotID in Params(nodes[v].exprs)
  }

  /** The edges with an implicit one added for every reference that had none; the values say which
      edges are implicit. */
  ghost predicate AddsReferences(nodes: map<int, GraphNode>, edges: map<Edge, bool>, after: map<Edge, bool>) {
    && (forall u, v :: (u, v) in after <==> (u, v) in edges || References(nodes, u, v))
    && (forall u, v :: (u, v) in edges ==> after[(u, v)] == edges[(u, v)])
    && (forall u, v :: (u, v) in after && (u, v) !in edges ==> after[(u, v)])
  }

  /** The next node of an iterator, in an order that is not specified. */
  method Any(todo: set<int>) returns (x: int)
    requires todo != {}
    ensures x in todo
  {
    HasElement(todo);
    x :| x in todo;
  }

  lemma HasElement(s: set<int>)
    requires s != {}
    ensures exists x :: x in s
  {
    assert (forall x :: x !in s) ==> s == {};
  }

  method CollectParams(exprs: seq<string>) returns (params: set<string>)
    ensures params == Params(exprs)
  {
    params := {};
    for i := 0 to |exprs|
      invariant params == Params(exprs[..i])
    {
      assert exprs[..i + 1][..i] == exprs[..i];
      params := params + {FirstSegment(exprs[i])};
    }
    assert exprs[..|exprs|] == exprs;
  }

  class Graph {
    const nodes: map<int, GraphNode>
    var edges: map<Edge, bool>

    constructor (nodes: map<int, GraphNode>, edges: map<Edge, bool>)
      ensures this.nodes == nodes && this.edges == edges
    {
      this.nodes, this.edges := nodes, edges;
    }

    /** Nodes may be visited in any order. */
    method AddImplicitDependenciesAsEdges()
      modifies this`edges
      ensures AddsReferences(nodes, old(edges), edges)
    {
      var todo := nodes.Keys;
      while todo != {}
        invariant todo <= nodes.Keys
        invariant forall u, v :: (u, v) in edges <==> (u, v) in old(edges) || (References(nodes, u, v) && v !in todo)
        invariant forall u, v :: (u, v) in old(edges) ==> edges[(u, v)] == old(edges)[(u, v)]
        invariant forall u, v :: (u, v) in edges && (u, v) !in old(edges) ==> edges[(u, v)]
        decreases |todo|
      {
        var v := Any(todo);
        AddEdgesTo(v);
        todo := todo - {v};
      }
    }

    /** The implicit edges into one node. */
    method AddEdgesTo(v: int)
      requires v in nodes
      modifies this`edges
      ensures forall u, w :: (u, w) in edges <==> (u, w) in old(edges) || (References(nodes, u, w) && w == v)
      ensures forall u, w :: (u, w) in old(edges) ==> edges[(u, w)] == old(edges)[(u, w)]
      ensures forall u, w :: (u, w) in edges && (u, w) !in old(edges) ==> edges[(u, w)]
    {
      var params := CollectParams(nodes[v].exprs);
      var todo := nodes.Keys;
      while todo != {}
        invariant todo <= nodes.Keys
        invariant forall u, w :: (u, w) in edges <==>
          (u, w) in old(edges) || (References(nodes, u, w) && w == v && u !in todo)
        invariant forall u, w :: (u, w) in old(edges) ==> edges[(u, w)] == old(edges)[(u, w)]
        invariant forall u, w :: (u, w) in edges && (u, w) !in old(edges) ==> edges[(u, w)]
        decreases |todo|
      {
        var u := Any(todo);
        if nodes[u].dotID in params {
          if u != v && (u, v) !in edges {
            edges := edges[(u, v) := true];
          }
        }
        todo := todo - {u};
      }
    }
  }

  /** `Graph.IsImplicitEdge`, for an edge; its type assertion panics where there is none. */
  method IsImplicitEdge(edges: map<Edge, bool>, u: int, v: int) returns (implicit: bool)
    requires (u, v) in edges
    ensures implicit == edges[(u, v)]
  {
    implicit := edges[(u, v)];
  }

  /** An edge is implicit exactly if it was not written down, provided written ones are not marked. */
  lemma ImplicitMeansAdded(nodes: map<int, GraphNode>, edges: map<Edge, bool>, after: map<Edge, bool>, u: int, v: int)
    requires AddsReferences(nodes, edges, after)
    requires forall a, b :: (a, b) in edges ==> !edges[(a, b)]
    ensures (u, v) in after && after[(u, v)] <==> References(nodes, u, v) && (u, v) !in edges
    ensures (u, v) in after && !after[(u, v)] <==> (u, v) in edges
  {
  }

  /** Adding implicit edges is deterministic, and adding them again adds nothing. */
  lemma CompletingTwice(nodes: map<int, GraphNode>, edges: map<Edge, bool>, a: map<Edge, bool>, b: map<Edge, bool>)
    requires AddsReferences(nodes, edges, a)
    requires AddsReferences(nodes, edges, b) || AddsReferences(nodes, a, b)
    ensures a == b
  {
    forall e: Edge ensures e in a <==> e in b {
      var (u, v) := e;
      assert (u, v) in a <==> (u, v) in b;
    }
    forall e: Edge | e in a ensures a[e] == b[e] {
      var (u, v) := e;
      assert a[(u, v)] == b[(u, v)];
    }
  }

  lemma {:induction false} ParamsAre(exprs: seq<string>, name: string)
    ensures name in Params(exprs) <==> exists i :: 0 <= i < |exprs| && FirstSegment(exprs[i]) == name
  {
    if exprs != [] {
      ParamsAre(exprs[..|exprs| - 1], name);
      if i :| 0 <= i < |exprs| && FirstSegment(exprs[i]) == name {
        if i < |exprs| - 1 {
          assert exprs[..|exprs| - 1][i] == exprs[i];
        }
      }
    }
  }

  /** Edge by edge: it was written down, or the target has an expression whose first segment is the
      name of its distinct source. */
  lemma EdgesAre(nodes: map<int, GraphNode>, edges: map<Edge, bool>, after: map<Edge, bool>, u: int, v: int)
    requires AddsReferences(nodes, edges, after)
    ensures (u, v) in after <==>
      || (u, v) in edges
      || (u in nodes && v in nodes && u != v
          && exists i :: 0 <= i < |nodes[v].exprs| && FirstSegment(nodes[v].exprs[i]) == nodes[u].dotID)
    ensures (u, v) in after ==> after[(u, v)] == ((u, v) in edges ==> edges[(u, v)])
  {
    if u in nodes && v in nodes {
      ParamsAre(nodes[v].exprs, nodes[u].dotID);
    }
    hide Params, FirstSegment;
  }

  // ----- re-linking -----

  /** `order` is a topological order of the graph: every node once, sources before targets. */
  ghost predicate TopologicalOrder(nodes: map<int, GraphNode>, edges: map<Edge, bool>, order: seq<int>) {
    && (forall i, j :: 0 <= i < j < |order| ==> order[i] != order[j])
    && (forall i :: 0 <= i < |order| ==> order[i] in nodes)
    && (forall u :: u in nodes ==> u in order)
    && (forall e :: e in edges ==> e.0 in nodes && e.1 in nodes)
    && (forall i, j :: 0 <= i < |order| && 0 <= j < |order| && (order[i], order[j]) in edges ==> i < j)
  }

  /** The dependencies of node `v` on the first `n` nodes. */
  function InputsUpTo(edges: map<Edge, bool>, order: seq<int>, v: int, n: nat): seq<TaskDependency>
    requires n <= |order|
  {
    if n == 0 then []
    else
      InputsUpTo(edges, order, v, n - 1) +
      (if (order[n - 1], v) in edges then [TaskDependency(!edges[(order[n - 1], v)], n - 1)] else [])
  }

  /** The positions of the targets of `u` among the first `n` nodes. */
  function OutputsUpTo(edges: map<Edge, bool>, order: seq<int>, u: int, n: nat): seq<nat>
    requires n <= |order|
  {
    if n == 0 then []
    else OutputsUpTo(edges, order, u, n - 1) + (if (u, order[n - 1]) in edges then [n - 1] else [])
  }

  /** The error of the first node that is no task. */
  function FirstError(nodes: map<int, GraphNode>, order: seq<int>): Option<ParseError>
    requires forall i :: 0 <= i < |order| ==> order[i] in nodes
  {
    if order == [] then None
    else if nodes[order[0]].dotID == INPUT_TASK_KEY then Some(ReservedName)
    else
      match nodes[order[0]].decoded
      case Err(e) => Some(BadTask(e))
      case Ok(_) => FirstError(nodes, order[1..])
  }

  /** The first node that is no task decides: a reserved name comes before a failed decoding. */
  lemma {:induction false} FirstErrorIs(nodes: map<int, GraphNode>, order: seq<int>, k: nat)
    requires (forall i :: 0 <= i < |order| ==> order[i] in nodes) && k <= |order|
    requires forall i :: 0 <= i < k ==> nodes[order[i]].dotID != "input" && nodes[order[i]].decoded.Ok?
    ensures k == |order| ==> FirstError(nodes, order) == None
    ensures k < |order| && nodes[order[k]].dotID == "input" ==> FirstError(nodes, order) == Some(ReservedName)
    ensures k < |order| && nodes[order[k]].dotID != "input" && nodes[order[k]].decoded.Err? ==>
      FirstError(nodes, order) == Some(BadTask(nodes[order[k]].decoded.error))
    decreases k
  {
    if k > 0 {
      FirstErrorIs(nodes, order[1..], k - 1);
    }
  }

  /** Task `k` of the first `n` tasks. */
  ghost predicate Linked(nodes: map<int, GraphNode>, edges: map<Edge, bool>, order: seq<int>, n: nat, k: nat,
      task: Task)
    requires k < n <= |order| && order[k] in nodes
  {
    var node := nodes[order[k]];
    && task.id == k && task.dotID == node.dotID
    && node.decoded == Ok(Attributes(task.index, task.failEarly, task.retries))
    && task.inputs == InputsUpTo(edges, order, order[k], k)
    && task.outputs == OutputsUpTo(edges, order, order[k], n)
  }

  ghost predicate AllLinked(nodes: map<int, GraphNode>, edges: map<Edge, bool>, order: seq<int>, tasks: seq<Task>)
    requires forall i :: 0 <= i < |order| ==> order[i] in nodes
  {
    |tasks| <= |order| && forall k :: 0 <= k < |tasks| ==> Linked(nodes, edges, order, |tasks|, k, tasks[k])
  }

  lemma {:induction false} InputsAre(edges: map<Edge, bool>, order: seq<int>, v: int, n: nat, d: TaskDependency)
    requires n <= |order|
    ensures d in InputsUpTo(edges, order, v, n) <==>
      d.inputTask < n && (order[d.inputTask], v) in edges && d.propagateResult == !edges[(order[d.inputTask], v)]
  {
    if n > 0 {
      InputsAre(edges, order, v, n - 1, d);
    }
  }

  lemma {:induction false} InputsIncrease(edges: map<Edge, bool>, order: seq<int>, v: int, n: nat)
    requires n <= |order|
    ensures Increasing(InputsUpTo(edges, order, v, n))
    ensures forall i :: 0 <= i < |InputsUpTo(edges, order, v, n)| ==> InputsUpTo(edges, order, v, n)[i].inputTask < n
  {
    if n > 0 {
      InputsIncrease(edges, order, v, n - 1);
    }
  }

  lemma {:induction false} OutputsAre(edges: map<Edge, bool>, order: seq<int>, u: int, n: nat)
    requires n <= |order|
    ensures forall v: nat :: v in OutputsUpTo(edges, order, u, n) <==> v < n && (u, order[v]) in edges
    ensures forall i, j :: 0 <= i < j < |OutputsUpTo(edges, order, u, n)| ==>
      OutputsUpTo(edges, order, u, n)[i] < OutputsUpTo(edges, order, u, n)[j]
    ensures forall i :: 0 <= i < |OutputsUpTo(edges, order, u, n)| ==> OutputsUpTo(edges, order, u, n)[i] < n
  {
    if n > 0 {
      OutputsAre(edges, order, u, n - 1);
    }
  }

  ghost predicate Increasing(ds: seq<TaskDependency>) {
    forall i, j :: 0 <= i < j < |ds| ==> ds[i].inputTask < ds[j].inputTask
  }

  ghost predicate DistinctInputs(ds: seq<TaskDependency>) {
    forall i, j :: 0 <= i < j < |ds| ==> ds[i].inputTask != ds[j].inputTask
  }

  function ById(): (TaskDependency, TaskDependency) -> bool {
    (a: TaskDependency, b: TaskDependency) => a.inputTask < b.inputTask
  }

  lemma InputsHaveOrder()
    ensures WeakOrder(ById())
  {
  }

  /** Distinct inputs have one order by id, the increasing one. */
  lemma IncreasingAgree(sorted: seq<TaskDependency>, inputs: seq<TaskDependency>, ds: seq<TaskDependency>)
    requires DistinctInputs(inputs) && Increasing(ds) && forall d :: d in inputs <==> d in ds
    requires Ordered(ById(), sorted) && multiset(sorted) == multiset(inputs)
    ensures sorted == ds
  {
    InputsHaveOrder();
    DistinctPermute(inputs, ds);
    assert Ordered(ById(), ds);
    assert forall d :: d in sorted <==> d in multiset(sorted);
    assert forall d :: d in ds <==> d in multiset(ds);
    IncreasingDetermines(ds);
    PermutationsAgree(ById(), ds, sorted);
  }

  lemma IncreasingDetermines(ds: seq<TaskDependency>)
    requires Increasing(ds)
    ensures Determines(ById(), ds)
  {
    forall x, y | x in ds && y in ds && x.inputTask == y.inputTask ensures x == y {
      var i :| 0 <= i < |ds| && ds[i] == x;
      var j :| 0 <= j < |ds| && ds[j] == y;
    }
  }

  /** Every source of node `v`, at position `|before|`, outside `todo` has it as a new output. */
  ghost predicate Sent(edges: map<Edge, bool>, order: seq<int>, v: int, todo: set<int>, before: seq<Task>,
      tasks: seq<Task>)
    requires |before| <= |order|
  {
    && |tasks| == |before|
    && forall k :: 0 <= k < |before| ==>
         tasks[k] == before[k].(outputs := before[k].outputs +
           (if (order[k], v) in edges && order[k] !in todo then [|before|] else []))
  }

  /** The dependencies on the sources of `v` outside `todo`, each once. */
  ghost predicate Gathered(edges: map<Edge, bool>, order: seq<int>, v: int, n: nat, todo: set<int>,
      inputs: seq<TaskDependency>)
    requires n <= |order|
  {
    && DistinctInputs(inputs)
    && forall d :: d in inputs <==>
         d.inputTask < n && (order[d.inputTask], v) in edges && order[d.inputTask] !in todo
         && d.propagateResult == !edges[(order[d.inputTask], v)]
  }

  ghost predicate Positions(ids: map<int, nat>, order: seq<int>, n: nat)
    requires n <= |order|
  {
    forall k :: 0 <= k < n ==> order[k] in ids && ids[order[k]] == k
  }

  lemma SentStep(edges: map<Edge, bool>, order: seq<int>, v: int, todo: set<int>, before: seq<Task>, tasks: seq<Task>,
      ids: map<int, nat>, from: nat)
    requires |before| <= |order| && Positions(ids, order, |before|) && from < |before|
    requires Sent(edges, order, v, todo, before, tasks) && order[from] in todo && (order[from], v) in edges
    ensures Sent(edges, order, v, todo - {order[from]}, before,
      tasks[from := tasks[from].(outputs := tasks[from].outputs + [|before|])])
  {
  }

  lemma GatheredStep(edges: map<Edge, bool>, order: seq<int>, v: int, n: nat, todo: set<int>,
      inputs: seq<TaskDependency>, ids: map<int, nat>, from: nat)
    requires n <= |order| && Positions(ids, order, n) && from < n
    requires Gathered(edges, order, v, n, todo, inputs) && order[from] in todo && (order[from], v) in edges
    ensures Gathered(edges, order, v, n, todo - {order[from]},
      inputs + [TaskDependency(!edges[(order[from], v)], from)])
  {
    assert forall i :: 0 <= i < |inputs| ==> inputs[i] in inputs;
  }

  lemma NothingSent(edges: map<Edge, bool>, order: seq<int>, v: int, todo: set<int>, before: seq<Task>)
    requires |before| <= |order| && forall e :: e in edges && e.1 == v ==> e.0 in todo
    ensures Sent(edges, order, v, todo, before, before) && Gathered(edges, order, v, |before|, todo, [])
  {
    forall k | 0 <= k < |before|
      ensures before[k] == before[k].(outputs := before[k].outputs +
        (if (order[k], v) in edges && order[k] !in todo then [|before|] else []))
    {
      var e := (order[k], v);
      assert e in edges ==> e.0 in todo;
      assert before[k].outputs + [] == before[k].outputs;
    }
    forall d: TaskDependency | d.inputTask < |before| && (order[d.inputTask], v) in edges
      ensures order[d.inputTask] in todo
    {
      var e := (order[d.inputTask], v);
      assert e in edges;
    }
  }

  /** The links of the node at position `|before|`: it is appended to the outputs of its sources, and
      its inputs are listed by id. The sources may be visited in any order. */
  method LinkInputs(edges: map<Edge, bool>, order: seq<int>, ids: map<int, nat>, before: seq<Task>)
      returns (tasks: seq<Task>, inputs: seq<TaskDependency>)
    requires |before| < |order| && Positions(ids, order, |before|)
    requires forall u :: (u, order[|before|]) in edges ==> exists k :: 0 <= k < |before| && order[k] == u
    ensures inputs == InputsUpTo(edges, order, order[|before|], |before|)
    ensures Sent(edges, order, order[|before|], {}, before, tasks)
  {
    var n, v := |before|, order[|before|];
    var todo := set e | e in edges && e.1 == v :: e.0;
    tasks, inputs := before, [];
    assert forall u :: u in todo <==> (u, v) in edges;
    NothingSent(edges, order, v, todo, before);
    hide Sent, Gathered, InputsUpTo;
    while todo != {}
      invariant forall u :: u in todo ==> (u, v) in edges
      invariant Sent(edges, order, v, todo, before, tasks) && Gathered(edges, order, v, n, todo, inputs)
      decreases |todo|
    {
      var u := Any(todo);
      var from := ids[u];
      assert order[from] == u && from < n;
      var implicit := IsImplicitEdge(edges, u, v);
      SentStep(edges, order, v, todo, before, tasks, ids, from);
      GatheredStep(edges, order, v, n, todo, inputs, ids, from);
      tasks := tasks[from := tasks[from].(outputs := tasks[from].outputs + [n])];
      inputs := inputs + [TaskDependency(!implicit, from)];
      todo := todo - {u};
    }
    InputsHaveOrder();
    var sorted := Slice(ById(), inputs);
    SortedInputsAgree(edges, order, v, n, inputs, sorted);
    inputs := sorted;
  }

  lemma SortedInputsAgree(edges: map<Edge, bool>, order: seq<int>, v: int, n: nat, inputs: seq<TaskDependency>,
      sorted: seq<TaskDependency>)
    requires n <= |order| && Gathered(edges, order, v, n, {}, inputs)
    requires Ordered(ById(), sorted) && multiset(sorted) == multiset(inputs)
    ensures sorted == InputsUpTo(edges, order, v, n)
  {
    InputsIncrease(edges, order, v, n);
    forall d ensures d in inputs <==> d in InputsUpTo(edges, order, v, n) {
      InputsAre(edges, order, v, n, d);
    }
    IncreasingAgree(sorted, inputs, InputsUpTo(edges, order, v, n));
  }

  /** One more node is linked. */
  lemma LinkedStep(nodes: map<int, GraphNode>, edges: map<Edge, bool>, order: seq<int>, before: seq<Task>,
      tasks: seq<Task>, task: Task)
    requires forall i :: 0 <= i < |order| ==> order[i] in nodes
    requires TopologicalOrder(nodes, edges, order) && |before| < |order|
    requires AllLinked(nodes, edges, order, before)
    requires Sent(edges, order, order[|before|], {}, before, tasks)
    requires Linked(nodes, edges, order, |before| + 1, |before|, task)
    ensures AllLinked(nodes, edges, order, tasks + [task])
  {
    hide TopologicalOrder, InputsUpTo;
    forall k | 0 <= k < |before| ensures Linked(nodes, edges, order, |before| + 1, k, tasks[k]) {
      assert Linked(nodes, edges, order, |before|, k, before[k]);
    }
  }

  /** The newest node has no outputs yet. */
  lemma NoOutputsYet(nodes: map<int, GraphNode>, edges: map<Edge, bool>, order: seq<int>, k: nat)
    requires TopologicalOrder(nodes, edges, order) && k < |order|
    ensures OutputsUpTo(edges, order, order[k], k + 1) == []
  {
    OutputsAre(edges, order, order[k], k + 1);
    var outs := OutputsUpTo(edges, order, order[k], k + 1);
    if outs != [] {
      HasFirst(outs);
      assert false;
    }
  }

  lemma HasFirst(xs: seq<nat>)
    requires xs != []
    ensures exists x :: x in xs
  {
    assert xs[0] in xs;
  }

  lemma SourcesAreLinked(nodes: map<int, GraphNode>, edges: map<Edge, bool>, order: seq<int>, n: nat, u: int)
    requires TopologicalOrder(nodes, edges, order) && n < |order| && (u, order[n]) in edges
    ensures exists k :: 0 <= k < n && order[k] == u
  {
    assert u in nodes;
    var k :| 0 <= k < |order| && order[k] == u;
  }

  lemma NothingLinked(nodes: map<int, GraphNode>, edges: map<Edge, bool>, order: seq<int>)
    requires forall i :: 0 <= i < |order| ==> order[i] in nodes
    ensures AllLinked(nodes, edges, order, [])
    ensures FirstError(nodes, order[|order|..]) == None && order[0..] == order
  {
  }

  lemma FirstErrorAt(nodes: map<int, GraphNode>, order: seq<int>, k: nat)
    requires k < |order| && forall i :: 0 <= i < |order| ==> order[i] in nodes
    ensures FirstError(nodes, order[k..]) ==
      if nodes[order[k]].dotID == INPUT_TASK_KEY then Some(ReservedName)
      else match nodes[order[k]].decoded case Err(e) => Some(BadTask(e)) case Ok(_) => FirstError(nodes, order[k + 1..])
  {
    assert order[k..][1..] == order[k + 1..];
  }

  /** Decodes and links the node at position `|before|`. */
  method AppendTask(nodes: map<int, GraphNode>, edges: map<Edge, bool>, order: seq<int>, ids: map<int, nat>,
      before: seq<Task>, attrs: Attributes) returns (tasks: seq<Task>)
    requires TopologicalOrder(nodes, edges, order) && |before| < |order|
    requires AllLinked(nodes, edges, order, before) && nodes[order[|before|]].decoded == Ok(attrs)
    requires Positions(ids, order, |before|)
    ensures |tasks| == |before| + 1 && AllLinked(nodes, edges, order, tasks)
  {
    var id := |before|;
    forall u | (u, order[id]) in edges ensures exists k :: 0 <= k < id && order[k] == u {
      SourcesAreLinked(nodes, edges, order, id, u);
    }
    NoOutputsYet(nodes, edges, order, id);
    hide AllLinked, InputsUpTo, OutputsUpTo;
    var linked, inputs := LinkInputs(edges, order, ids, before);
    var task := Task(id, nodes[order[id]].dotID, attrs.index, attrs.failEarly, attrs.retries, inputs, []);
    assert Linked(nodes, edges, order, id + 1, id, task);
    LinkedStep(nodes, edges, order, before, linked, task);
    tasks := linked + [task];
  }

  /** The second half of `Parse`, for a graph with its implicit edges and a topological order. */
  method Relink(nodes: map<int, GraphNode>, edges: map<Edge, bool>, order: seq<int>) returns (r: Parsed)
    requires TopologicalOrder(nodes, edges, order)
    ensures match FirstError(nodes, order)
      case Some(e) => r == Invalid(e)
      case None => r.Success? && |r.pipeline.tasks| == |order| && AllLinked(nodes, edges, order, r.pipeline.tasks)
  {
    assert forall i :: 0 <= i < |order| ==> order[i] in nodes;
    var ids: map<int, nat> := map[];
    var tasks: seq<Task> := [];
    NothingLinked(nodes, edges, order);
    hide TopologicalOrder, AllLinked, FirstError;
    for id := 0 to |order|
      invariant |tasks| == id && AllLinked(nodes, edges, order, tasks)
      invariant Positions(ids, order, id)
      invariant FirstError(nodes, order) == FirstError(nodes, order[id..])
    {
      FirstErrorAt(nodes, order, id);
      var node := nodes[order[id]];
      if node.dotID == INPUT_TASK_KEY {
        return Invalid(ReservedName);
      }
      if node.decoded.Err? {
        return Invalid(BadTask(node.decoded.error));
      }
      tasks := AppendTask(nodes, edges, order, ids, tasks, node.decoded.value);
      ids := ids[order[id] := id];
    }
    r := Success(Pipeline(tasks));
  }

  // ----- what the scheduler may rely on -----

  lemma InputSetIs(p: Pipeline, edges: map<Edge, bool>, order: seq<int>, u: nat, v: nat)
    requires v < |p.tasks| && |p.tasks| == |order|
    requires p.tasks[v].inputs == InputsUpTo(edges, order, order[v], v)
    ensures u in InputSet(p, v) <==> u < v && (order[u], order[v]) in edges
  {
    if u in InputSet(p, v) {
      var d :| d in p.tasks[v].inputs && d.inputTask == u;
      InputsAre(edges, order, order[v], v, d);
    }
    if u < v && (order[u], order[v]) in edges {
      InputsAre(edges, order, order[v], v, TaskDependency(!edges[(order[u], order[v])], u));
      assert TaskDependency(!edges[(order[u], order[v])], u) in p.tasks[v].inputs;
    }
  }

  lemma LinksAreSorted(nodes: map<int, GraphNode>, edges: map<Edge, bool>, order: seq<int>, p: Pipeline)
    requires TopologicalOrder(nodes, edges, order)
    requires |p.tasks| == |order| && AllLinked(nodes, edges, order, p.tasks)
    ensures PositionalIds(p) && SortedLinks(p) && InRange(p)
  {
    forall t | 0 <= t < |p.tasks|
      ensures p.tasks[t].id == t
      ensures Increasing(p.tasks[t].inputs)
      ensures forall i :: 0 <= i < |p.tasks[t].inputs| ==> p.tasks[t].inputs[i].inputTask < t
      ensures forall i, j :: 0 <= i < j < |p.tasks[t].outputs| ==> p.tasks[t].outputs[i] < p.tasks[t].outputs[j]
      ensures forall i :: 0 <= i < |p.tasks[t].outputs| ==> t < p.tasks[t].outputs[i] < |p.tasks|
    {
      assert Linked(nodes, edges, order, |p.tasks|, t, p.tasks[t]);
      InputsIncrease(edges, order, order[t], t);
      OutputsAre(edges, order, order[t], |order|);
      LaterOutputs(nodes, edges, order, t);
    }
  }

  lemma LaterOutputs(nodes: map<int, GraphNode>, edges: map<Edge, bool>, order: seq<int>, t: nat)
    requires TopologicalOrder(nodes, edges, order) && t < |order|
    ensures forall i :: 0 <= i < |OutputsUpTo(edges, order, order[t], |order|)| ==>
      t < OutputsUpTo(edges, order, order[t], |order|)[i] < |order|
  {
    var outs := OutputsUpTo(edges, order, order[t], |order|);
    OutputsAre(edges, order, order[t], |order|);
    forall i | 0 <= i < |outs| ensures t < outs[i] < |order| {
      assert outs[i] in outs;
    }
  }

  /** Re-linking yields a well-formed pipeline: ids are positions, links are sorted, without
      repetition and inverse to each other, and they match the edges; results are propagated exactly
      along explicit edges. */
  lemma RelinkedIsWellFormed(nodes: map<int, GraphNode>, edges: map<Edge, bool>, order: seq<int>, p: Pipeline)
    requires TopologicalOrder(nodes, edges, order)
    requires |p.tasks| == |order| && AllLinked(nodes, edges, order, p.tasks)
    ensures WellFormed(p)
    ensures forall t :: 0 <= t < |order| ==>
      && p.tasks[t].dotID == nodes[order[t]].dotID && nodes[order[t]].decoded.Ok?
      && p.tasks[t].index == nodes[order[t]].decoded.value.index
      && p.tasks[t].failEarly == nodes[order[t]].decoded.value.failEarly
      && p.tasks[t].retries == nodes[order[t]].decoded.value.retries
    ensures forall u, v :: 0 <= u < |order| && 0 <= v < |order| ==>
      ((order[u], order[v]) in edges <==> u in InputSet(p, v))
    ensures forall v, i :: 0 <= v < |order| && 0 <= i < |p.tasks[v].inputs| ==>
      (order[p.tasks[v].inputs[i].inputTask], order[v]) in edges
      && p.tasks[v].inputs[i].propagateResult == !edges[(order[p.tasks[v].inputs[i].inputTask], order[v])]
  {
    LinksAreSorted(nodes, edges, order, p);
    hide TopologicalOrder, AllLinked, InputSet, PositionalIds, SortedLinks, InRange;
    forall t | 0 <= t < |order|
      ensures p.tasks[t].dotID == nodes[order[t]].dotID
      ensures nodes[order[t]].decoded == Ok(Attributes(p.tasks[t].index, p.tasks[t].failEarly, p.tasks[t].retries))
    {
      TaskOfNode(nodes, edges, order, p, t);
    }
    forall u, v | 0 <= u < |order| && 0 <= v < |order|
      ensures (order[u], order[v]) in edges <==> u in InputSet(p, v)
      ensures v in p.tasks[u].outputs <==> u in InputSet(p, v)
    {
      LinkOfEdge(nodes, edges, order, p, u, v);
    }
    forall v, i | 0 <= v < |order| && 0 <= i < |p.tasks[v].inputs|
      ensures p.tasks[v].inputs[i].inputTask < |order|
      ensures (order[p.tasks[v].inputs[i].inputTask], order[v]) in edges
      ensures p.tasks[v].inputs[i].propagateResult == !edges[(order[p.tasks[v].inputs[i].inputTask], order[v])]
    {
      EdgeOfInput(nodes, edges, order, p, v, i);
    }
  }

  lemma TaskOfNode(nodes: map<int, GraphNode>, edges: map<Edge, bool>, order: seq<int>, p: Pipeline, t: nat)
    requires TopologicalOrder(nodes, edges, order) && t < |order|
    requires |p.tasks| == |order| && AllLinked(nodes, edges, order, p.tasks)
    ensures p.tasks[t].dotID == nodes[order[t]].dotID
    ensures nodes[order[t]].decoded == Ok(Attributes(p.tasks[t].index, p.tasks[t].failEarly, p.tasks[t].retries))
    ensures p.tasks[t].inputs == InputsUpTo(edges, order, order[t], t)
    ensures p.tasks[t].outputs == OutputsUpTo(edges, order, order[t], |order|)
  {
    assert Linked(nodes, edges, order, |order|, t, p.tasks[t]);
  }

  lemma LinkOfEdge(nodes: map<int, GraphNode>, edges: map<Edge, bool>, order: seq<int>, p: Pipeline, u: nat, v: nat)
    requires TopologicalOrder(nodes, edges, order) && u < |order| && v < |order|
    requires |p.tasks| == |order| && AllLinked(nodes, edges, order, p.tasks)
    ensures (order[u], order[v]) in edges <==> u in InputSet(p, v)
    ensures v in p.tasks[u].outputs <==> u in InputSet(p, v)
  {
    hide AllLinked, InputSet, InputsUpTo, OutputsUpTo;
    TaskOfNode(nodes, edges, order, p, u);
    TaskOfNode(nodes, edges, order, p, v);
    InputSetIs(p, edges, order, u, v);
    OutputsAre(edges, order, order[u], |order|);
  }

  lemma EdgeOfInput(nodes: map<int, GraphNode>, edges: map<Edge, bool>, order: seq<int>, p: Pipeline, v: nat, i: nat)
    requires TopologicalOrder(nodes, edges, order) && v < |order|
    requires |p.tasks| == |order| && AllLinked(nodes, edges, order, p.tasks) && i < |p.tasks[v].inputs|
    ensures p.tasks[v].inputs[i].inputTask < |order|
    ensures (order[p.tasks[v].inputs[i].inputTask], order[v]) in edges
    ensures p.tasks[v].inputs[i].propagateResult == !edges[(order[p.tasks[v].inputs[i].inputTask], order[v])]
  {
    hide AllLinked, TopologicalOrder, InputsUpTo, OutputsUpTo;
    TaskOfNode(nodes, edges, order, p, v);
    InputsAre(edges, order, order[v], v, p.tasks[v].inputs[i]);
  }

  /** Why schedules cannot be observed: every task whose variable a task references is one of its
      inputs, if DotIDs have no surrounding space and no node references itself. */
  lemma ReferencesBecomeInputs(nodes: map<int, GraphNode>, edges: map<Edge, bool>, after: map<Edge, bool>,
      order: seq<int>, p: Pipeline, t: nat, u: nat)
    requires AddsReferences(nodes, edges, after) && TopologicalOrder(nodes, after, order)
    requires |p.tasks| == |order| && AllLinked(nodes, after, order, p.tasks) && t < |order| && u < |order|
    requires Trim(p.tasks[u].dotID) == p.tasks[u].dotID && t != u
    requires Name(p, u) in Params(nodes[order[t]].exprs)
    ensures u in InputSet(p, t)
  {
    RelinkedIsWellFormed(nodes, after, order, p);
    assert Linked(nodes, after, order, |order|, u, p.tasks[u]);
    assert References(nodes, order[u], order[t]);
    assert (order[u], order[t]) in after;
  }

  /** So the tasks of a parsed pipeline meet the hypothesis of schedule independence, if DotIDs have
      no surrounding space and no node references itself. */
  lemma ParsedRefsAreInputs(nodes: map<int, GraphNode>, edges: map<Edge, bool>, after: map<Edge, bool>,
      order: seq<int>, g: Program)
    requires AddsReferences(nodes, edges, after) && TopologicalOrder(nodes, after, order)
    requires |g.p.tasks| == |order| && AllLinked(nodes, after, order, g.p.tasks)
    requires forall t :: 0 <= t < |order| ==> g.refs(t) == Params(nodes[order[t]].exprs)
    requires forall t :: 0 <= t < |order| ==>
      Trim(g.p.tasks[t].dotID) == g.p.tasks[t].dotID && g.p.tasks[t].dotID !in Params(nodes[order[t]].exprs)
    ensures WellFormed(g.p) && RefsAreInputs(g)
  {
    RelinkedIsWellFormed(nodes, after, order, g.p);
    hide TopologicalOrder, AllLinked, AddsReferences, Trim, Params, InputSet;
    forall t, u | 0 <= t < |g.p.tasks| && 0 <= u < |g.p.tasks| && Name(g.p, u) in g.refs(t)
      ensures u in InputSet(g.p, t)
    {
      assert t != u;
      ReferencesBecomeInputs(nodes, edges, after, order, g.p, t, u);
    }
  }
}
