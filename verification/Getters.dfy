/** JSON interpolation: the in-place worklist over shared maps and slices, against the recursive
    substitution of variable values for markers. */
module Getters {
  import opened Values
  import opened Keypaths
  import opened Variables

  const KEY_PATH := "__chainlink_key_path__"

  // ----- the recursive substitution -----

  /** A map that stands for a variable expression. */
  predicate Marker(v: Value) {
    v.Node? && v.kind == GoMap && Field(KEY_PATH) in v.kids
  }

  /** Only maps and slices of any are walked. */
  predicate Walkable(kind: Kind) {
    kind != GoRows
  }

  /** What a marker stands for. */
  function Meaning(vars: VarMap, allowErrors: bool, v: Value): Outcome<Value>
    requires Marker(v)
  {
    match v.kids[Field(KEY_PATH)]
    case Scalar(Text(keypath)) =>
      (match Lookup(vars, keypath)
       case Err(e) => Err(e)
       case Ok(w) => if w.Scalar? && w.atom.Failure? && !allowErrors then Err(BadInput) else Ok(w))
    case _ => Err(BadInput)
  }

  /** Some marker in `v` has no meaning, because of `e`. */
  ghost predicate FailsWith(vars: VarMap, allowErrors: bool, v: Value, e: GoError) {
    if Marker(v) then Meaning(vars, allowErrors, v) == Err(e)
    else v.Node? && Walkable(v.kind) && exists k :: k in v.kids && FailsWith(vars, allowErrors, v.kids[k], e)
  }

  /** Every marker in `v` has a meaning. */
  ghost predicate Meaningful(vars: VarMap, allowErrors: bool, v: Value) {
    if Marker(v) then Meaning(vars, allowErrors, v).Ok?
    else v.Node? && Walkable(v.kind) ==> forall k :: k in v.kids ==> Meaningful(vars, allowErrors, v.kids[k])
  }

  /** `v` with the meaning of every marker in its place. */
  ghost function Substitute(vars: VarMap, allowErrors: bool, v: Value): Value
    requires Meaningful(vars, allowErrors, v)
  {
    if Marker(v) then Meaning(vars, allowErrors, v).value
    else if v.Node? && Walkable(v.kind) then
      Node(v.kind, map k | k in v.kids :: Substitute(vars, allowErrors, v.kids[k]))
    else v
  }

  /** No marker anywhere. */
  ghost predicate MarkerFree(v: Value) {
    !Marker(v) && (v.Node? ==> forall k :: k in v.kids ==> MarkerFree(v.kids[k]))
  }

  lemma {:induction false} FailureIsMeaningless(vars: VarMap, allowErrors: bool, v: Value, e: GoError)
    requires FailsWith(vars, allowErrors, v, e)
    ensures !Meaningful(vars, allowErrors, v)
    decreases v
  {
    if !Marker(v) {
      var k :| k in v.kids && FailsWith(vars, allowErrors, v.kids[k], e);
      FailureIsMeaningless(vars, allowErrors, v.kids[k], e);
    }
  }

  lemma {:induction false} MeaninglessFails(vars: VarMap, allowErrors: bool, v: Value) returns (e: GoError)
    requires !Meaningful(vars, allowErrors, v)
    ensures FailsWith(vars, allowErrors, v, e)
    decreases v
  {
    if Marker(v) {
      e := Meaning(vars, allowErrors, v).error;
    } else {
      var k :| k in v.kids && !Meaningful(vars, allowErrors, v.kids[k]);
      e := MeaninglessFails(vars, allowErrors, v.kids[k]);
    }
  }

  lemma {:induction false} MarkerFreeIsFixed(vars: VarMap, allowErrors: bool, v: Value)
    requires MarkerFree(v)
    ensures Meaningful(vars, allowErrors, v) && Substitute(vars, allowErrors, v) == v
  {
    if v.Node? && Walkable(v.kind) {
      forall k | k in v.kids
        ensures Meaningful(vars, allowErrors, v.kids[k]) && Substitute(vars, allowErrors, v.kids[k]) == v.kids[k]
      {
        MarkerFreeIsFixed(vars, allowErrors, v.kids[k]);
      }
      assert (map k | k in v.kids :: Substitute(vars, allowErrors, v.kids[k])) == v.kids;
    }
  }

  // ----- what markers mean -----

  /** The map that stands for `$(keypath)` once the JSON is decoded. */
  ghost predicate MarkerOf(v: Value, keypath: string) {
    && v.Node? && v.kind == GoMap && Field("__chainlink_key_path__") in v.kids
    && v.kids[Field("__chainlink_key_path__")] == Scalar(Text(keypath))
  }

  /** A map with the reserved key, but no text under it. */
  ghost predicate BadMarker(v: Value) {
    && v.Node? && v.kind == GoMap && Field("__chainlink_key_path__") in v.kids
    && forall keypath :: v.kids[Field("__chainlink_key_path__")] != Scalar(Text(keypath))
  }

  ghost predicate IsFailure(v: Value) {
    exists e :: v == Scalar(Failure(e))
  }

  /** A marker is replaced by what a lookup of its keypath finds, and fails as the lookup does; it
      also fails if it finds an error that is not allowed. */
  lemma MarkerMeansLookup(vars: VarMap, allowErrors: bool, v: Value, keypath: string)
    requires MarkerOf(v, keypath)
    ensures match Lookup(vars, keypath)
      case Err(e) => !Meaningful(vars, allowErrors, v) && forall e' :: FailsWith(vars, allowErrors, v, e') <==> e' == e
      case Ok(w) =>
        if IsFailure(w) && !allowErrors
        then !Meaningful(vars, allowErrors, v) && forall e' :: FailsWith(vars, allowErrors, v, e') <==> e' == BadInput
        else Meaningful(vars, allowErrors, v) && Substitute(vars, allowErrors, v) == w
  {
    hide Lookup;
  }

  /** The reserved key with anything but text under it is bad input. */
  lemma BadMarkerFails(vars: VarMap, allowErrors: bool, v: Value, e: GoError)
    requires BadMarker(v)
    ensures !Meaningful(vars, allowErrors, v) && (FailsWith(vars, allowErrors, v, e) <==> e == BadInput)
  {
    hide Lookup;
  }

  /** The value under some keys. */
  function At(v: Value, path: seq<Key>): Option<Value> {
    if path == [] then Some(v)
    else if v.Node? && path[0] in v.kids then At(v.kids[path[0]], path[1..])
    else None
  }

  /** Maps and slices without the reserved key lead to the value under `path`. */
  ghost predicate Plainly(v: Value, path: seq<Key>) {
    path == [] ||
      (v.Node? && v.kind in {GoMap, GoSlice} && !(v.kind == GoMap && Field("__chainlink_key_path__") in v.kids)
       && path[0] in v.kids && Plainly(v.kids[path[0]], path[1..]))
  }

  /** Substitution goes to every place: under the same keys it has the substitution of what was there. */
  lemma {:induction false} SubstituteAt(vars: VarMap, allowErrors: bool, v: Value, path: seq<Key>)
    requires Meaningful(vars, allowErrors, v) && Plainly(v, path)
    ensures At(v, path).Some? && Meaningful(vars, allowErrors, At(v, path).value)
    ensures At(Substitute(vars, allowErrors, v), path) ==
      Some(Substitute(vars, allowErrors, At(v, path).value))
    decreases path
  {
    if path != [] {
      SubstituteAt(vars, allowErrors, v.kids[path[0]], path[1..]);
    }
  }

  /** What is neither a marker nor leads to one stays: scalars, rows, and the keys of maps and slices. */
  lemma SubstituteKeeps(vars: VarMap, allowErrors: bool, v: Value)
    requires Meaningful(vars, allowErrors, v)
    requires !(v.Node? && v.kind == GoMap && Field("__chainlink_key_path__") in v.kids)
    ensures v.Scalar? || v.kind == GoRows ==> Substitute(vars, allowErrors, v) == v
    ensures v.Node? ==>
      && Substitute(vars, allowErrors, v).Node?
      && Substitute(vars, allowErrors, v).kind == v.kind && Substitute(vars, allowErrors, v).kids.Keys == v.kids.Keys
  {
  }

  /** A failing marker anywhere fails the whole, with its error; and only failing markers do. */
  lemma {:induction false} FailureIsSomewhere(vars: VarMap, allowErrors: bool, v: Value, e: GoError)
      returns (path: seq<Key>, marker: Value)
    requires FailsWith(vars, allowErrors, v, e)
    ensures Plainly(v, path) && At(v, path) == Some(marker) && FailsWith(vars, allowErrors, marker, e)
    ensures BadMarker(marker) || exists keypath :: MarkerOf(marker, keypath)
    decreases v
  {
    hide Meaning;
    if Marker(v) {
      path, marker := [], v;
      var kid := v.kids[Field(KEY_PATH)];
      if kid.Scalar? && kid.atom.Text? {
        assert MarkerOf(v, kid.atom.text);
      } else {
        assert BadMarker(v);
      }
    } else {
      var k :| k in v.kids && FailsWith(vars, allowErrors, v.kids[k], e);
      path, marker := FailureIsSomewhere(vars, allowErrors, v.kids[k], e);
      path := [k] + path;
    }
  }

  lemma {:induction false} FailureSpreads(vars: VarMap, allowErrors: bool, v: Value, path: seq<Key>, e: GoError)
    requires Plainly(v, path) && At(v, path).Some? && FailsWith(vars, allowErrors, At(v, path).value, e)
    ensures FailsWith(vars, allowErrors, v, e)
    decreases path
  {
    if path != [] {
      FailureSpreads(vars, allowErrors, v.kids[path[0]], path[1..], e);
    }
  }

  /** So `{"k": $(x)}` becomes `{"k": x}`, and `[$(x)]` becomes `[x]`. */
  lemma ExpressionBecomesVariable(vars: VarMap, x: string, marker: Value, k: string)
    requires MarkerOf(marker, x) && Trim(x) == x != "" && '.' !in x && x in vars && !IsFailure(vars[x])
    requires k != "__chainlink_key_path__"
    ensures Meaningful(vars, false, Node(GoMap, map[Field(k) := marker]))
    ensures Substitute(vars, false, Node(GoMap, map[Field(k) := marker])) == Node(GoMap, map[Field(k) := vars[x]])
    ensures Meaningful(vars, false, Node(GoSlice, map[Index(0) := marker]))
    ensures Substitute(vars, false, Node(GoSlice, map[Index(0) := marker])) == Node(GoSlice, map[Index(0) := vars[x]])
  {
    LookupOfName(vars, x);
    MarkerMeansLookup(vars, false, marker, x);
    hide Lookup, Marker, Meaning;
    HoldsOneMarker(vars, GoMap, Field(k), marker, vars[x]);
    HoldsOneMarker(vars, GoSlice, Index(0), marker, vars[x]);
  }

  lemma HoldsOneMarker(vars: VarMap, kind: Kind, k: Key, marker: Value, w: Value)
    requires kind in {GoMap, GoSlice} && k != Field("__chainlink_key_path__")
    requires Meaningful(vars, false, marker) && Substitute(vars, false, marker) == w
    ensures Meaningful(vars, false, Node(kind, map[k := marker]))
    ensures Substitute(vars, false, Node(kind, map[k := marker])) == Node(kind, map[k := w])
  {
    hide Meaning;
    var v := Node(kind, map[k := marker]);
    assert v.kids[k] == marker && v.kids.Keys == {k};
    assert Meaningful(vars, false, v);
    assert Substitute(vars, false, v).kids == map[k := w];
  }

  // ----- the store -----

  /** A Go value in memory: a scalar, or a reference to a map or a slice. */
  datatype Ref = Leaf(atom: Atom) | Addr(addr: nat)

  datatype Cell = Cell(kind: Kind, kids: map<Key, Ref>)

  type Store = map<nat, Cell>

  type Env = map<string, Ref>

  function CellOf(h: Store, r: Ref): Option<Cell> {
    if r.Addr? && r.addr in h then Some(h[r.addr]) else None
  }

  /** The reference `r` unfolds to the finite value `v`. */
  ghost predicate Represents(h: Store, r: Ref, v: Value)
    decreases v
  {
    match v
    case Scalar(a) => r == Leaf(a)
    case Node(kind, kids) =>
      && CellOf(h, r).Some? && CellOf(h, r).value.kind == kind
      && CellOf(h, r).value.kids.Keys == kids.Keys
      && forall k :: k in kids ==> Represents(h, CellOf(h, r).value.kids[k], kids[k])
  }

  // ----- variables in the store -----

  function StepRef(h: Store, r: Ref, part: string): Outcome<Ref> {
    match CellOf(h, r)
    case None => Err(KeypathNotFound)
    case Some(Cell(GoMap, kids)) =>
      if Field(part) in kids then Ok(kids[Field(part)]) else Err(KeypathNotFound)
    case Some(Cell(_, kids)) =>
      match ParseInt(part)
      case None => Err(KeypathNotFound)
      case Some(idx) =>
        if 0 <= idx && Index(idx) in kids then Ok(kids[Index(idx)]) else Err(IndexOutOfRange)
  }

  function NavigateRef(h: Store, r: Ref, parts: seq<string>): Outcome<Ref>
    decreases parts
  {
    if parts == [] then Ok(r)
    else
      match StepRef(h, r, parts[0])
      case Err(e) => Err(e)
      case Ok(next) => NavigateRef(h, next, parts[1..])
  }

  /** `Vars.Get` on the store. */
  function GetRef(h: Store, env: Env, keypath: string): Outcome<Ref> {
    match Parse(Trim(keypath))
    case Err(e) => Err(e)
    case Ok(parts) =>
      if parts == [] then Err(VarsRoot)
      else if parts[0] in env then NavigateRef(h, env[parts[0]], parts[1..])
      else Err(KeypathNotFound)
  }

  ghost predicate EnvRepresents(h: Store, env: Env, vars: VarMap) {
    env.Keys == vars.Keys && forall x :: x in vars ==> Represents(h, env[x], vars[x])
  }

  /** Outcomes agree: the same error, or a reference to the value. */
  ghost predicate Matches(h: Store, r: Outcome<Ref>, v: Outcome<Value>) {
    match v
    case Err(e) => r == Err(e)
    case Ok(w) => r.Ok? && Represents(h, r.value, w)
  }

  lemma StepMatches(h: Store, r: Ref, v: Value, part: string)
    requires Represents(h, r, v)
    ensures Matches(h, StepRef(h, r, part), Step(v, part))
  {
    match v
    case Scalar(_) =>
    case Node(_, kids) =>
      assert forall k :: k in kids ==> k in CellOf(h, r).value.kids.Keys;
      assert forall k :: k in CellOf(h, r).value.kids ==> k in kids.Keys;
  }

  lemma {:induction false} NavigateMatches(h: Store, r: Ref, v: Value, parts: seq<string>)
    requires Represents(h, r, v)
    ensures Matches(h, NavigateRef(h, r, parts), Navigate(v, parts))
    decreases parts
  {
    if parts != [] {
      StepMatches(h, r, v, parts[0]);
      if Step(v, parts[0]).Ok? {
        NavigateMatches(h, StepRef(h, r, parts[0]).value, Step(v, parts[0]).value, parts[1..]);
      }
    }
  }

  /** A lookup in the store finds what a lookup in the values finds. */
  lemma GetMatches(h: Store, env: Env, vars: VarMap, keypath: string)
    requires EnvRepresents(h, env, vars)
    ensures Matches(h, GetRef(h, env, keypath), Lookup(vars, keypath))
  {
    match Parse(Trim(keypath))
    case Err(_) =>
    case Ok(parts) =>
      if parts != [] && parts[0] in vars {
        assert Step(Root(vars), parts[0]) == Ok(vars[parts[0]]);
        NavigateMatches(h, env[parts[0]], vars[parts[0]], parts[1..]);
      }
  }

  // ----- one replacement -----

  predicate MarkerCell(cell: Cell) {
    cell.kind == GoMap && Field(KEY_PATH) in cell.kids
  }

  predicate IsMarkerRef(h: Store, r: Ref) {
    CellOf(h, r).Some? && MarkerCell(CellOf(h, r).value)
  }

  /** The function that `JSONWithVarExprs` maps over the decoded JSON. */
  function Replace(h: Store, env: Env, allowErrors: bool, r: Ref): Outcome<Ref> {
    if !IsMarkerRef(h, r) then Ok(r)
    else
      match CellOf(h, r).value.kids[Field(KEY_PATH)]
      case Leaf(Text(keypath)) =>
        (match GetRef(h, env, keypath)
         case Err(e) => Err(e)
         case Ok(w) => if w.Leaf? && w.atom.Failure? && !allowErrors then Err(BadInput) else Ok(w))
      case _ => Err(BadInput)
  }

  ghost predicate Within(r: Ref, cells: set<nat>) {
    r.Addr? ==> r.addr in cells
  }

  /** The variables live in `cells`: closed under references, and without any marker. */
  ghost predicate VariableCells(h: Store, env: Env, cells: set<nat>) {
    && cells <= h.Keys
    && (forall x :: x in env ==> Within(env[x], cells))
    && (forall a :: a in cells ==> !MarkerCell(h[a]))
    && (forall a, k :: a in cells && k in h[a].kids ==> Within(h[a].kids[k], cells))
  }

  lemma {:induction false} NavigateStaysWithin(h: Store, r: Ref, parts: seq<string>, env: Env, cells: set<nat>)
    requires VariableCells(h, env, cells) && Within(r, cells)
    ensures NavigateRef(h, r, parts).Ok? ==> Within(NavigateRef(h, r, parts).value, cells)
    decreases parts
  {
    if parts != [] && StepRef(h, r, parts[0]).Ok? {
      NavigateStaysWithin(h, StepRef(h, r, parts[0]).value, parts[1..], env, cells);
    }
  }

  /** A replaced marker leads into the variables; everything else stays. */
  lemma ReplaceLeadsToVariables(h: Store, env: Env, allowErrors: bool, r: Ref, cells: set<nat>)
    requires VariableCells(h, env, cells) && Replace(h, env, allowErrors, r).Ok?
    ensures IsMarkerRef(h, r) ==> Within(Replace(h, env, allowErrors, r).value, cells)
    ensures !IsMarkerRef(h, Replace(h, env, allowErrors, r).value)
    ensures Replace(h, env, allowErrors, Replace(h, env, allowErrors, r).value) == Replace(h, env, allowErrors, r)
  {
    if IsMarkerRef(h, r) {
      var keypath := CellOf(h, r).value.kids[Field(KEY_PATH)].atom.text;
      var parts := Parse(Trim(keypath)).value;
      NavigateStaysWithin(h, env[parts[0]], parts[1..], env, cells);
    }
  }

  /** What `Replace` does to a reference is what `Meaning` does to its value. */
  lemma ReplaceMatches(h: Store, env: Env, vars: VarMap, allowErrors: bool, r: Ref, v: Value)
    requires EnvRepresents(h, env, vars) && Represents(h, r, v)
    ensures IsMarkerRef(h, r) <==> Marker(v)
    ensures Marker(v) ==> Matches(h, Replace(h, env, allowErrors, r), Meaning(vars, allowErrors, v))
  {
    if v.Node? {
      assert Field(KEY_PATH) in CellOf(h, r).value.kids.Keys <==> Field(KEY_PATH) in v.kids.Keys;
    }
    if Marker(v) {
      var kid := v.kids[Field(KEY_PATH)];
      assert Represents(h, CellOf(h, r).value.kids[Field(KEY_PATH)], kid);
      if kid.Scalar? && kid.atom.Text? {
        GetMatches(h, env, vars, kid.atom.text);
      }
    }
  }

  // ----- what the worklist keeps -----

  /** A value to be looked at, and the slot of the map or slice that it came from. */
  datatype Item = Item(val: Ref, parent: Option<(nat, Key)>)

  ghost predicate Slot(h: Store, a: nat, k: Key) {
    a in h && k in h[a].kids
  }

  /** `h` is `h0` with some slots replaced. Only expanded cells, and no cells of variables, differ. */
  ghost predicate Rewritten(h0: Store, h: Store, env: Env, allowErrors: bool, expanded: set<nat>, cells: set<nat>) {
    && h.Keys == h0.Keys
    && expanded <= h0.Keys
    && (forall a :: a in h0 ==> h[a].kind == h0[a].kind && h[a].kids.Keys == h0[a].kids.Keys)
    && (forall a :: a in h0 && (a !in expanded || a in cells) ==> h[a] == h0[a])
    && (forall a :: a in expanded ==> !MarkerCell(h0[a]))
    && (forall a, k :: Slot(h0, a, k) ==> SlotRewritten(h0, h, env, allowErrors, a, k))
  }

  ghost predicate SlotRewritten(h0: Store, h: Store, env: Env, allowErrors: bool, a: nat, k: Key)
    requires Slot(h0, a, k)
  {
    Slot(h, a, k) &&
    (h[a].kids[k] == h0[a].kids[k] || Replace(h0, env, allowErrors, h0[a].kids[k]) == Ok(h[a].kids[k]))
  }

  /** `r` is a map or slice whose slots are, or have been, on the worklist. */
  ghost predicate Expanded(h0: Store, expanded: set<nat>, r: Ref) {
    CellOf(h0, r).Some? && Walkable(CellOf(h0, r).value.kind) ==> r.addr in expanded
  }

  /** `now` is what `r` was replaced by, and its own slots have been seen to. */
  ghost predicate Settled(h0: Store, env: Env, allowErrors: bool, expanded: set<nat>, r: Ref, now: Ref) {
    Replace(h0, env, allowErrors, r) == Ok(now) && Expanded(h0, expanded, now)
  }

  ghost predicate OnStack(stack: seq<Item>, a: nat, k: Key) {
    exists i :: 0 <= i < |stack| && stack[i].parent == Some((a, k))
  }

  /** Every slot of an expanded cell is settled or on the worklist. */
  ghost predicate SlotsSeen(h0: Store, h: Store, env: Env, allowErrors: bool, expanded: set<nat>, stack: seq<Item>) {
    forall a, k :: a in expanded && Slot(h0, a, k) ==>
      OnStack(stack, a, k) || (Slot(h, a, k) && Settled(h0, env, allowErrors, expanded, h0[a].kids[k], h[a].kids[k]))
  }

  /** An item came from the root or from a slot of an expanded cell. */
  ghost predicate GoodItem(h0: Store, env: Env, allowErrors: bool, expanded: set<nat>, root: Ref, item: Item) {
    match item.parent
    case None => item.val == root
    case Some((a, k)) =>
      a in expanded && Slot(h0, a, k)
      && Replace(h0, env, allowErrors, item.val) == Replace(h0, env, allowErrors, h0[a].kids[k])
  }

  lemma {:induction false} NavigateSame(h0: Store, h: Store, env: Env, cells: set<nat>, r: Ref, parts: seq<string>)
    requires VariableCells(h0, env, cells) && Within(r, cells)
    requires forall a :: a in cells ==> a in h && h[a] == h0[a]
    ensures NavigateRef(h, r, parts) == NavigateRef(h0, r, parts)
    decreases parts
  {
    if parts != [] && StepRef(h0, r, parts[0]).Ok? {
      NavigateSame(h0, h, env, cells, StepRef(h0, r, parts[0]).value, parts[1..]);
    }
  }

  /** The rewriting so far does not change what the next replacement does. */
  lemma ReplaceSame(h0: Store, h: Store, env: Env, allowErrors: bool, expanded: set<nat>, cells: set<nat>, r: Ref)
    requires VariableCells(h0, env, cells) && Rewritten(h0, h, env, allowErrors, expanded, cells)
    ensures Replace(h, env, allowErrors, r) == Replace(h0, env, allowErrors, r)
  {
    if r.Addr? && r.addr in h0 {
      assert Field(KEY_PATH) in h[r.addr].kids.Keys <==> Field(KEY_PATH) in h0[r.addr].kids.Keys;
    }
    if IsMarkerRef(h0, r) {
      assert h[r.addr] == h0[r.addr];
      var kid := h0[r.addr].kids[Field(KEY_PATH)];
      if kid.Leaf? && kid.atom.Text? && Parse(Trim(kid.atom.text)).Ok? {
        var parts := Parse(Trim(kid.atom.text)).value;
        if parts != [] && parts[0] in env {
          NavigateSame(h0, h, env, cells, env[parts[0]], parts[1..]);
        }
      }
    }
  }

  // ----- the end of the worklist -----

  /** JSON decoding makes maps and slices of any only. */
  ghost predicate Decoded(v: Value) {
    v.Node? ==> Walkable(v.kind) && forall k :: k in v.kids ==> Decoded(v.kids[k])
  }

  lemma {:induction false} RepresentsSame(h0: Store, h: Store, env: Env, cells: set<nat>, r: Ref, v: Value)
    requires VariableCells(h0, env, cells) && Within(r, cells) && Represents(h0, r, v)
    requires forall a :: a in cells ==> a in h && h[a] == h0[a]
    ensures Represents(h, r, v) && MarkerFree(v)
    decreases v
  {
    if v.Node? {
      assert v.kids.Keys == h0[r.addr].kids.Keys;
      forall k | k in v.kids ensures Represents(h, h[r.addr].kids[k], v.kids[k]) && MarkerFree(v.kids[k]) {
        assert k in h0[r.addr].kids.Keys;
        RepresentsSame(h0, h, env, cells, h0[r.addr].kids[k], v.kids[k]);
      }
      assert Field(KEY_PATH) in v.kids.Keys <==> Field(KEY_PATH) in h0[r.addr].kids.Keys;
    }
  }

  /** With an empty worklist, whatever has been settled represents the substitution. */
  lemma {:induction false} SettledRepresents(h0: Store, h: Store, env: Env, vars: VarMap, allowErrors: bool,
      expanded: set<nat>, cells: set<nat>, r: Ref, now: Ref, v: Value)
    requires VariableCells(h0, env, cells) && EnvRepresents(h0, env, vars) && Represents(h0, r, v) && Decoded(v)
    requires Rewritten(h0, h, env, allowErrors, expanded, cells) && SlotsSeen(h0, h, env, allowErrors, expanded, [])
    requires Settled(h0, env, allowErrors, expanded, r, now)
    ensures Meaningful(vars, allowErrors, v)
    ensures Represents(h, now, Substitute(vars, allowErrors, v))
    decreases v
  {
    ReplaceMatches(h0, env, vars, allowErrors, r, v);
    if Marker(v) {
      ReplaceLeadsToVariables(h0, env, allowErrors, r, cells);
      RepresentsSame(h0, h, env, cells, now, Meaning(vars, allowErrors, v).value);
    } else if v.Node? {
      var a := r.addr;
      assert v.kids.Keys == h0[a].kids.Keys == h[a].kids.Keys;
      forall k | k in v.kids
        ensures Meaningful(vars, allowErrors, v.kids[k])
        ensures Represents(h, h[a].kids[k], Substitute(vars, allowErrors, v.kids[k]))
      {
        assert k in h0[a].kids.Keys && Slot(h0, a, k);
        SettledRepresents(h0, h, env, vars, allowErrors, expanded, cells, h0[a].kids[k], h[a].kids[k], v.kids[k]);
      }
    }
  }

  // ----- one round -----

  function Write(h: Store, a: nat, k: Key, val: Ref): Store
    requires Slot(h, a, k)
  {
    h[a := h[a].(kids := h[a].kids[k := val])]
  }

  lemma SlotsAfterWrite(h0: Store, h: Store, env: Env, allowErrors: bool, a: nat, k: Key, val: Ref, b: nat, j: Key)
    requires Slot(h0, a, k) && Slot(h, a, k) && Replace(h0, env, allowErrors, h0[a].kids[k]) == Ok(val)
    requires Slot(h0, b, j) && SlotRewritten(h0, h, env, allowErrors, b, j)
    ensures SlotRewritten(h0, Write(h, a, k, val), env, allowErrors, b, j)
  {
    hide Replace;
  }

  /** Writing to a cell of a variable writes what is there. */
  lemma WriteToVariable(h0: Store, h: Store, env: Env, allowErrors: bool, cells: set<nat>, a: nat, k: Key, val: Ref)
    requires VariableCells(h0, env, cells) && a in cells && Slot(h0, a, k) && Slot(h, a, k) && h[a] == h0[a]
    requires Replace(h0, env, allowErrors, h0[a].kids[k]) == Ok(val)
    ensures Write(h, a, k, val)[a] == h0[a]
  {
    VariableSlotIsFixed(h0, env, allowErrors, cells, a, k);
    hide Replace, VariableCells;
    assert h[a].kids[k := val] == h0[a].kids;
  }

  lemma WriteRewrites(h0: Store, h: Store, env: Env, allowErrors: bool, expanded: set<nat>, cells: set<nat>,
      a: nat, k: Key, val: Ref)
    requires VariableCells(h0, env, cells) && Rewritten(h0, h, env, allowErrors, expanded, cells)
    requires a in expanded && Slot(h0, a, k) && Slot(h, a, k) && Replace(h0, env, allowErrors, h0[a].kids[k]) == Ok(val)
    ensures Rewritten(h0, Write(h, a, k, val), env, allowErrors, expanded, cells)
  {
    hide Replace, VariableCells, SlotRewritten, MarkerCell;
    var h' := Write(h, a, k, val);
    if a in cells {
      WriteToVariable(h0, h, env, allowErrors, cells, a, k, val);
    }
    assert h'[a].kids.Keys == h[a].kids.Keys;
    forall b, j | Slot(h0, b, j) ensures SlotRewritten(h0, h', env, allowErrors, b, j) {
      SlotsAfterWrite(h0, h, env, allowErrors, a, k, val, b, j);
    }
  }

  lemma VariableSlotIsFixed(h0: Store, env: Env, allowErrors: bool, cells: set<nat>, a: nat, k: Key)
    requires VariableCells(h0, env, cells) && a in cells && Slot(h0, a, k)
    ensures Replace(h0, env, allowErrors, h0[a].kids[k]) == Ok(h0[a].kids[k])
  {
  }

  lemma ExpandKeepsRewritten(h0: Store, h: Store, env: Env, allowErrors: bool, expanded: set<nat>,
      cells: set<nat>, b: nat)
    requires Rewritten(h0, h, env, allowErrors, expanded, cells) && b in h0 && !MarkerCell(h0[b])
    ensures Rewritten(h0, h, env, allowErrors, expanded + {b}, cells)
  {
    hide Replace;
  }

  /** The slots of an expanded cell, as items: each slot at least once, with its current value. */
  ghost predicate Pushed(h0: Store, h: Store, b: nat, items: seq<Item>)
  {
    && (forall k :: Slot(h0, b, k) ==> OnStack(items, b, k))
    && (forall i :: 0 <= i < |items| ==> PushedItem(h0, h, b, items[i]))
  }

  ghost predicate PushedItem(h0: Store, h: Store, b: nat, item: Item) {
    item.parent.Some? && item.parent.value.0 == b && Slot(h0, b, item.parent.value.1)
    && Slot(h, b, item.parent.value.1) && item.val == h[b].kids[item.parent.value.1]
  }

  lemma PushedIsGood(h0: Store, h: Store, env: Env, allowErrors: bool, expanded: set<nat>, cells: set<nat>, root: Ref,
      b: nat, item: Item)
    requires VariableCells(h0, env, cells) && Rewritten(h0, h, env, allowErrors, expanded, cells)
    requires b in expanded && PushedItem(h0, h, b, item)
    ensures GoodItem(h0, env, allowErrors, expanded, root, item)
  {
    var k := item.parent.value.1;
    assert SlotRewritten(h0, h, env, allowErrors, b, k);
    if Replace(h0, env, allowErrors, h0[b].kids[k]).Ok? {
      ReplaceLeadsToVariables(h0, env, allowErrors, h0[b].kids[k], cells);
    }
    hide Replace;
  }

  lemma OnLongerStack(xs: seq<Item>, ys: seq<Item>, a: nat, k: Key)
    requires OnStack(xs, a, k) || OnStack(ys, a, k)
    ensures OnStack(xs + ys, a, k)
  {
    if i :| 0 <= i < |xs| && xs[i].parent == Some((a, k)) {
      assert (xs + ys)[i] == xs[i];
    } else {
      var j :| 0 <= j < |ys| && ys[j].parent == Some((a, k));
      assert (xs + ys)[|xs| + j] == ys[j];
    }
  }

  lemma PoppedFromStack(stack: seq<Item>, a: nat, k: Key)
    requires OnStack(stack, a, k)
    ensures stack[0].parent == Some((a, k)) || OnStack(stack[1..], a, k)
  {
    var i :| 0 <= i < |stack| && stack[i].parent == Some((a, k));
    if i > 0 {
      assert stack[1..][i - 1] == stack[i];
    }
  }

  /** What the worklist has not seen yet, after a round that replaced the first item by `val`. */
  lemma SlotSeenAfter(h0: Store, h: Store, h': Store, env: Env, allowErrors: bool, expanded: set<nat>,
      expanded': set<nat>, stack: seq<Item>, items: seq<Item>, val: Ref, a: nat, k: Key)
    requires SlotsSeen(h0, h, env, allowErrors, expanded, stack) && stack != [] && a in expanded && Slot(h0, a, k)
    requires expanded <= expanded' && Expanded(h0, expanded', val)
    requires stack[0].parent == Some((a, k)) ==>
      Slot(h', a, k) && h'[a].kids[k] == val && Replace(h0, env, allowErrors, h0[a].kids[k]) == Ok(val)
    requires stack[0].parent != Some((a, k)) && Slot(h, a, k) ==> Slot(h', a, k) && h'[a].kids[k] == h[a].kids[k]
    ensures OnStack(stack[1..] + items, a, k) ||
      (Slot(h', a, k) && Settled(h0, env, allowErrors, expanded', h0[a].kids[k], h'[a].kids[k]))
  {
    hide Replace;
    if stack[0].parent != Some((a, k)) && OnStack(stack, a, k) {
      PoppedFromStack(stack, a, k);
      OnLongerStack(stack[1..], items, a, k);
    }
  }

  // ----- termination -----

  /** The number of slots that the worklist visits below and including one slot. */
  ghost function Weight(vars: VarMap, allowErrors: bool, expand: bool, v: Value): nat
    decreases expand, v, 1, 0
  {
    if expand && Marker(v) then
      1 + (match Meaning(vars, allowErrors, v) case Err(_) => 0 case Ok(w) => Weight(vars, allowErrors, false, w))
    else if v.Node? then 1 + Weights(vars, allowErrors, expand, v, v.kids.Keys)
    else 1
  }

  ghost function Weights(vars: VarMap, allowErrors: bool, expand: bool, v: Value, ks: set<Key>): nat
    requires v.Node? && ks <= v.kids.Keys
    decreases expand, v, 0, |ks|
  {
    if ks == {} then 0
    else
      var k :| k in ks;
      Weight(vars, allowErrors, expand, v.kids[k]) + Weights(vars, allowErrors, expand, v, ks - {k})
  }

  lemma {:induction false} WeightsWithout(vars: VarMap, allowErrors: bool, expand: bool, v: Value, ks: set<Key>, k: Key)
    requires v.Node? && ks <= v.kids.Keys && k in ks
    ensures Weights(vars, allowErrors, expand, v, ks) ==
      Weight(vars, allowErrors, expand, v.kids[k]) + Weights(vars, allowErrors, expand, v, ks - {k})
    decreases |ks|
  {
    var j :| j in ks && Weights(vars, allowErrors, expand, v, ks) ==
      Weight(vars, allowErrors, expand, v.kids[j]) + Weights(vars, allowErrors, expand, v, ks - {j});
    if j != k {
      WeightsWithout(vars, allowErrors, expand, v, ks - {j}, k);
      WeightsWithout(vars, allowErrors, expand, v, ks - {k}, j);
      assert ks - {j} - {k} == ks - {k} - {j};
    }
  }

  lemma {:induction false} MarkerFreeWeight(vars: VarMap, allowErrors: bool, v: Value)
    requires MarkerFree(v)
    ensures Weight(vars, allowErrors, true, v) == Weight(vars, allowErrors, false, v)
    decreases v, 1, 0
  {
    if v.Node? {
      MarkerFreeWeights(vars, allowErrors, v, v.kids.Keys);
    }
  }

  lemma {:induction false} MarkerFreeWeights(vars: VarMap, allowErrors: bool, v: Value, ks: set<Key>)
    requires MarkerFree(v) && v.Node? && ks <= v.kids.Keys
    ensures Weights(vars, allowErrors, true, v, ks) == Weights(vars, allowErrors, false, v, ks)
    decreases v, 0, |ks|
  {
    if ks != {} {
      var k :| k in ks;
      WeightsWithout(vars, allowErrors, true, v, ks, k);
      WeightsWithout(vars, allowErrors, false, v, ks, k);
      MarkerFreeWeight(vars, allowErrors, v.kids[k]);
      MarkerFreeWeights(vars, allowErrors, v, ks - {k});
    }
  }

  ghost function TotalWeight(vars: VarMap, allowErrors: bool, trees: seq<Value>): nat {
    if trees == [] then 0
    else TotalWeight(vars, allowErrors, trees[..|trees| - 1]) + Weight(vars, allowErrors, true, trees[|trees| - 1])
  }

  lemma {:induction false} TotalOfConcat(vars: VarMap, allowErrors: bool, xs: seq<Value>, ys: seq<Value>)
    ensures TotalWeight(vars, allowErrors, xs + ys) ==
      TotalWeight(vars, allowErrors, xs) + TotalWeight(vars, allowErrors, ys)
  {
    if ys == [] {
      assert xs + ys == xs;
    } else {
      TotalOfConcat(vars, allowErrors, xs, ys[..|ys| - 1]);
      assert (xs + ys)[..|xs + ys| - 1] == xs + ys[..|ys| - 1];
    }
  }

  lemma TotalOfRest(vars: VarMap, allowErrors: bool, trees: seq<Value>)
    requires trees != []
    ensures TotalWeight(vars, allowErrors, trees) ==
      Weight(vars, allowErrors, true, trees[0]) + TotalWeight(vars, allowErrors, trees[1..])
  {
    assert trees == [trees[0]] + trees[1..];
    TotalOfConcat(vars, allowErrors, [trees[0]], trees[1..]);
    assert [trees[0]][..0] == [];
  }

  // ----- the values on the worklist -----

  /** What is left of `v` once it has been replaced, if it is a marker. */
  ghost function Meant(vars: VarMap, allowErrors: bool, v: Value): Value {
    if Marker(v) && Meaning(vars, allowErrors, v).Ok? then Meaning(vars, allowErrors, v).value else v
  }

  /** Every item represents its tree, and fails only as `v0` does. */
  ghost predicate Trees(h0: Store, vars: VarMap, allowErrors: bool, v0: Value, stack: seq<Item>, trees: seq<Value>) {
    && |trees| == |stack|
    && forall i :: 0 <= i < |stack| ==> Tree(h0, vars, allowErrors, v0, stack[i], trees[i])
  }

  ghost predicate Tree(h0: Store, vars: VarMap, allowErrors: bool, v0: Value, item: Item, tree: Value) {
    && Represents(h0, item.val, tree)
    && forall e :: FailsWith(vars, allowErrors, tree, e) ==> FailsWith(vars, allowErrors, v0, e)
  }

  /** The replaced value represents the meaning, is no marker, and is lighter than a marker. */
  lemma MeantIsLighter(h0: Store, env: Env, vars: VarMap, allowErrors: bool, cells: set<nat>, r: Ref, v: Value)
    requires VariableCells(h0, env, cells) && EnvRepresents(h0, env, vars) && Represents(h0, r, v)
    requires Replace(h0, env, allowErrors, r).Ok?
    ensures Represents(h0, Replace(h0, env, allowErrors, r).value, Meant(vars, allowErrors, v))
    ensures !Marker(Meant(vars, allowErrors, v))
    ensures Weight(vars, allowErrors, true, Meant(vars, allowErrors, v)) <= Weight(vars, allowErrors, true, v)
    ensures forall e :: FailsWith(vars, allowErrors, Meant(vars, allowErrors, v), e) ==>
      FailsWith(vars, allowErrors, v, e)
  {
    ReplaceMatches(h0, env, vars, allowErrors, r, v);
    if Marker(v) {
      var w := Meaning(vars, allowErrors, v).value;
      ReplaceLeadsToVariables(h0, env, allowErrors, r, cells);
      RepresentsSame(h0, h0, env, cells, Replace(h0, env, allowErrors, r).value, w);
      MarkerFreeWeight(vars, allowErrors, w);
      MarkerFreeIsFixed(vars, allowErrors, w);
      forall e ensures !FailsWith(vars, allowErrors, w, e) {
        if FailsWith(vars, allowErrors, w, e) {
          FailureIsMeaningless(vars, allowErrors, w, e);
        }
      }
    }
  }

  lemma KidFails(vars: VarMap, allowErrors: bool, v: Value, k: Key, e: GoError)
    requires v.Node? && Walkable(v.kind) && !Marker(v) && k in v.kids && FailsWith(vars, allowErrors, v.kids[k], e)
    ensures FailsWith(vars, allowErrors, v, e)
  {
  }

  /** The current value of a slot represents the tree of the slot, replaced or not. */
  lemma SlotTree(h0: Store, h: Store, env: Env, vars: VarMap, allowErrors: bool, expanded: set<nat>, cells: set<nat>,
      b: nat, t: Value, k: Key) returns (tree: Value)
    requires VariableCells(h0, env, cells) && EnvRepresents(h0, env, vars)
    requires Rewritten(h0, h, env, allowErrors, expanded, cells)
    requires Represents(h0, Addr(b), t) && !Marker(t) && Walkable(t.kind) && Slot(h0, b, k)
    ensures Slot(h, b, k) && Represents(h0, h[b].kids[k], tree)
    ensures k in t.kids && Weight(vars, allowErrors, true, tree) <= Weight(vars, allowErrors, true, t.kids[k])
    ensures forall e :: FailsWith(vars, allowErrors, tree, e) ==> FailsWith(vars, allowErrors, t, e)
  {
    assert k in h0[b].kids.Keys && h0[b].kids.Keys == t.kids.Keys;
    assert SlotRewritten(h0, h, env, allowErrors, b, k);
    if h[b].kids[k] == h0[b].kids[k] {
      tree := t.kids[k];
    } else {
      tree := Meant(vars, allowErrors, t.kids[k]);
      MeantIsLighter(h0, env, vars, allowErrors, cells, h0[b].kids[k], t.kids[k]);
    }
    forall e | FailsWith(vars, allowErrors, tree, e) ensures FailsWith(vars, allowErrors, t, e) {
      KidFails(vars, allowErrors, t, k, e);
    }
  }

  // ----- the worklist -----

  lemma TreesAppend(h0: Store, vars: VarMap, allowErrors: bool, v0: Value, xs: seq<Item>, ts: seq<Value>,
      ys: seq<Item>, us: seq<Value>)
    requires Trees(h0, vars, allowErrors, v0, xs, ts) && Trees(h0, vars, allowErrors, v0, ys, us)
    ensures Trees(h0, vars, allowErrors, v0, xs + ys, ts + us)
  {
    hide Tree;
  }

  lemma TreesOfSub(h0: Store, vars: VarMap, allowErrors: bool, v0: Value, t: Value, items: seq<Item>, trees: seq<Value>)
    requires Trees(h0, vars, allowErrors, t, items, trees)
    requires forall e :: FailsWith(vars, allowErrors, t, e) ==> FailsWith(vars, allowErrors, v0, e)
    ensures Trees(h0, vars, allowErrors, v0, items, trees)
  {
    hide FailsWith;
    forall i | 0 <= i < |items| ensures Tree(h0, vars, allowErrors, v0, items[i], trees[i]) {
      assert Tree(h0, vars, allowErrors, t, items[i], trees[i]);
    }
  }

  /** The slots of `b` outside `todo` have been listed. */
  ghost predicate Pushing(h0: Store, h: Store, b: nat, items: seq<Item>, todo: set<Key>) {
    && (forall j :: Slot(h0, b, j) ==> j in todo || OnStack(items, b, j))
    && (forall i :: 0 <= i < |items| ==> PushedItem(h0, h, b, items[i]))
  }

  lemma PushedOne(h0: Store, h: Store, b: nat, items: seq<Item>, k: Key, todo: set<Key>)
    requires Slot(h0, b, k) && Slot(h, b, k) && Pushing(h0, h, b, items, todo)
    ensures Pushing(h0, h, b, items + [Item(h[b].kids[k], Some((b, k)))], todo - {k})
  {
    var item := Item(h[b].kids[k], Some((b, k)));
    var longer := items + [item];
    assert longer[|items|] == item;
    assert OnStack(longer, b, k);
    forall j | Slot(h0, b, j) && j !in todo - {k} ensures OnStack(longer, b, j) {
      if j != k {
        OnLongerStack(items, [item], b, j);
      }
    }
  }

  lemma PushedWeight(vars: VarMap, allowErrors: bool, t: Value, todo: set<Key>, k: Key, trees: seq<Value>, tree: Value)
    requires t.Node? && todo <= t.kids.Keys && k in todo
    requires Weight(vars, allowErrors, true, tree) <= Weight(vars, allowErrors, true, t.kids[k])
    ensures TotalWeight(vars, allowErrors, trees + [tree]) + Weights(vars, allowErrors, true, t, todo - {k})
      <= TotalWeight(vars, allowErrors, trees) + Weights(vars, allowErrors, true, t, todo)
  {
    hide Weight;
    WeightsWithout(vars, allowErrors, true, t, todo, k);
    assert (trees + [tree])[..|trees|] == trees;
  }

  lemma PushedTree(h0: Store, vars: VarMap, allowErrors: bool, v0: Value, items: seq<Item>, trees: seq<Value>,
      item: Item, tree: Value)
    requires Trees(h0, vars, allowErrors, v0, items, trees) && Represents(h0, item.val, tree)
    requires forall e :: FailsWith(vars, allowErrors, tree, e) ==> FailsWith(vars, allowErrors, v0, e)
    ensures Trees(h0, vars, allowErrors, v0, items + [item], trees + [tree])
  {
    hide FailsWith, Represents;
    assert Tree(h0, vars, allowErrors, v0, item, tree);
  }

  /** The items of the slots of `b`, each once. */
  ghost predicate Lists(h: Store, b: nat, items: seq<Item>) {
    b in h && Pushed(h, h, b, items) && |items| == |h[b].kids|
  }

  lemma PushedAreListed(h0: Store, h: Store, b: nat, items: seq<Item>)
    requires b in h0 && b in h && h0[b].kids.Keys == h[b].kids.Keys
    requires Pushing(h0, h, b, items, {}) && |items| == |h[b].kids.Keys|
    ensures Pushed(h0, h, b, items) && Lists(h, b, items)
  {
    assert forall k :: Slot(h, b, k) <==> k in h[b].kids.Keys;
    assert forall k :: Slot(h0, b, k) <==> k in h0[b].kids.Keys;
    hide Slot;
  }

  lemma KeysAgree(h0: Store, h: Store, env: Env, vars: VarMap, allowErrors: bool, expanded: set<nat>, cells: set<nat>,
      b: nat, t: Value)
    requires Rewritten(h0, h, env, allowErrors, expanded, cells) && Represents(h0, Addr(b), t) && !Marker(t)
    ensures b in h0 && b in h && t.Node? && t.kids.Keys == h0[b].kids.Keys == h[b].kids.Keys
    ensures forall k :: k in t.kids.Keys <==> Slot(h0, b, k) && Slot(h, b, k)
    ensures Pushing(h0, h, b, [], t.kids.Keys) && Trees(h0, vars, allowErrors, t, [], [])
    ensures Weight(vars, allowErrors, true, t) == 1 + Weights(vars, allowErrors, true, t, t.kids.Keys)
    ensures Weights(vars, allowErrors, true, t, {}) == TotalWeight(vars, allowErrors, []) == 0
  {
    assert forall k :: Slot(h, b, k) <==> k in h[b].kids.Keys;
    assert forall k :: Slot(h0, b, k) <==> k in h0[b].kids.Keys;
    hide SlotRewritten;
  }

  /** The slots of map or slice `b` as items; the keys of a map may come in any order. */
  method PushKids(h: Store, b: nat, allowErrors: bool, ghost h0: Store, ghost env: Env, ghost vars: VarMap,
      ghost expanded: set<nat>, ghost cells: set<nat>, ghost t: Value)
      returns (items: seq<Item>, ghost trees: seq<Value>)
    requires VariableCells(h0, env, cells) && EnvRepresents(h0, env, vars)
    requires Rewritten(h0, h, env, allowErrors, expanded, cells)
    requires b in h && Represents(h0, Addr(b), t) && !Marker(t) && Walkable(t.kind)
    ensures Pushed(h0, h, b, items) && Lists(h, b, items) && Trees(h0, vars, allowErrors, t, items, trees)
    ensures TotalWeight(vars, allowErrors, trees) < Weight(vars, allowErrors, true, t)
  {
    hide Rewritten, Represents, VariableCells, EnvRepresents, FailsWith, Pushing, Pushed, Lists, Slot, Weight, Trees,
      Weights, TotalWeight;
    KeysAgree(h0, h, env, vars, allowErrors, expanded, cells, b, t);
    items, trees := [], [];
    var todo := h[b].kids.Keys;
    while todo != {}
      invariant todo <= h[b].kids.Keys && |items| + |todo| == |h[b].kids.Keys|
      invariant Pushing(h0, h, b, items, todo) && Trees(h0, vars, allowErrors, t, items, trees)
      invariant TotalWeight(vars, allowErrors, trees) + Weights(vars, allowErrors, true, t, todo)
        <= Weights(vars, allowErrors, true, t, t.kids.Keys)
      decreases |todo|
    {
      var k :| k in todo;
      assert k in t.kids.Keys;
      ghost var tree := SlotTree(h0, h, env, vars, allowErrors, expanded, cells, b, t, k);
      var item := Item(h[b].kids[k], Some((b, k)));
      PushedOne(h0, h, b, items, k, todo);
      PushedTree(h0, vars, allowErrors, t, items, trees, item, tree);
      PushedWeight(vars, allowErrors, t, todo, k, trees, tree);
      items := items + [item];
      trees := trees + [tree];
      todo := todo - {k};
    }
    PushedAreListed(h0, h, b, items);
  }

  ghost predicate RootSeen(h0: Store, env: Env, allowErrors: bool, expanded: set<nat>, root: Ref, stack: seq<Item>) {
    || (exists i :: 0 <= i < |stack| && stack[i].parent.None?)
    || (Replace(h0, env, allowErrors, root).Ok? && Expanded(h0, expanded, Replace(h0, env, allowErrors, root).value))
  }

  ghost predicate GoodItems(h0: Store, env: Env, allowErrors: bool, expanded: set<nat>, root: Ref, stack: seq<Item>) {
    forall i :: 0 <= i < |stack| ==> GoodItem(h0, env, allowErrors, expanded, root, stack[i])
  }

  /** The store after the first item has been replaced by `val`. */
  function Written(h: Store, item: Item, val: Ref): Store
    requires item.parent.Some? ==> Slot(h, item.parent.value.0, item.parent.value.1)
  {
    match item.parent
    case None => h
    case Some((a, k)) => Write(h, a, k, val)
  }

  function ExpandedBy(h0: Store, expanded: set<nat>, val: Ref): set<nat> {
    if CellOf(h0, val).Some? && Walkable(CellOf(h0, val).value.kind) then expanded + {val.addr} else expanded
  }

  lemma ItemSlot(h0: Store, h: Store, env: Env, allowErrors: bool, expanded: set<nat>, cells: set<nat>, root: Ref,
      item: Item)
    requires Rewritten(h0, h, env, allowErrors, expanded, cells) && GoodItem(h0, env, allowErrors, expanded, root, item)
    ensures item.parent.Some? ==> Slot(h, item.parent.value.0, item.parent.value.1)
  {
    if item.parent.Some? {
      assert SlotRewritten(h0, h, env, allowErrors, item.parent.value.0, item.parent.value.1);
    }
  }

  lemma RoundRewrites(h0: Store, h: Store, env: Env, allowErrors: bool, expanded: set<nat>, cells: set<nat>, root: Ref,
      item: Item, val: Ref)
    requires VariableCells(h0, env, cells) && Rewritten(h0, h, env, allowErrors, expanded, cells)
    requires GoodItem(h0, env, allowErrors, expanded, root, item) && Replace(h0, env, allowErrors, item.val) == Ok(val)
    requires item.parent.Some? ==> Slot(h, item.parent.value.0, item.parent.value.1)
    ensures Rewritten(h0, Written(h, item, val), env, allowErrors, ExpandedBy(h0, expanded, val), cells)
  {
    hide Rewritten;
    if item.parent.Some? {
      WriteRewrites(h0, h, env, allowErrors, expanded, cells, item.parent.value.0, item.parent.value.1, val);
    }
    ReplaceLeadsToVariables(h0, env, allowErrors, item.val, cells);
    if CellOf(h0, val).Some? {
      ExpandKeepsRewritten(h0, Written(h, item, val), env, allowErrors, expanded, cells, val.addr);
    }
  }

  lemma RoundSees(h0: Store, h: Store, env: Env, allowErrors: bool, expanded: set<nat>, cells: set<nat>, root: Ref,
      stack: seq<Item>, items: seq<Item>, val: Ref)
    requires SlotsSeen(h0, h, env, allowErrors, expanded, stack) && stack != []
    requires GoodItem(h0, env, allowErrors, expanded, root, stack[0])
    requires Replace(h0, env, allowErrors, stack[0].val) == Ok(val)
    requires stack[0].parent.Some? ==> Slot(h, stack[0].parent.value.0, stack[0].parent.value.1)
    requires ExpandedBy(h0, expanded, val) != expanded ==>
      forall k :: Slot(h0, val.addr, k) ==> OnStack(items, val.addr, k)
    ensures SlotsSeen(h0, Written(h, stack[0], val), env, allowErrors, ExpandedBy(h0, expanded, val),
      stack[1..] + items)
  {
    hide Replace, Settled, OnStack;
    var h', expanded' := Written(h, stack[0], val), ExpandedBy(h0, expanded, val);
    forall a, k | a in expanded' && Slot(h0, a, k)
      ensures OnStack(stack[1..] + items, a, k) ||
        (Slot(h', a, k) && Settled(h0, env, allowErrors, expanded', h0[a].kids[k], h'[a].kids[k]))
    {
      if a in expanded {
        SlotSeenAfter(h0, h, h', env, allowErrors, expanded, expanded', stack, items, val, a, k);
      } else {
        OnLongerStack(stack[1..], items, a, k);
      }
    }
  }

  lemma RoundItems(h0: Store, h': Store, env: Env, allowErrors: bool, expanded: set<nat>, expanded': set<nat>,
      cells: set<nat>, root: Ref, stack: seq<Item>, items: seq<Item>, b: nat)
    requires VariableCells(h0, env, cells) && Rewritten(h0, h', env, allowErrors, expanded', cells) &&
      expanded <= expanded'
    requires GoodItems(h0, env, allowErrors, expanded, root, stack)
    requires items != [] ==> b in expanded' && forall i :: 0 <= i < |items| ==> PushedItem(h0, h', b, items[i])
    ensures GoodItems(h0, env, allowErrors, expanded', root, stack + items)
  {
    hide Replace, Rewritten, VariableCells, PushedItem;
    forall i | 0 <= i < |items| ensures GoodItem(h0, env, allowErrors, expanded', root, items[i]) {
      PushedIsGood(h0, h', env, allowErrors, expanded', cells, root, b, items[i]);
    }
  }

  lemma RoundRoot(h0: Store, env: Env, allowErrors: bool, expanded: set<nat>, root: Ref, stack: seq<Item>,
      items: seq<Item>, val: Ref)
    requires RootSeen(h0, env, allowErrors, expanded, root, stack) && stack != []
    requires GoodItem(h0, env, allowErrors, expanded, root, stack[0]) &&
      Replace(h0, env, allowErrors, stack[0].val) == Ok(val)
    ensures RootSeen(h0, env, allowErrors, ExpandedBy(h0, expanded, val), root, stack[1..] + items)
  {
    hide Replace;
    if i :| 1 <= i < |stack| && stack[i].parent.None? {
      assert (stack[1..] + items)[i - 1] == stack[i];
    }
  }

  /** One call: the store before it, the variables and where they live, and the decoded JSON. */
  datatype Job = Job(
    h0: Store, env: Env, vars: VarMap, allowErrors: bool, cells: set<nat>, root: Ref, v0: Value)
  {
    ghost predicate Valid() {
      VariableCells(h0, env, cells) && EnvRepresents(h0, env, vars) && Represents(h0, root, v0) && Decoded(v0)
    }

    /** What every round of the worklist keeps. */
    ghost predicate Working(h: Store, expanded: set<nat>, stack: seq<Item>, trees: seq<Value>) {
      && Rewritten(h0, h, env, allowErrors, expanded, cells)
      && SlotsSeen(h0, h, env, allowErrors, expanded, stack)
      && RootSeen(h0, env, allowErrors, expanded, root, stack)
      && GoodItems(h0, env, allowErrors, expanded, root, stack)
      && Trees(h0, vars, allowErrors, v0, stack, trees)
    }

    ghost function Left(trees: seq<Value>): nat {
      TotalWeight(vars, allowErrors, trees)
    }

    lemma StartsWorking()
      requires Valid()
      ensures Working(h0, {}, [Item(root, None)], [v0])
    {
      var stack := [Item(root, None)];
      assert stack[0].parent.None?;
      hide Replace, Represents, FailsWith;
      assert Tree(h0, vars, allowErrors, v0, stack[0], v0);
    }

    lemma FirstItem(h: Store, expanded: set<nat>, stack: seq<Item>, trees: seq<Value>)
      requires Valid() && Working(h, expanded, stack, trees) && stack != []
      ensures Replace(h, env, allowErrors, stack[0].val) == Replace(h0, env, allowErrors, stack[0].val)
      ensures trees != [] && Tree(h0, vars, allowErrors, v0, stack[0], trees[0])
      ensures stack[0].parent.Some? ==> Slot(h, stack[0].parent.value.0, stack[0].parent.value.1)
    {
      hide Replace, Tree;
      ReplaceSame(h0, h, env, allowErrors, expanded, cells, stack[0].val);
      ItemSlot(h0, h, env, allowErrors, expanded, cells, root, stack[0]);
    }

    /** Nothing is written but what a replaced slot should hold. */
    lemma Writes(h: Store, expanded: set<nat>, stack: seq<Item>, trees: seq<Value>, val: Ref)
      requires Valid() && Working(h, expanded, stack, trees) && stack != []
      requires Replace(h0, env, allowErrors, stack[0].val) == Ok(val)
      requires stack[0].parent.Some? ==> Slot(h, stack[0].parent.value.0, stack[0].parent.value.1)
      ensures Rewritten(h0, Written(h, stack[0], val), env, allowErrors, ExpandedBy(h0, expanded, val), cells)
      ensures CellOf(Written(h, stack[0], val), val).Some? <==> CellOf(h0, val).Some?
      ensures CellOf(h0, val).Some? ==> CellOf(Written(h, stack[0], val), val).value.kind == CellOf(h0, val).value.kind
    {
      hide Replace, Rewritten, VariableCells, EnvRepresents, Represents;
      RoundRewrites(h0, h, env, allowErrors, expanded, cells, root, stack[0], val);
      SameShape(h0, Written(h, stack[0], val), env, allowErrors, ExpandedBy(h0, expanded, val), cells, val);
    }

    lemma KeepsWorking(h: Store, expanded: set<nat>, stack: seq<Item>, trees: seq<Value>, val: Ref,
        items: seq<Item>, kidTrees: seq<Value>, b: nat)
      requires Valid() && Working(h, expanded, stack, trees) && stack != [] && trees != []
      requires Replace(h0, env, allowErrors, stack[0].val) == Ok(val)
      requires stack[0].parent.Some? ==> Slot(h, stack[0].parent.value.0, stack[0].parent.value.1)
      requires Rewritten(h0, Written(h, stack[0], val), env, allowErrors, ExpandedBy(h0, expanded, val), cells)
      requires ExpandedBy(h0, expanded, val) != expanded ==>
        b == val.addr && Pushed(h0, Written(h, stack[0], val), b, items)
      requires items != [] ==> b in ExpandedBy(h0, expanded, val) && Pushed(h0, Written(h, stack[0], val), b, items)
      requires Trees(h0, vars, allowErrors, v0, items, kidTrees)
      ensures Working(Written(h, stack[0], val), ExpandedBy(h0, expanded, val), stack[1..] + items,
        trees[1..] + kidTrees)
    {
      hide Replace, Rewritten, VariableCells, EnvRepresents, Represents, SlotsSeen, RootSeen, Trees, Written,
        PushedItem;
      var h', expanded' := Written(h, stack[0], val), ExpandedBy(h0, expanded, val);
      RoundSees(h0, h, env, allowErrors, expanded, cells, root, stack, items, val);
      RoundRoot(h0, env, allowErrors, expanded, root, stack, items, val);
      RestIsGood(h0, env, vars, allowErrors, expanded, root, v0, stack, trees);
      RoundItems(h0, h', env, allowErrors, expanded, expanded', cells, root, stack[1..], items, b);
      TreesAppend(h0, vars, allowErrors, v0, stack[1..], trees[1..], items, kidTrees);
    }

    lemma GetsLighter(trees: seq<Value>, kidTrees: seq<Value>)
      requires trees != [] && Left(kidTrees) < Weight(vars, allowErrors, true, trees[0])
      ensures Left(trees[1..] + kidTrees) < Left(trees)
    {
      TotalOfRest(vars, allowErrors, trees);
      TotalOfConcat(vars, allowErrors, trees[1..], kidTrees);
    }

    /** What an empty worklist leaves. */
    lemma WorkDone(h: Store, expanded: set<nat>, trees: seq<Value>)
      requires Valid() && Working(h, expanded, [], trees)
      ensures Meaningful(vars, allowErrors, v0)
      ensures Represents(h, root, Substitute(vars, allowErrors, v0)) <==> !Marker(v0)
    {
      var now := Replace(h0, env, allowErrors, root).value;
      SettledRepresents(h0, h, env, vars, allowErrors, expanded, cells, root, now, v0);
      ReplaceMatches(h0, env, vars, allowErrors, root, v0);
      if Marker(v0) {
        RootMarkerStays(h0, h, env, vars, allowErrors, expanded, cells, root, v0);
        ReplaceLeadsToVariables(h0, env, allowErrors, root, cells);
        RepresentsSame(h0, h, env, cells, now, Substitute(vars, allowErrors, v0));
        MarkerIsNoPlainValue(h, root, Substitute(vars, allowErrors, v0));
      }
    }
  }

  lemma MarkerIsNoPlainValue(h: Store, r: Ref, v: Value)
    requires IsMarkerRef(h, r) && !Marker(v)
    ensures !Represents(h, r, v)
  {
    assert Field(KEY_PATH) in h[r.addr].kids.Keys;
    assert v.Node? ==> (Field(KEY_PATH) in v.kids <==> Field(KEY_PATH) in v.kids.Keys);
  }

  // ----- one round of the loop -----

  /** The items of what is walked below `val`. */
  ghost predicate Listing(h: Store, val: Ref, items: seq<Item>) {
    if CellOf(h, val).Some? && Walkable(CellOf(h, val).value.kind) then Lists(h, val.addr, items) else items == []
  }

  /** One round of the worklist, which replaces the first value by `val` and lists its slots. */
  ghost predicate TurnWith(h: Store, env: Env, allowErrors: bool, stack: seq<Item>, val: Ref, items: seq<Item>,
      h': Store, stack': seq<Item>)
  {
    && stack != [] && Replace(h, env, allowErrors, stack[0].val) == Ok(val)
    && (stack[0].parent.Some? ==> Slot(h, stack[0].parent.value.0, stack[0].parent.value.1))
    && h' == Written(h, stack[0], val) && stack' == stack[1..] + items
    && Listing(h', val, items)
  }

  ghost predicate Turn(h: Store, env: Env, allowErrors: bool, stack: seq<Item>, h': Store, stack': seq<Item>) {
    exists val, items :: TurnWith(h, env, allowErrors, stack, val, items, h', stack')
  }

  /** The memory that maps and slices of JSON and of variables share. */
  class Memory {
    var store: Store

    constructor (store: Store)
      ensures this.store == store
    {
      this.store := store;
    }

    /** `mapGoValue` with the function of `JSONWithVarExprs`, on decoded JSON `root` that unfolds to
        `v0`. It always terminates, fails exactly if some marker has no meaning, and otherwise turns
        `root` in place into the substitution, unless `root` itself is a marker, which is returned
        as it is. No variable changes, although their maps and slices are shared. */
    method MapGoValue(root: Ref, env: Env, allowErrors: bool, ghost vars: VarMap, ghost v0: Value,
        ghost cells: set<nat>)
        returns (r: Outcome<Ref>)
      requires VariableCells(store, env, cells) && EnvRepresents(store, env, vars)
      requires Represents(store, root, v0) && Decoded(v0)
      modifies this
      ensures r.Ok? <==> Meaningful(vars, allowErrors, v0)
      ensures r.Err? ==> FailsWith(vars, allowErrors, v0, r.error)
      ensures r.Ok? ==> r.value == root
      ensures r.Ok? ==> (Represents(store, root, Substitute(vars, allowErrors, v0)) <==> !Marker(v0))
      ensures Marker(v0) ==> CellOf(store, root) == CellOf(old(store), root)
      ensures forall a :: a in cells ==> a in store && store[a] == old(store)[a]
      ensures EnvRepresents(store, env, vars)
    {
      ghost var job := Job(store, env, vars, allowErrors, cells, root, v0);
      ghost var expanded: set<nat>, trees := {}, [v0];
      var stack := [Item(root, None)];
      assert job.Valid();
      job.StartsWorking();
      hide VariableCells, EnvRepresents, Represents, FailsWith, Meaningful, Substitute, Replace, Job.Valid, Job.Working,
        Marker, CellOf;
      while stack != []
        invariant job.Working(store, expanded, stack, trees)
        decreases job.Left(trees)
      {
        job.FirstItem(store, expanded, stack, trees);
        var val := Replace(store, env, allowErrors, stack[0].val);
        if val.Err? {
          AtFailure(job, store, expanded, stack, trees, val.error);
          return Err(val.error);
        }
        var items;
        ghost var kidTrees;
        items, kidTrees, expanded := Round(stack[0], val.value, env, allowErrors, job, expanded, stack, trees);
        job.GetsLighter(trees, kidTrees);
        stack := stack[1..] + items;
        trees := trees[1..] + kidTrees;
      }
      job.WorkDone(store, expanded, trees);
      AfterWork(job, store, expanded, stack, trees);
      r := Ok(root);
    }

    /** Puts `val` in the slot of the first item, and lists its own slots. */
    method Round(current: Item, val: Ref, env: Env, allowErrors: bool, ghost job: Job, ghost expanded: set<nat>,
        ghost stack: seq<Item>, ghost trees: seq<Value>)
        returns (items: seq<Item>, ghost kidTrees: seq<Value>, ghost expanded': set<nat>)
      requires job.Valid() && job.env == env && job.allowErrors == allowErrors &&
        job.Working(store, expanded, stack, trees)
      requires stack != [] && trees != [] && current == stack[0]
      requires Replace(store, env, allowErrors, current.val) == Ok(val)
      requires Replace(job.h0, env, allowErrors, current.val) == Ok(val)
      requires Tree(job.h0, job.vars, allowErrors, job.v0, current, trees[0])
      requires current.parent.Some? ==> Slot(store, current.parent.value.0, current.parent.value.1)
      modifies this
      ensures job.Working(store, expanded', stack[1..] + items, trees[1..] + kidTrees)
      ensures job.Left(kidTrees) < Weight(job.vars, allowErrors, true, trees[0])
      ensures Turn(old(store), env, allowErrors, stack, store, stack[1..] + items)
    {
      hide FailsWith, Represents, Rewritten, VariableCells, EnvRepresents, Replace, Weight, Meant, Job.Working, Marker,
        Decoded, Pushed, Slot;
      ghost var h0, t, before := job.h0, Meant(job.vars, allowErrors, trees[0]), store;
      expanded' := ExpandedBy(h0, expanded, val);
      MeantIsLighter(h0, env, job.vars, allowErrors, job.cells, current.val, trees[0]);
      job.Writes(store, expanded, stack, trees, val);
      assert forall e :: FailsWith(job.vars, allowErrors, t, e) ==> FailsWith(job.vars, allowErrors, job.v0, e);
      WeightIsPositive(job.vars, allowErrors, t);
      if current.parent.Some? {
        store := Write(store, current.parent.value.0, current.parent.value.1, val);
      }
      items, kidTrees := [], [];
      if CellOf(store, val).Some? && Walkable(CellOf(store, val).value.kind) {
        MeantShape(h0, val, t);
        items, kidTrees := PushKids(store, val.addr, allowErrors, h0, env, job.vars, expanded', job.cells, t);
      }
      TreesOfSub(h0, job.vars, allowErrors, job.v0, t, items, kidTrees);
      job.KeepsWorking(before, expanded, stack, trees, val, items, kidTrees, if val.Addr? then val.addr else 0);
      assert TurnWith(before, env, allowErrors, stack, val, items, store, stack[1..] + items);
    }
  }

  lemma AtFailure(job: Job, h: Store, expanded: set<nat>, stack: seq<Item>, trees: seq<Value>, e: GoError)
    requires job.Valid() && job.Working(h, expanded, stack, trees) && stack != [] && trees != []
    requires Tree(job.h0, job.vars, job.allowErrors, job.v0, stack[0], trees[0])
    requires Replace(job.h0, job.env, job.allowErrors, stack[0].val) == Err(e)
    ensures FailsWith(job.vars, job.allowErrors, job.v0, e) && !Meaningful(job.vars, job.allowErrors, job.v0)
    ensures Marker(job.v0) ==> CellOf(h, job.root) == CellOf(job.h0, job.root)
    ensures forall a :: a in job.cells ==> a in job.h0 && a in h && h[a] == job.h0[a]
    ensures EnvRepresents(h, job.env, job.vars)
  {
    FailureFound(job.h0, job.env, job.vars, job.allowErrors, stack[0], trees[0], job.v0, e);
    AfterWork(job, h, expanded, stack, trees);
  }

  lemma AfterWork(job: Job, h: Store, expanded: set<nat>, stack: seq<Item>, trees: seq<Value>)
    requires job.Valid() && job.Working(h, expanded, stack, trees)
    ensures Marker(job.v0) ==> CellOf(h, job.root) == CellOf(job.h0, job.root)
    ensures forall a :: a in job.cells ==> a in job.h0 && a in h && h[a] == job.h0[a]
    ensures EnvRepresents(h, job.env, job.vars)
  {
    VariablesUnchanged(job.h0, h, job.env, job.vars, job.allowErrors, expanded, job.cells);
    RootMarkerStays(job.h0, h, job.env, job.vars, job.allowErrors, expanded, job.cells, job.root, job.v0);
  }

  lemma FailureFound(h0: Store, env: Env, vars: VarMap, allowErrors: bool, item: Item, tree: Value, v0: Value,
      e: GoError)
    requires EnvRepresents(h0, env, vars)
    requires Tree(h0, vars, allowErrors, v0, item, tree) && Replace(h0, env, allowErrors, item.val) == Err(e)
    ensures FailsWith(vars, allowErrors, v0, e) && !Meaningful(vars, allowErrors, v0)
  {
    ReplaceMatches(h0, env, vars, allowErrors, item.val, tree);
    assert FailsWith(vars, allowErrors, tree, e);
    FailureIsMeaningless(vars, allowErrors, v0, e);
  }

  lemma VariablesUnchanged(h0: Store, h: Store, env: Env, vars: VarMap, allowErrors: bool, expanded: set<nat>,
      cells: set<nat>)
    requires VariableCells(h0, env, cells) && EnvRepresents(h0, env, vars)
    requires Rewritten(h0, h, env, allowErrors, expanded, cells)
    ensures forall a :: a in cells ==> a in h0 && a in h && h[a] == h0[a]
    ensures EnvRepresents(h, env, vars)
  {
    hide Represents;
    forall x | x in vars ensures Represents(h, env[x], vars[x]) {
      RepresentsSame(h0, h, env, cells, env[x], vars[x]);
    }
  }

  lemma RootMarkerStays(h0: Store, h: Store, env: Env, vars: VarMap, allowErrors: bool, expanded: set<nat>,
      cells: set<nat>, root: Ref, v0: Value)
    requires EnvRepresents(h0, env, vars) && Represents(h0, root, v0) &&
      Rewritten(h0, h, env, allowErrors, expanded, cells)
    ensures Marker(v0) ==> CellOf(h, root) == CellOf(h0, root) && IsMarkerRef(h, root)
  {
    ReplaceMatches(h0, env, vars, allowErrors, root, v0);
  }

  lemma SameShape(h0: Store, h: Store, env: Env, allowErrors: bool, expanded: set<nat>, cells: set<nat>, r: Ref)
    requires Rewritten(h0, h, env, allowErrors, expanded, cells)
    ensures CellOf(h, r).Some? <==> CellOf(h0, r).Some?
    ensures CellOf(h, r).Some? ==> CellOf(h, r).value.kind == CellOf(h0, r).value.kind
  {
  }

  lemma MeantShape(h0: Store, r: Ref, t: Value)
    requires Represents(h0, r, t) && CellOf(h0, r).Some?
    ensures t.Node? && t.kind == CellOf(h0, r).value.kind && r == Addr(r.addr)
  {
  }

  lemma RestIsGood(h0: Store, env: Env, vars: VarMap, allowErrors: bool, expanded: set<nat>, root: Ref, v0: Value,
      stack: seq<Item>, trees: seq<Value>)
    requires stack != [] && GoodItems(h0, env, allowErrors, expanded, root, stack)
    requires Trees(h0, vars, allowErrors, v0, stack, trees)
    ensures GoodItems(h0, env, allowErrors, expanded, root, stack[1..])
    ensures Trees(h0, vars, allowErrors, v0, stack[1..], trees[1..])
  {
    hide GoodItem, Tree;
  }

  lemma WeightIsPositive(vars: VarMap, allowErrors: bool, v: Value)
    ensures Weight(vars, allowErrors, true, v) > 0
  {
  }

  // ----- VarExpr -----

  function Dollars(s: string): nat {
    if s == "" then 0 else Dollars(s[..|s| - 1]) + (if s[|s| - 1] == '$' then 1 else 0)
  }

  /** The inside of `$(...)`, if the text is one variable expression. */
  function Inside(expr: string): Option<string> {
    var trimmed := Trim(expr);
    if |trimmed| < 3 then None
    else if Dollars(trimmed) == 1 && trimmed[..2] == "$(" && trimmed[|trimmed| - 1] == ')' then
      Some(trimmed[2..|trimmed| - 1])
    else None
  }

  /** `VarExpr`: a blank expression, or text that is none, is an empty parameter; so that another
      getter can be tried. */
  function VarExpr(expr: string, vars: VarMap): Outcome<Value> {
    match Inside(expr)
    case None => Err(ParameterEmpty)
    case Some(inside) =>
      if Trim(inside) == "" then Err(ParameterEmpty)
      else
        match Lookup(vars, Trim(inside))
        case Err(e) => Err(e)
        case Ok(v) => if v.Scalar? && v.atom.Failure? then Err(TooManyErrors) else Ok(v)
  }

  /** A variable expression reads only the variable that the graph builder links it to. */
  lemma VarExprReadsOneEntry(u: VarMap, v: VarMap, expr: string)
    requires Inside(expr).Some? ==> SameEntry(u, v, FirstSegment(Inside(expr).value))
    ensures VarExpr(expr, u) == VarExpr(expr, v)
  {
    if Inside(expr).Some? {
      var inside := Inside(expr).value;
      TrimFixpoint(inside);
      LookupReadsOneEntry(u, v, Trim(inside));
    }
  }

  lemma {:induction false} DollarsOfConcat(s: string, t: string)
    ensures Dollars(s + t) == Dollars(s) + Dollars(t)
  {
    if t == "" {
      assert s + t == s;
    } else {
      DollarsOfConcat(s, t[..|t| - 1]);
      assert (s + t)[..|s + t| - 1] == s + t[..|t| - 1];
    }
  }

  lemma {:induction false} NoDollars(s: string)
    ensures Dollars(s) == 0 <==> '$' !in s
  {
    if s != "" {
      NoDollars(s[..|s| - 1]);
      assert s == s[..|s| - 1] + [s[|s| - 1]];
    }
  }

  /** One expression in parentheses, with whitespace around. */
  ghost predicate ExpressionOf(text: string, before: string, s: string, after: string) {
    text == before + "$(" + s + ")" + after && AllSpace(before) && AllSpace(after) && '$' !in s
  }

  lemma InsideOfExpression(text: string, before: string, s: string, after: string)
    requires ExpressionOf(text, before, s, after)
    ensures Inside(text) == Some(s)
  {
    var whole := "$(" + s + ")";
    assert whole[0] == '$' && whole[|whole| - 1] == ')';
    TrimOfPadded(before, whole, after);
    assert text == before + whole + after;
    DollarsOfConcat("$(", s);
    DollarsOfConcat("$(" + s, ")");
    NoDollars(s);
    assert "$(" == "$" + "(" && "$"[..0] == "" && ")"[..0] == "" && "("[..0] == "";
    DollarsOfConcat("$", "(");
    assert whole[..2] == "$(" && whole[2..|whole| - 1] == s;
  }

  lemma ExpressionOfInside(text: string) returns (before: string, after: string)
    requires Inside(text).Some?
    ensures ExpressionOf(text, before, Inside(text).value, after)
  {
    before, after := TrimLeavesPadding(text);
    var whole, s := Trim(text), Inside(text).value;
    assert whole == "$(" + s + ")";
    DollarsOfConcat("$(", s);
    DollarsOfConcat("$(" + s, ")");
    assert "$(" == "$" + "(" && "$"[..0] == "";
    DollarsOfConcat("$", "(");
    NoDollars(s);
    assert text == before + "$(" + s + ")" + after;
  }

  lemma LookupTrims(vars: VarMap, s: string)
    ensures Lookup(vars, Trim(s)) == Lookup(vars, s)
  {
    TrimFixpoint(s);
  }

  /** An expression is what a lookup of its inside finds, except that an error that is found as a
      value is an error. */
  lemma VarExprIsLookup(vars: VarMap, text: string, before: string, s: string, after: string)
    requires ExpressionOf(text, before, s, after) && !AllSpace(s)
    ensures match Lookup(vars, s)
      case Err(e) => VarExpr(text, vars) == Err(e)
      case Ok(v) => if IsFailure(v) then VarExpr(text, vars) == Err(TooManyErrors) else VarExpr(text, vars) == Ok(v)
  {
    InsideOfExpression(text, before, s, after);
    LookupTrims(vars, s);
    if Trim(s) == "" {
      var a, b := TrimLeavesPadding(s);
    }
    hide Lookup, Inside, Trim;
  }

  /** Any other text is no parameter, so that another getter is tried. */
  lemma OtherTextIsEmpty(vars: VarMap, text: string)
    requires forall before, s, after :: ExpressionOf(text, before, s, after) ==> AllSpace(s)
    ensures VarExpr(text, vars) == Err(ParameterEmpty)
  {
    if Inside(text).Some? {
      var before, after := ExpressionOfInside(text);
      TrimOfSpace(Inside(text).value);
    }
  }
}
