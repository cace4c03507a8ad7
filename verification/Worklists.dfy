/** When the worklist of the JSON interpolation ends, also if variables hold markers. In the source a
    looked-up value is walked like any other, so a variable can lead back into itself. */
module Worklists {
  import opened Values
  import opened Keypaths
  import opened Variables
  import opened Ordering
  import opened Getters

  /** What one interpolation starts from: the memory, the variables and the flag. */
  datatype Interpolation = Interpolation(store: Store, env: Env, allowErrors: bool)

  /** What a reference stands for before anything is overwritten. */
  function Means(j: Interpolation, r: Ref): Outcome<Ref> {
    Replace(j.store, j.env, j.allowErrors, r)
  }

  /** The slots that are walked below `r`. */
  function Slots(h: Store, r: Ref): map<Key, Ref> {
    if CellOf(h, r).Some? && Walkable(CellOf(h, r).value.kind) then CellOf(h, r).value.kids else map[]
  }

  // ----- levels -----

  /** What the slots below `os` stand for. */
  function NextLevel(j: Interpolation, os: set<Outcome<Ref>>): set<Outcome<Ref>> {
    set o, k | o in os && o.Ok? && k in Slots(j.store, o.value) :: Means(j, Slots(j.store, o.value)[k])
  }

  /** What is found `n` slots below `r` when every marker is followed. */
  function Shown(j: Interpolation, r: Ref, n: nat): set<Outcome<Ref>> {
    if n == 0 then {Means(j, r)} else NextLevel(j, Shown(j, r, n - 1))
  }

  /** Some marker that is found below `r` has no meaning. */
  ghost predicate Undefined(j: Interpolation, r: Ref) {
    exists n: nat, e :: Err(e) in Shown(j, r, n)
  }

  /** Some map or slice that is found below `r` is found again below itself. */
  ghost predicate SelfContaining(j: Interpolation, r: Ref) {
    exists n: nat, a: nat, c: nat :: Returns(j, r, n, a, c)
  }

  ghost predicate Returns(j: Interpolation, r: Ref, n: nat, a: nat, c: nat) {
    c > 0 && Ok(Addr(a)) in Shown(j, r, n) && Ok(Addr(a)) in Shown(j, Addr(a), c)
  }

  // ----- lookups -----

  ghost predicate MeetsNoMarker(h: Store, r: Ref, parts: seq<string>)
    decreases parts
  {
    && !IsMarkerRef(h, r)
    && (parts != [] && StepRef(h, r, parts[0]).Ok? ==> MeetsNoMarker(h, StepRef(h, r, parts[0]).value, parts[1..]))
  }

  ghost predicate PlainLookup(h: Store, env: Env, keypath: string) {
    match Parse(Trim(keypath))
    case Err(_) => true
    case Ok(parts) => parts != [] && parts[0] in env ==> MeetsNoMarker(h, env[parts[0]], parts[1..])
  }

  /** No lookup of a marker passes through a marker, or ends at one. Otherwise what it finds depends
      on whether that marker has been overwritten yet, and so on the order of map keys. */
  ghost predicate PlainLookups(j: Interpolation) {
    forall a :: a in j.store && MarkerCell(j.store[a]) ==>
      match j.store[a].kids[Field(KEY_PATH)]
      case Leaf(Text(keypath)) => PlainLookup(j.store, j.env, keypath)
      case _ => true
  }

  lemma {:induction false} NavigateEndsPlain(h: Store, r: Ref, parts: seq<string>)
    requires MeetsNoMarker(h, r, parts) && NavigateRef(h, r, parts).Ok?
    ensures !IsMarkerRef(h, NavigateRef(h, r, parts).value)
    decreases parts
  {
    if parts != [] {
      NavigateEndsPlain(h, StepRef(h, r, parts[0]).value, parts[1..]);
    }
  }

  /** What a reference stands for is no marker. */
  lemma MeaningIsFinal(j: Interpolation, r: Ref)
    requires PlainLookups(j) && Means(j, r).Ok?
    ensures !IsMarkerRef(j.store, Means(j, r).value) && Means(j, Means(j, r).value) == Means(j, r)
  {
    if IsMarkerRef(j.store, r) {
      var keypath := j.store[r.addr].kids[Field(KEY_PATH)].atom.text;
      assert PlainLookup(j.store, j.env, keypath);
      var parts := Parse(Trim(keypath)).value;
      NavigateEndsPlain(j.store, j.env[parts[0]], parts[1..]);
    }
  }

  // ----- overwriting -----

  /** `h` is the store of the job with some slots replaced by what they stand for. */
  ghost predicate Evolved(j: Interpolation, h: Store) {
    && h.Keys == j.store.Keys
    && (forall a :: a in j.store ==> SameCell(j, h, a))
    && (forall a, k :: Slot(j.store, a, k) ==> SlotRewritten(j.store, h, j.env, j.allowErrors, a, k))
  }

  ghost predicate SameCell(j: Interpolation, h: Store, a: nat)
    requires a in j.store && a in h
  {
    && h[a].kind == j.store[a].kind && h[a].kids.Keys == j.store[a].kids.Keys
    && (MarkerCell(j.store[a]) ==> h[a] == j.store[a])
  }

  lemma StepSame(j: Interpolation, h: Store, r: Ref, part: string)
    requires Evolved(j, h)
    requires StepRef(j.store, r, part).Ok? ==> !IsMarkerRef(j.store, StepRef(j.store, r, part).value)
    ensures StepRef(h, r, part) == StepRef(j.store, r, part)
  {
    if CellOf(j.store, r).Some? {
      var a := r.addr;
      assert SameCell(j, h, a);
      assert forall k :: k in h[a].kids.Keys <==> k in j.store[a].kids.Keys;
      assert forall k :: Slot(j.store, a, k) ==> SlotRewritten(j.store, h, j.env, j.allowErrors, a, k);
      hide Evolved;
      if StepRef(j.store, r, part).Ok? {
        var k := if h[a].kind == GoMap then Field(part) else Index(ParseInt(part).value);
        assert Slot(j.store, a, k);
      }
    }
  }

  lemma {:induction false} NavigateStaysSame(j: Interpolation, h: Store, r: Ref, parts: seq<string>)
    requires Evolved(j, h) && MeetsNoMarker(j.store, r, parts)
    ensures NavigateRef(h, r, parts) == NavigateRef(j.store, r, parts)
    decreases parts
  {
    if parts != [] {
      hide Evolved, StepRef;
      StepSame(j, h, r, parts[0]);
      if StepRef(j.store, r, parts[0]).Ok? {
        NavigateStaysSame(j, h, StepRef(j.store, r, parts[0]).value, parts[1..]);
      }
    }
  }

  lemma SameMarkers(j: Interpolation, h: Store, r: Ref)
    requires Evolved(j, h)
    ensures IsMarkerRef(h, r) <==> IsMarkerRef(j.store, r)
    ensures IsMarkerRef(h, r) ==> CellOf(h, r) == CellOf(j.store, r)
  {
    if r.Addr? && r.addr in h {
      assert SameCell(j, h, r.addr);
      assert Field(KEY_PATH) in h[r.addr].kids.Keys <==> Field(KEY_PATH) in j.store[r.addr].kids.Keys;
    }
  }

  /** Overwriting slots does not change what a reference stands for. */
  lemma SameMeaning(j: Interpolation, h: Store, r: Ref)
    requires PlainLookups(j) && Evolved(j, h)
    ensures Replace(h, j.env, j.allowErrors, r) == Means(j, r)
  {
    SameMarkers(j, h, r);
    hide Evolved;
    if IsMarkerRef(j.store, r) {
      var kid := j.store[r.addr].kids[Field(KEY_PATH)];
      if kid.Leaf? && kid.atom.Text? && Parse(Trim(kid.atom.text)).Ok? {
        var parts := Parse(Trim(kid.atom.text)).value;
        assert PlainLookup(j.store, j.env, kid.atom.text);
        if parts != [] && parts[0] in j.env {
          NavigateStaysSame(j, h, j.env[parts[0]], parts[1..]);
        }
      }
    }
  }

  /** A slot stands for the same, overwritten or not. */
  lemma SlotMeans(j: Interpolation, h: Store, a: nat, k: Key)
    requires PlainLookups(j) && Evolved(j, h) && Slot(j.store, a, k)
    ensures Slot(h, a, k) && Means(j, h[a].kids[k]) == Means(j, j.store[a].kids[k])
  {
    assert SlotRewritten(j.store, h, j.env, j.allowErrors, a, k);
    hide Evolved, PlainLookups, Replace;
    if Means(j, j.store[a].kids[k]).Ok? {
      MeaningIsFinal(j, j.store[a].kids[k]);
    }
  }

  /** The slot an item came from, if any, is in no marker and stands for what the item does. */
  ghost predicate Placed(j: Interpolation, item: Item) {
    match item.parent
    case None => true
    case Some((a, k)) =>
      && Slot(j.store, a, k) && !MarkerCell(j.store[a])
      && Means(j, item.val) == Means(j, j.store[a].kids[k])
  }

  lemma WriteEvolves(j: Interpolation, h: Store, a: nat, k: Key, val: Ref)
    requires Evolved(j, h) && Slot(j.store, a, k) && !MarkerCell(j.store[a]) && Means(j, j.store[a].kids[k]) == Ok(val)
    ensures Slot(h, a, k) && Evolved(j, Write(h, a, k, val))
  {
    hide Replace, SlotRewritten, MarkerCell;
    assert SlotRewritten(j.store, h, j.env, j.allowErrors, a, k);
    SlotIsThere(j, h, a, k);
    var h' := Write(h, a, k, val);
    assert h'[a].kids.Keys == h[a].kids.Keys;
    forall b | b in j.store ensures SameCell(j, h', b) {
      assert SameCell(j, h, b);
    }
    forall b, i | Slot(j.store, b, i) ensures SlotRewritten(j.store, h', j.env, j.allowErrors, b, i) {
      SlotsAfterWrite(j.store, h, j.env, j.allowErrors, a, k, val, b, i);
    }
  }

  lemma SlotIsThere(j: Interpolation, h: Store, a: nat, k: Key)
    requires Slot(j.store, a, k) && SlotRewritten(j.store, h, j.env, j.allowErrors, a, k)
    ensures Slot(h, a, k)
  {
  }

  lemma ItemWriteEvolves(j: Interpolation, h: Store, item: Item, val: Ref)
    requires Evolved(j, h) && Placed(j, item) && Means(j, item.val) == Ok(val)
    ensures item.parent.Some? ==> Slot(h, item.parent.value.0, item.parent.value.1)
    ensures Evolved(j, Written(h, item, val))
  {
    hide Evolved, Replace;
    if item.parent.Some? {
      WriteEvolves(j, h, item.parent.value.0, item.parent.value.1, val);
    }
  }

  // ----- items -----

  ghost function Images(j: Interpolation, items: seq<Item>): set<Outcome<Ref>> {
    set i | 0 <= i < |items| :: Means(j, items[i].val)
  }

  ghost predicate AllPlaced(j: Interpolation, items: seq<Item>) {
    forall i :: 0 <= i < |items| ==> Placed(j, items[i])
  }

  lemma ImagesAppend(j: Interpolation, xs: seq<Item>, ys: seq<Item>)
    ensures Images(j, xs + ys) == Images(j, xs) + Images(j, ys)
  {
    hide Replace;
    forall i | 0 <= i < |ys| ensures Means(j, ys[i].val) in Images(j, xs + ys) {
      assert (xs + ys)[|xs| + i] == ys[i];
    }
    forall i | 0 <= i < |xs| ensures Means(j, xs[i].val) in Images(j, xs + ys) {
      assert (xs + ys)[i] == xs[i];
    }
  }

  lemma ImagesOfRest(j: Interpolation, items: seq<Item>)
    requires items != []
    ensures Images(j, items) == {Means(j, items[0].val)} + Images(j, items[1..])
  {
    ImagesAppend(j, [items[0]], items[1..]);
    assert items == [items[0]] + items[1..];
  }

  lemma NextLevelOfUnion(j: Interpolation, xs: set<Outcome<Ref>>, ys: set<Outcome<Ref>>)
    ensures NextLevel(j, xs + ys) == NextLevel(j, xs) + NextLevel(j, ys)
  {
    hide Slots, Replace;
  }

  /** The items that a round adds are placed, and stand for what is below the value it found. */
  lemma ListedItems(j: Interpolation, h: Store, val: Ref, items: seq<Item>)
    requires PlainLookups(j) && Evolved(j, h) && !IsMarkerRef(j.store, val)
    requires Listing(h, val, items)
    ensures AllPlaced(j, items) && Images(j, items) == NextLevel(j, {Ok(val)})
    ensures |items| == |Slots(j.store, val)|
  {
    hide PlainLookups, Evolved, Placed, Replace, Slots, Lists, Means, IsMarkerRef;
    SameSlots(j, h, val);
    CountListed(j, h, val, items);
    if Slots(h, val) != map[] {
      forall i | 0 <= i < |items|
        ensures Placed(j, items[i]) && Means(j, items[i].val) in NextLevel(j, {Ok(val)})
      {
        ListedItem(j, h, val, items, i);
      }
      forall k | k in Slots(j.store, val) ensures Means(j, Slots(j.store, val)[k]) in Images(j, items) {
        ListedSlot(j, h, val, items, k);
      }
    } else {
      assert Slots(j.store, val).Keys == {};
    }
  }

  lemma CountListed(j: Interpolation, h: Store, val: Ref, items: seq<Item>)
    requires Slots(h, val).Keys == Slots(j.store, val).Keys && Listing(h, val, items)
    ensures |items| == |Slots(j.store, val)|
    ensures Slots(h, val) != map[] ==> Lists(h, val.addr, items)
  {
    hide Pushed;
    assert |Slots(h, val).Keys| == |Slots(h, val)|;
    assert |Slots(j.store, val).Keys| == |Slots(j.store, val)|;
  }

  lemma SameSlots(j: Interpolation, h: Store, val: Ref)
    requires Evolved(j, h)
    ensures Slots(h, val).Keys == Slots(j.store, val).Keys
    ensures Slots(h, val) != map[] ==>
      && val.Addr? && val.addr in h && val.addr in j.store
      && Slots(h, val) == h[val.addr].kids && Slots(j.store, val) == j.store[val.addr].kids
  {
    if CellOf(h, val).Some? {
      assert SameCell(j, h, val.addr);
    }
    assert Slots(h, val).Keys == {} <==> Slots(h, val) == map[];
  }

  lemma ListedItem(j: Interpolation, h: Store, val: Ref, items: seq<Item>, i: nat)
    requires PlainLookups(j) && Evolved(j, h) && !IsMarkerRef(j.store, val) && Slots(h, val) != map[]
    requires Lists(h, val.addr, items) && i < |items|
    ensures Placed(j, items[i]) && Means(j, items[i].val) in NextLevel(j, {Ok(val)})
  {
    SameSlots(j, h, val);
    var k := items[i].parent.value.1;
    assert PushedItem(h, h, val.addr, items[i]);
    assert k in h[val.addr].kids.Keys && k in j.store[val.addr].kids.Keys;
    SlotMeans(j, h, val.addr, k);
    hide Replace, Evolved, PlainLookups;
    assert k in Slots(j.store, val);
  }

  lemma ListedSlot(j: Interpolation, h: Store, val: Ref, items: seq<Item>, k: Key)
    requires PlainLookups(j) && Evolved(j, h) && Slots(h, val) != map[]
    requires Lists(h, val.addr, items) && k in Slots(j.store, val)
    ensures Means(j, Slots(j.store, val)[k]) in Images(j, items)
  {
    SameSlots(j, h, val);
    var b := val.addr;
    assert k in h[b].kids.Keys && Slot(h, b, k);
    SlotMeans(j, h, b, k);
    hide Replace, Evolved, PlainLookups;
    assert OnStack(items, b, k);
    var i :| 0 <= i < |items| && items[i].parent == Some((b, k));
    assert PushedItem(h, h, b, items[i]);
  }

  // ----- where a run of the worklist is -----

  /** `n` rounds lead from the start to `h` and `stack`. */
  ghost predicate Rounds(j: Interpolation, root: Ref, n: nat, h: Store, stack: seq<Item>) {
    if n == 0 then h == j.store && stack == [Item(root, None)]
    else exists h1, stack1 ::
      Rounds(j, root, n - 1, h1, stack1) && Turn(h1, j.env, j.allowErrors, stack1, h, stack)
  }

  /** The worklist is a queue, so it goes level by level: `rest` of level `level` is to be done, what
      `done` stands for is done, and `next` belongs to the next level. */
  datatype Position = Position(level: nat, done: set<Outcome<Ref>>, rest: seq<Item>, next: seq<Item>)

  ghost predicate At(j: Interpolation, root: Ref, h: Store, stack: seq<Item>, at: Position) {
    && Evolved(j, h) && stack == at.rest + at.next && AllPlaced(j, at.rest) && AllPlaced(j, at.next)
    && at.done + Images(j, at.rest) == Shown(j, root, at.level)
    && Images(j, at.next) == NextLevel(j, at.done)
    && (forall o :: o in at.done ==> o.Ok?)
  }

  /** The level of the first item. */
  function Normal(at: Position): Position {
    if at.rest == [] then Position(at.level + 1, {}, at.next, []) else at
  }

  lemma NormalIsAt(j: Interpolation, root: Ref, h: Store, stack: seq<Item>, at: Position)
    requires At(j, root, h, stack, at)
    ensures At(j, root, h, stack, Normal(at))
  {
    hide Replace, Evolved;
    assert NextLevel(j, {}) == {};
    assert at.rest == [] ==> stack == at.next;
  }

  lemma StartIsAt(j: Interpolation, root: Ref)
    ensures At(j, root, j.store, [Item(root, None)], Position(0, {}, [Item(root, None)], []))
  {
    hide Replace;
    assert Images(j, [Item(root, None)]) == {Means(j, root)} by {
      assert [Item(root, None)][0].val == root;
    }
    assert NextLevel(j, {}) == {} == Images(j, []);
  }

  /** The position after a round that found `val` and listed `items`. */
  function Advance(at: Position, val: Ref, items: seq<Item>): Position
    requires at.rest != []
  {
    Position(at.level, at.done + {Ok(val)}, at.rest[1..], at.next + items)
  }

  lemma AdvanceIsAt(j: Interpolation, root: Ref, h: Store, stack: seq<Item>, at: Position, val: Ref,
      items: seq<Item>, h': Store, stack': seq<Item>)
    requires PlainLookups(j) && At(j, root, h, stack, at) && at.rest != []
    requires TurnWith(h, j.env, j.allowErrors, stack, val, items, h', stack')
    ensures At(j, root, h', stack', Advance(at, val, items))
    ensures |items| == |Slots(j.store, val)|
  {
    hide Evolved, PlainLookups, Replace, Listing, NextLevel, Images, Placed, Written, Slots, Slot, Shown;
    var item := at.rest[0];
    assert stack[0] == item && Placed(j, item);
    SameMeaning(j, h, item.val);
    MeaningIsFinal(j, item.val);
    ItemWriteEvolves(j, h, item, val);
    ListedItems(j, h', val, items);
    ImagesOfRest(j, at.rest);
    ImagesAppend(j, at.next, items);
    NextLevelOfUnion(j, at.done, {Ok(val)});
    assert at.done + Images(j, at.rest) == (at.done + {Ok(val)}) + Images(j, at.rest[1..]);
    assert stack[1..] + items == at.rest[1..] + (at.next + items);
  }

  // ----- rounds are bounded up to a level that settles -----

  /** From this level on there is nothing to do, or an error ends the work in it. */
  ghost predicate SettlesAt(j: Interpolation, root: Ref, level: nat) {
    Shown(j, root, level) == {} || exists e :: Err(e) in Shown(j, root, level)
  }

  function AllKeys(h: Store): set<Key> {
    set a, k | a in h && k in h[a].kids :: k
  }

  /** `1 + width + width^2 + ...`, with as many terms as levels. */
  function MostRounds(width: nat, levels: nat): nat {
    if levels == 0 then 0 else 1 + width * MostRounds(width, levels - 1)
  }

  lemma {:induction false} SubsetSize<T>(xs: set<T>, ys: set<T>)
    requires xs <= ys
    ensures |xs| <= |ys|
  {
    if x :| x in xs {
      SubsetSize(xs - {x}, ys - {x});
    }
  }

  lemma SlotsAreFew(h: Store, r: Ref)
    ensures |Slots(h, r)| <= |AllKeys(h)|
  {
    assert |Slots(h, r)| == |Slots(h, r).Keys|;
    SubsetSize(Slots(h, r).Keys, AllKeys(h));
  }

  /** What `n` rounds have left of the rounds up to `last`. */
  ghost predicate WithinBudget(width: nat, last: nat, n: nat, at: Position) {
    && at.level <= last
    && n + |at.rest| * MostRounds(width, last + 1 - at.level) + |at.next| * MostRounds(width, last - at.level)
      <= MostRounds(width, last + 1)
  }

  lemma BudgetAfter(width: nat, last: nat, n: nat, at: Position, val: Ref, items: seq<Item>)
    requires WithinBudget(width, last, n, at) && at.rest != [] && |items| <= width
    ensures WithinBudget(width, last, n + 1, Advance(at, val, items))
  {
    var a, b := MostRounds(width, last + 1 - at.level), MostRounds(width, last - at.level);
    assert a == 1 + width * b;
    assert |items| * b <= width * b;
    calc {
      (|at.rest| - 1) * a + (|at.next| + |items|) * b;
      |at.rest| * a - a + |at.next| * b + |items| * b;
    <=
      |at.rest| * a - 1 + |at.next| * b;
    }
  }

  lemma BudgetOfNormal(j: Interpolation, root: Ref, last: nat, width: nat, n: nat, h: Store, stack: seq<Item>,
      at: Position)
    requires At(j, root, h, stack, at) && SettlesAt(j, root, last) && WithinBudget(width, last, n, at) && stack != []
    ensures WithinBudget(width, last, n, Normal(at))
  {
    hide Evolved, Replace, Placed;
    assert NextLevel(j, {}) == {};
    if at.rest == [] {
      assert Images(j, at.rest) == {};
      assert at.done == Shown(j, root, at.level);
      assert at.next != [] && Means(j, at.next[0].val) in Images(j, at.next);
    }
  }

  lemma {:induction false} WhereAfter(j: Interpolation, root: Ref, n: nat, h: Store, stack: seq<Item>)
      returns (at: Position)
    requires PlainLookups(j) && Rounds(j, root, n, h, stack)
    ensures At(j, root, h, stack, at)
    ensures forall last: nat :: SettlesAt(j, root, last) ==> WithinBudget(|AllKeys(j.store)|, last, n, at)
    decreases n
  {
    hide At, SettlesAt, PlainLookups, WithinBudget, Turn;
    if n == 0 {
      at := Position(0, {}, stack, []);
      StartIsAt(j, root);
      StartIsWithinBudget(|AllKeys(j.store)|, at);
    } else {
      var h1, stack1 :| Rounds(j, root, n - 1, h1, stack1) && Turn(h1, j.env, j.allowErrors, stack1, h, stack);
      var before := WhereAfter(j, root, n - 1, h1, stack1);
      at := WhereNext(j, root, n - 1, h1, stack1, before, h, stack);
    }
  }

  lemma StartIsWithinBudget(width: nat, at: Position)
    requires at.level == 0 && |at.rest| == 1 && at.next == []
    ensures forall last: nat :: WithinBudget(width, last, 0, at)
  {
  }

  lemma WhereNext(j: Interpolation, root: Ref, n: nat, h: Store, stack: seq<Item>, at: Position,
      h': Store, stack': seq<Item>)
      returns (at': Position)
    requires PlainLookups(j) && At(j, root, h, stack, at) && Turn(h, j.env, j.allowErrors, stack, h', stack')
    requires forall last: nat :: SettlesAt(j, root, last) ==> WithinBudget(|AllKeys(j.store)|, last, n, at)
    ensures At(j, root, h', stack', at')
    ensures forall last: nat :: SettlesAt(j, root, last) ==> WithinBudget(|AllKeys(j.store)|, last, n + 1, at')
  {
    var val, items :| TurnWith(h, j.env, j.allowErrors, stack, val, items, h', stack');
    assert stack != [] && stack == at.rest + at.next;
    hide At, SettlesAt, PlainLookups, WithinBudget, TurnWith, Slots, AllKeys;
    var width := |AllKeys(j.store)|;
    NormalIsAt(j, root, h, stack, at);
    AdvanceIsAt(j, root, h, stack, Normal(at), val, items, h', stack');
    SlotsAreFew(j.store, val);
    at' := Advance(Normal(at), val, items);
    forall last: nat | SettlesAt(j, root, last) ensures WithinBudget(width, last, n + 1, at') {
      BudgetOfNormal(j, root, last, width, n, h, stack, at);
      BudgetAfter(width, last, n, Normal(at), val, items);
    }
  }

  ghost predicate Bounded(j: Interpolation, root: Ref, bound: nat) {
    forall n: nat, h, stack :: Rounds(j, root, n, h, stack) ==> n <= bound
  }

  /** However the keys of maps are ordered, the worklist ends. */
  ghost predicate Ends(j: Interpolation, root: Ref) {
    exists bound: nat :: Bounded(j, root, bound)
  }

  /** If a level settles, the number of rounds is bounded by the number of slots above it. */
  lemma SettlingBounds(j: Interpolation, root: Ref, last: nat)
    requires PlainLookups(j) && SettlesAt(j, root, last)
    ensures Bounded(j, root, MostRounds(|AllKeys(j.store)|, last + 1))
  {
    hide SettlesAt, Rounds, PlainLookups, At, AllKeys;
    forall n: nat, h, stack | Rounds(j, root, n, h, stack)
      ensures n <= MostRounds(|AllKeys(j.store)|, last + 1)
    {
      var at := WhereAfter(j, root, n, h, stack);
      assert WithinBudget(|AllKeys(j.store)|, last, n, at);
    }
  }

  // ----- rounds go on if no level settles -----

  lemma {:induction false} ListKeys(h: Store, b: nat, todo: set<Key>) returns (items: seq<Item>)
    requires b in h && todo <= h[b].kids.Keys
    ensures |items| == |todo| && (forall i :: 0 <= i < |items| ==> PushedItem(h, h, b, items[i]))
    ensures forall k :: k in todo ==> OnStack(items, b, k)
    decreases |todo|
  {
    items := [];
    if k :| k in todo {
      var rest := ListKeys(h, b, todo - {k});
      var item := Item(h[b].kids[k], Some((b, k)));
      items := rest + [item];
      assert items[|rest|] == item;
      forall i | i in todo ensures OnStack(items, b, i) {
        if i != k {
          OnLongerStack(rest, [item], b, i);
        }
      }
    }
  }

  lemma SomeListing(h: Store, val: Ref) returns (items: seq<Item>)
    ensures Listing(h, val, items)
  {
    items := [];
    if CellOf(h, val).Some? && Walkable(CellOf(h, val).value.kind) {
      var b := val.addr;
      items := ListKeys(h, b, h[b].kids.Keys);
      assert forall k :: Slot(h, b, k) ==> k in h[b].kids.Keys;
      assert |h[b].kids| == |h[b].kids.Keys|;
    }
  }

  lemma FirstIsShown(j: Interpolation, root: Ref, h: Store, stack: seq<Item>, at: Position)
    requires At(j, root, h, stack, at) && at.rest != []
    ensures stack != [] && Placed(j, stack[0]) && Means(j, stack[0].val) in Shown(j, root, at.level)
  {
    hide Evolved, Replace, Placed, Shown, NextLevel;
    assert stack[0] == at.rest[0];
    assert Means(j, at.rest[0].val) in Images(j, at.rest);
  }

  lemma NothingLeft(j: Interpolation, root: Ref, h: Store, stack: seq<Item>, at: Position)
    requires At(j, root, h, stack, at) && at.rest == [] && at.next == []
    ensures Shown(j, root, at.level + 1) == {}
  {
    hide Evolved, Replace;
    assert Images(j, []) == {};
  }

  /** The first item stands for something, unless a level settles. */
  lemma FirstMeans(j: Interpolation, root: Ref, h: Store, stack: seq<Item>, at: Position)
    requires At(j, root, h, stack, at) && (forall last: nat :: !SettlesAt(j, root, last))
    ensures stack != [] && Placed(j, stack[0]) && Means(j, stack[0].val).Ok?
  {
    hide At, Replace, Placed, Shown;
    assert !SettlesAt(j, root, at.level + 1) && !SettlesAt(j, root, Normal(at).level);
    if at.rest == [] && at.next == [] {
      NothingLeft(j, root, h, stack, at);
    }
    NormalIsAt(j, root, h, stack, at);
    FirstIsShown(j, root, h, stack, Normal(at));
  }

  lemma TurnsOnce(j: Interpolation, root: Ref, h: Store, stack: seq<Item>, at: Position)
      returns (h': Store, stack': seq<Item>)
    requires PlainLookups(j) && At(j, root, h, stack, at) && (forall last: nat :: !SettlesAt(j, root, last))
    ensures Turn(h, j.env, j.allowErrors, stack, h', stack')
  {
    FirstMeans(j, root, h, stack, at);
    hide Evolved, PlainLookups, SettlesAt, Replace, Listing, Placed, Images, NextLevel;
    var val := Means(j, stack[0].val).value;
    SameMeaning(j, h, stack[0].val);
    ItemWriteEvolves(j, h, stack[0], val);
    h' := Written(h, stack[0], val);
    var items := SomeListing(h', val);
    stack' := stack[1..] + items;
    assert TurnWith(h, j.env, j.allowErrors, stack, val, items, h', stack');
  }

  /** If no level settles, every run of the worklist can go on. */
  lemma NeverStops(j: Interpolation, root: Ref, n: nat, h: Store, stack: seq<Item>)
      returns (h': Store, stack': seq<Item>)
    requires PlainLookups(j) && Rounds(j, root, n, h, stack) && (forall last: nat :: !SettlesAt(j, root, last))
    ensures Rounds(j, root, n + 1, h', stack')
  {
    hide PlainLookups, SettlesAt, At, Turn;
    var at := WhereAfter(j, root, n, h, stack);
    h', stack' := TurnsOnce(j, root, h, stack, at);
  }

  lemma {:induction false} RunsForever(j: Interpolation, root: Ref, n: nat) returns (h: Store, stack: seq<Item>)
    requires PlainLookups(j) && (forall last: nat :: !SettlesAt(j, root, last))
    ensures Rounds(j, root, n, h, stack)
  {
    if n == 0 {
      h, stack := j.store, [Item(root, None)];
    } else {
      h, stack := RunsForever(j, root, n - 1);
      h, stack := NeverStops(j, root, n - 1, h, stack);
    }
  }

  lemma EndsIfSettles(j: Interpolation, root: Ref)
    requires PlainLookups(j)
    ensures Ends(j, root) <==> exists last: nat :: SettlesAt(j, root, last)
  {
    hide PlainLookups, SettlesAt, MostRounds, Rounds;
    if last: nat :| SettlesAt(j, root, last) {
      SettlingBounds(j, root, last);
    } else if Ends(j, root) {
      var bound: nat :| Bounded(j, root, bound);
      var h, stack := RunsForever(j, root, bound + 1);
    }
  }

  // ----- levels settle unless something contains itself -----

  lemma ShownIsFinal(j: Interpolation, r: Ref, n: nat, w: Ref)
    requires PlainLookups(j) && Ok(w) in Shown(j, r, n)
    ensures Means(j, w) == Ok(w)
  {
    hide PlainLookups, Replace, Slots;
    if n == 0 {
      MeaningIsFinal(j, r);
    } else {
      var o, k :| o in Shown(j, r, n - 1) && o.Ok? && k in Slots(j.store, o.value)
        && Ok(w) == Means(j, Slots(j.store, o.value)[k]);
      MeaningIsFinal(j, Slots(j.store, o.value)[k]);
    }
  }

  lemma NextLevelOfMore(j: Interpolation, xs: set<Outcome<Ref>>, ys: set<Outcome<Ref>>)
    requires xs <= ys
    ensures NextLevel(j, xs) <= NextLevel(j, ys)
  {
    hide Slots, Replace;
  }

  /** What is found below something that is found below `r` is found below `r`. */
  lemma {:induction false} ShownCompose(j: Interpolation, r: Ref, n: nat, w: Ref, c: nat)
    requires Ok(w) in Shown(j, r, n) && Means(j, w) == Ok(w)
    ensures Shown(j, w, c) <= Shown(j, r, n + c)
  {
    hide NextLevel, Replace;
    if c > 0 {
      ShownCompose(j, r, n, w, c - 1);
      NextLevelOfMore(j, Shown(j, w, c - 1), Shown(j, r, n + (c - 1)));
    }
  }

  lemma {:induction false} EmptyStaysEmpty(j: Interpolation, r: Ref, n: nat, m: nat)
    requires Shown(j, r, n) == {} && n <= m
    ensures Shown(j, r, m) == {}
  {
    if n < m {
      EmptyStaysEmpty(j, r, n, m - 1);
    }
  }

  /** What contains itself is found at ever deeper levels. */
  lemma {:induction false} FoundAgain(j: Interpolation, r: Ref, n: nat, a: nat, c: nat, depth: nat) returns (m: nat)
    requires PlainLookups(j) && Returns(j, r, n, a, c)
    ensures m >= depth && Ok(Addr(a)) in Shown(j, r, m)
  {
    hide Shown, PlainLookups, Replace;
    if depth == 0 {
      m := n;
    } else {
      var before := FoundAgain(j, r, n, a, c, depth - 1);
      ShownIsFinal(j, r, before, Addr(a));
      ShownCompose(j, r, before, Addr(a), c);
      m := before + c;
    }
  }

  ghost predicate Leads(j: Interpolation, a: nat, o: Outcome<Ref>) {
    o in NextLevel(j, {Ok(Addr(a))})
  }

  /** Cells from `r` down to `o`, each leading to the next. */
  ghost predicate Path(j: Interpolation, r: Ref, path: seq<nat>, o: Outcome<Ref>) {
    && (forall i :: 0 <= i < |path| ==> path[i] in j.store && Ok(Addr(path[i])) in Shown(j, r, i))
    && (forall i :: 0 < i < |path| ==> Leads(j, path[i - 1], Ok(Addr(path[i]))))
    && (path != [] ==> Leads(j, path[|path| - 1], o))
  }

  lemma Parent(j: Interpolation, os: set<Outcome<Ref>>, o: Outcome<Ref>) returns (a: nat)
    requires o in NextLevel(j, os)
    ensures a in j.store && Ok(Addr(a)) in os && Leads(j, a, o)
  {
    hide Replace;
    var p, k :| p in os && p.Ok? && k in Slots(j.store, p.value) && o == Means(j, Slots(j.store, p.value)[k]);
    a := p.value.addr;
    assert p.value == Addr(a);
  }

  lemma {:induction false} PathTo(j: Interpolation, r: Ref, n: nat, o: Outcome<Ref>) returns (path: seq<nat>)
    requires o in Shown(j, r, n)
    ensures |path| == n && Path(j, r, path, o)
  {
    hide NextLevel, Replace;
    path := [];
    if n > 0 {
      var a := Parent(j, Shown(j, r, n - 1), o);
      var before := PathTo(j, r, n - 1, Ok(Addr(a)));
      path := before + [a];
      hide Leads, Shown;
      LongerPath(j, r, before, a, o);
    }
  }

  lemma LongerPath(j: Interpolation, r: Ref, path: seq<nat>, a: nat, o: Outcome<Ref>)
    requires Path(j, r, path, Ok(Addr(a))) && a in j.store && Ok(Addr(a)) in Shown(j, r, |path|) && Leads(j, a, o)
    ensures Path(j, r, path + [a], o)
  {
    hide Leads, Shown;
  }

  lemma {:induction false} AlongPath(j: Interpolation, r: Ref, path: seq<nat>, o: Outcome<Ref>, i: nat, k: nat)
    requires PlainLookups(j) && Path(j, r, path, o) && i <= k < |path|
    ensures Ok(Addr(path[k])) in Shown(j, Addr(path[i]), k - i)
    decreases k
  {
    hide PlainLookups, Replace, NextLevel;
    if i == k {
      ShownIsFinal(j, r, i, Addr(path[i]));
    } else {
      AlongPath(j, r, path, o, i, k - 1);
      assert Leads(j, path[k - 1], Ok(Addr(path[k])));
      NextLevelOfMore(j, {Ok(Addr(path[k - 1]))}, Shown(j, Addr(path[i]), k - 1 - i));
    }
  }

  lemma {:induction false} Pigeonhole(path: seq<nat>, cells: set<nat>) returns (i: nat, k: nat)
    requires (forall x :: x in path ==> x in cells) && |path| > |cells|
    ensures i < k < |path| && path[i] == path[k]
    decreases |path|
  {
    var n := |path| - 1;
    if m :| 0 <= m < n && path[m] == path[n] {
      i, k := m, n;
    } else {
      i, k := Pigeonhole(path[..n], cells - {path[n]});
    }
  }

  /** Something that is found deeper than there are cells contains itself. */
  lemma DeepContainsItself(j: Interpolation, r: Ref, o: Outcome<Ref>)
    requires PlainLookups(j) && o in Shown(j, r, |j.store| + 1)
    ensures SelfContaining(j, r)
  {
    hide Shown, PlainLookups, Leads;
    var path := PathTo(j, r, |j.store| + 1, o);
    assert |j.store| == |j.store.Keys|;
    var i, k := Pigeonhole(path, j.store.Keys);
    AlongPath(j, r, path, o, i, k);
    assert Returns(j, r, i, path[i], k - i);
  }

  lemma NeverSettles(j: Interpolation, root: Ref, last: nat)
    requires PlainLookups(j) && !Undefined(j, root) && SelfContaining(j, root)
    ensures !SettlesAt(j, root, last)
  {
    hide Shown, PlainLookups, Returns;
    var n: nat, a: nat, c: nat :| Returns(j, root, n, a, c);
    var m := FoundAgain(j, root, n, a, c, last);
    if Shown(j, root, last) == {} {
      EmptyStaysEmpty(j, root, last, m);
    }
  }

  /** The exact condition for termination. However the keys of maps are ordered, the worklist ends
      exactly if it meets a marker without a meaning, or no map or slice below the root contains
      itself once every marker is followed. */
  lemma EndsExactly(j: Interpolation, root: Ref)
    requires PlainLookups(j)
    ensures Ends(j, root) <==> Undefined(j, root) || !SelfContaining(j, root)
  {
    hide PlainLookups, Shown, Ends, Returns;
    EndsIfSettles(j, root);
    if Undefined(j, root) {
      var n: nat, e :| Err(e) in Shown(j, root, n);
      assert SettlesAt(j, root, n);
    } else if SelfContaining(j, root) {
      forall last: nat ensures !SettlesAt(j, root, last) {
        NeverSettles(j, root, last);
      }
    } else {
      if Shown(j, root, |j.store| + 1) != {} {
        var o :| o in Shown(j, root, |j.store| + 1);
        DeepContainsItself(j, root, o);
      }
      assert SettlesAt(j, root, |j.store| + 1);
    }
  }

  // ----- variables without markers, and one with a marker -----

  lemma {:induction false} NoMarkerOnTheWay(h: Store, env: Env, cells: set<nat>, r: Ref, parts: seq<string>)
    requires VariableCells(h, env, cells) && Within(r, cells)
    ensures MeetsNoMarker(h, r, parts)
    decreases parts
  {
    if parts != [] && StepRef(h, r, parts[0]).Ok? {
      NoMarkerOnTheWay(h, env, cells, StepRef(h, r, parts[0]).value, parts[1..]);
    }
  }

  /** If variables hold no marker, no lookup meets one. */
  lemma MarkerFreeVariablesArePlain(j: Interpolation, cells: set<nat>)
    requires VariableCells(j.store, j.env, cells)
    ensures PlainLookups(j)
  {
    forall keypath ensures PlainLookup(j.store, j.env, keypath) {
      match Parse(Trim(keypath))
      case Err(_) =>
      case Ok(parts) =>
        if parts != [] && parts[0] in j.env {
          NoMarkerOnTheWay(j.store, j.env, cells, j.env[parts[0]], parts[1..]);
        }
    }
    hide PlainLookup;
  }

  const TO_X := Cell(GoMap, map[Field(KEY_PATH) := Leaf(Text("x"))])

  /** `[$(x)]` at address 0, where x is `{"a": $(x)}` at address 1. */
  const X_HOLDS_X := Interpolation(
    map[
      0 := Cell(GoSlice, map[Index(0) := Addr(2)]),
      1 := Cell(GoMap, map[Field("a") := Addr(3)]),
      2 := TO_X,
      3 := TO_X],
    map["x" := Addr(1)],
    false)

  lemma ToXMeansX()
    ensures Means(X_HOLDS_X, Addr(2)) == Means(X_HOLDS_X, Addr(3)) == Means(X_HOLDS_X, Addr(1)) == Ok(Addr(1))
    ensures Means(X_HOLDS_X, Addr(0)) == Ok(Addr(0))
    ensures PlainLookups(X_HOLDS_X)
  {
    SplitOfDotFree("x");
    assert Parse(Trim("x")) == Ok(["x"]);
  }

  lemma {:induction false} XShows(r: nat, n: nat)
    requires r < 2
    ensures Shown(X_HOLDS_X, Addr(r), n) == {Ok(Addr(if n == 0 then r else 1))}
  {
    ToXMeansX();
    if n > 0 {
      XShows(r, n - 1);
      XShowsNext(if n == 1 then r else 1);
    }
  }

  lemma XShowsNext(r: nat)
    requires r < 2
    ensures NextLevel(X_HOLDS_X, {Ok(Addr(r))}) == {Ok(Addr(1))}
  {
    ToXMeansX();
    hide Replace;
    var slots := Slots(X_HOLDS_X.store, Addr(r));
    var k := if r == 0 then Index(0) else Field("a");
    assert slots.Keys == {k} && Means(X_HOLDS_X, slots[k]) == Ok(Addr(1));
    assert Ok(Addr(1)) in NextLevel(X_HOLDS_X, {Ok(Addr(r))}) by {
      assert k in slots;
    }
  }

  /** A variable that holds a marker of itself: the worklist on `[$(x)]` has runs of any length. */
  lemma MarkerInVariableLoops(n: nat) returns (h: Store, stack: seq<Item>)
    ensures PlainLookups(X_HOLDS_X) && !Ends(X_HOLDS_X, Addr(0))
    ensures Rounds(X_HOLDS_X, Addr(0), n, h, stack)
  {
    ToXMeansX();
    forall m: nat ensures !SettlesAt(X_HOLDS_X, Addr(0), m) {
      XShows(0, m);
    }
    hide PlainLookups, SettlesAt, Shown, Ends, Rounds;
    EndsIfSettles(X_HOLDS_X, Addr(0));
    h, stack := RunsForever(X_HOLDS_X, Addr(0), n);
  }
}
