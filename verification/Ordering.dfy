/** Sorting. `sort.Slice` promises some ordered permutation; when the order tells the elements apart
    there is only one, so its instability cannot be observed. */
module Ordering {

  /** `before` is a strict order up to ties. */
  ghost predicate WeakOrder<T(!new)>(before: (T, T) -> bool) {
    && (forall a, b :: before(a, b) ==> !before(b, a))
    && (forall a, b, c :: !before(b, a) && !before(c, b) ==> !before(c, a))
  }

  ghost predicate Ordered<T>(before: (T, T) -> bool, xs: seq<T>) {
    forall i, j :: 0 <= i < j < |xs| ==> !before(xs[j], xs[i])
  }

  /** Elements that the order does not tell apart are equal. */
  ghost predicate Determines<T(!new)>(before: (T, T) -> bool, xs: seq<T>) {
    forall x, y :: x in xs && y in xs && !before(x, y) && !before(y, x) ==> x == y
  }

  function Insert<T>(before: (T, T) -> bool, x: T, xs: seq<T>): seq<T> {
    if xs == [] then [x]
    else if before(x, xs[|xs| - 1]) then Insert(before, x, xs[..|xs| - 1]) + [xs[|xs| - 1]]
    else xs + [x]
  }

  /** Stable insertion sort. */
  function SortBy<T>(before: (T, T) -> bool, xs: seq<T>): seq<T> {
    if xs == [] then [] else Insert(before, xs[|xs| - 1], SortBy(before, xs[..|xs| - 1]))
  }

  lemma {:induction false} InsertPermutes<T>(before: (T, T) -> bool, x: T, xs: seq<T>)
    ensures multiset(Insert(before, x, xs)) == multiset(xs) + multiset{x}
  {
    if xs != [] && before(x, xs[|xs| - 1]) {
      InsertPermutes(before, x, xs[..|xs| - 1]);
      assert xs == xs[..|xs| - 1] + [xs[|xs| - 1]];
    }
  }

  lemma OrderedAppend<T(!new)>(before: (T, T) -> bool, xs: seq<T>, y: T)
    requires Ordered(before, xs) && forall i :: 0 <= i < |xs| ==> !before(y, xs[i])
    ensures Ordered(before, xs + [y])
  {
  }

  lemma {:induction false} InsertOrders<T(!new)>(before: (T, T) -> bool, x: T, xs: seq<T>)
    requires WeakOrder(before) && Ordered(before, xs)
    ensures Ordered(before, Insert(before, x, xs))
  {
    if xs != [] {
      var init, last := xs[..|xs| - 1], xs[|xs| - 1];
      if before(x, last) {
        InsertOrders(before, x, init);
        forall i | 0 <= i < |Insert(before, x, init)| ensures !before(last, Insert(before, x, init)[i]) {
          InsertedIsOneOf(before, x, init, Insert(before, x, init)[i]);
        }
        OrderedAppend(before, Insert(before, x, init), last);
      } else {
        forall i | 0 <= i < |xs| ensures !before(x, xs[i]) {
          assert i < |xs| - 1 ==> !before(last, xs[i]);
        }
        OrderedAppend(before, xs, x);
      }
    }
  }

  lemma InsertedIsOneOf<T>(before: (T, T) -> bool, x: T, xs: seq<T>, y: T)
    requires y in Insert(before, x, xs)
    ensures y == x || y in xs
  {
    InsertPermutes(before, x, xs);
    assert y in multiset(Insert(before, x, xs));
    assert y in xs <==> y in multiset(xs);
  }

  lemma {:induction false} SortByOrders<T(!new)>(before: (T, T) -> bool, xs: seq<T>)
    requires WeakOrder(before)
    ensures Ordered(before, SortBy(before, xs)) && multiset(SortBy(before, xs)) == multiset(xs)
  {
    hide WeakOrder, Ordered, Insert;
    if xs == [] {
      NothingIsOrdered(before);
    } else {
      var init, last := xs[..|xs| - 1], xs[|xs| - 1];
      assert xs == init + [last];
      SortByOrders(before, init);
      InsertOrders(before, last, SortBy(before, init));
      InsertPermutes(before, last, SortBy(before, init));
    }
  }

  lemma NothingIsOrdered<T>(before: (T, T) -> bool)
    ensures Ordered(before, [])
  {
  }

  /** `sort.Slice`: an ordered permutation, and nothing more is promised about it. */
  method Slice<T(!new)>(before: (T, T) -> bool, xs: seq<T>) returns (sorted: seq<T>)
    requires WeakOrder(before)
    ensures Ordered(before, sorted) && multiset(sorted) == multiset(xs)
  {
    SortByOrders(before, xs);
    sorted := SortBy(before, xs);
  }

  // ----- uniqueness -----

  /** Nothing comes before the first element of an ordered sequence. */
  lemma HeadIsLeast<T(!new)>(before: (T, T) -> bool, xs: seq<T>, x: T)
    requires WeakOrder(before) && Ordered(before, xs) && x in xs
    ensures !before(x, xs[0])
  {
    var i :| 0 <= i < |xs| && xs[i] == x;
    assert before(x, x) ==> !before(x, x);
  }

  lemma TailsArePermutations<T>(xs: seq<T>, ys: seq<T>)
    requires xs != [] && ys != [] && xs[0] == ys[0] && multiset(xs) == multiset(ys)
    ensures multiset(xs[1..]) == multiset(ys[1..])
  {
    var x := xs[0];
    assert xs == [x] + xs[1..] && ys == [x] + ys[1..];
    assert multiset(xs[1..]) == multiset(xs) - multiset{x};
  }

  lemma HeadsAgree<T(!new)>(before: (T, T) -> bool, xs: seq<T>, ys: seq<T>)
    requires WeakOrder(before) && Ordered(before, xs) && Ordered(before, ys) && xs != []
    requires multiset(xs) == multiset(ys) && Determines(before, xs)
    ensures ys != [] && xs[0] == ys[0]
  {
    assert |ys| == |multiset(ys)|;
    assert xs[0] in multiset(xs) && ys[0] in multiset(ys);
    HeadIsLeast(before, ys, xs[0]);
    HeadIsLeast(before, xs, ys[0]);
  }

  lemma TailIsOrdered<T(!new)>(before: (T, T) -> bool, xs: seq<T>)
    requires xs != [] && Ordered(before, xs)
    ensures Ordered(before, xs[1..])
    ensures Determines(before, xs) ==> Determines(before, xs[1..])
  {
    assert forall x :: x in xs[1..] ==> x in xs;
  }

  lemma EmptyPermutation<T>(ys: seq<T>)
    requires multiset(ys) == multiset{}
    ensures ys == []
  {
    assert |ys| == |multiset(ys)|;
  }

  /** Two ordered permutations of each other agree when the order determines the elements. */
  lemma {:induction false} PermutationsAgree<T(!new)>(before: (T, T) -> bool, xs: seq<T>, ys: seq<T>)
    requires WeakOrder(before) && Ordered(before, xs) && Ordered(before, ys)
    requires multiset(xs) == multiset(ys) && Determines(before, xs)
    ensures xs == ys
    decreases |xs|
  {
    hide WeakOrder, Ordered, Determines;
    if xs == [] {
      EmptyPermutation(ys);
    } else {
      HeadsAgree(before, xs, ys);
      TailsArePermutations(xs, ys);
      TailIsOrdered(before, xs);
      TailIsOrdered(before, ys);
      PermutationsAgree(before, xs[1..], ys[1..]);
      assert xs == [xs[0]] + xs[1..] && ys == [ys[0]] + ys[1..];
    }
  }

  ghost predicate Distinct<T>(xs: seq<T>) {
    forall i, j :: 0 <= i < j < |xs| ==> xs[i] != xs[j]
  }

  lemma {:induction false} OccursOnce<T>(xs: seq<T>, x: T)
    requires Distinct(xs)
    ensures multiset(xs)[x] == if x in xs then 1 else 0
  {
    if xs != [] {
      var init, last := xs[..|xs| - 1], xs[|xs| - 1];
      assert xs == init + [last];
      OccursOnce(init, x);
    }
  }

  /** Sequences without repetition are permutations of each other if they have the same elements. */
  lemma DistinctPermute<T>(xs: seq<T>, ys: seq<T>)
    requires Distinct(xs) && Distinct(ys) && forall x :: x in xs <==> x in ys
    ensures multiset(xs) == multiset(ys)
  {
    forall x ensures multiset(xs)[x] == multiset(ys)[x] {
      OccursOnce(xs, x);
      OccursOnce(ys, x);
    }
  }

  // ----- integer keys -----

  datatype Entry<T> = Entry(key: int, item: T)

  function ByKey<T>(): (Entry<T>, Entry<T>) -> bool {
    (a: Entry<T>, b: Entry<T>) => a.key < b.key
  }

  function Sort<T>(xs: seq<Entry<T>>): seq<Entry<T>> {
    SortBy(ByKey(), xs)
  }

  ghost predicate Sorted<T>(xs: seq<Entry<T>>) {
    forall i, j :: 0 <= i < j < |xs| ==> xs[i].key <= xs[j].key
  }

  /** Elements with equal keys are equal. */
  ghost predicate KeyDetermines<T(!new)>(xs: seq<Entry<T>>) {
    forall x, y :: x in xs && y in xs && x.key == y.key ==> x == y
  }

  lemma SortedMeansOrdered<T(!new)>(xs: seq<Entry<T>>)
    ensures WeakOrder(ByKey<T>())
    ensures Sorted(xs) <==> Ordered(ByKey(), xs)
  {
  }

  lemma SortSorts<T(!new)>(xs: seq<Entry<T>>)
    ensures Sorted(Sort(xs)) && multiset(Sort(xs)) == multiset(xs)
  {
    SortedMeansOrdered(Sort(xs));
    SortByOrders(ByKey(), xs);
  }

  lemma SortedPermutationsAgree<T(!new)>(xs: seq<Entry<T>>, ys: seq<Entry<T>>)
    requires Sorted(xs) && Sorted(ys) && multiset(xs) == multiset(ys) && KeyDetermines(xs)
    ensures xs == ys
  {
    SortedMeansOrdered(xs);
    SortedMeansOrdered(ys);
    assert Determines(ByKey(), xs);
    PermutationsAgree(ByKey(), xs, ys);
  }
}
