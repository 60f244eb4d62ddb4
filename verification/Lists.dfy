/** Filtering, and the stable sort that `Array.prototype.sort` is: by insertion, for any order. */
module Lists {
  // ---------------------------------------------------------------- filtering

  function Filter<T>(xs: seq<T>, keep: T -> bool): seq<T> {
    if xs == [] then [] else Filter(xs[..|xs| - 1], keep) + if keep(xs[|xs| - 1]) then [xs[|xs| - 1]] else []
  }

  lemma FilterSnoc<T>(xs: seq<T>, x: T, keep: T -> bool)
    ensures Filter(xs + [x], keep) == Filter(xs, keep) + if keep(x) then [x] else []
  {
    assert (xs + [x])[..|xs|] == xs;
  }

  lemma {:induction false} FilterMembers<T(!new)>(xs: seq<T>, keep: T -> bool)
    ensures forall x :: x in Filter(xs, keep) <==> x in xs && keep(x)
  {
    if xs != [] {
      FilterMembers(xs[..|xs| - 1], keep);
      assert xs == xs[..|xs| - 1] + [xs[|xs| - 1]];
    }
  }

  lemma {:induction false} FilterCounts<T(!new)>(xs: seq<T>, keep: T -> bool)
    ensures forall x :: multiset(Filter(xs, keep))[x] == if keep(x) then multiset(xs)[x] else 0
  {
    if xs != [] {
      FilterCounts(xs[..|xs| - 1], keep);
      assert xs == xs[..|xs| - 1] + [xs[|xs| - 1]];
    }
  }

  lemma FilterShuffle<T(!new)>(xs: seq<T>, ys: seq<T>, keep: T -> bool)
    requires multiset(xs) == multiset(ys)
    ensures multiset(Filter(xs, keep)) == multiset(Filter(ys, keep)) && |Filter(xs, keep)| == |Filter(ys, keep)|
  {
    FilterCounts(xs, keep);
    FilterCounts(ys, keep);
    assert |multiset(Filter(xs, keep))| == |Filter(xs, keep)|;
  }

  lemma {:induction false} FilterAppend<T>(xs: seq<T>, ys: seq<T>, keep: T -> bool)
    ensures Filter(xs + ys, keep) == Filter(xs, keep) + Filter(ys, keep)
  {
    if ys == [] {
      assert xs + ys == xs;
    } else {
      var n := |ys| - 1;
      FilterAppend(xs, ys[..n], keep);
      assert (xs + ys)[..|xs + ys| - 1] == xs + ys[..n];
    }
  }

  lemma {:induction false} FilterAll<T>(xs: seq<T>, keep: T -> bool)
    requires forall x | x in xs :: keep(x)
    ensures Filter(xs, keep) == xs
  {
    if xs != [] {
      FilterAll(xs[..|xs| - 1], keep);
      assert xs == xs[..|xs| - 1] + [xs[|xs| - 1]];
    }
  }

  lemma {:induction false} FilterAllIff<T(!new)>(xs: seq<T>, keep: T -> bool)
    ensures |Filter(xs, keep)| <= |xs|
    ensures |Filter(xs, keep)| == |xs| <==> forall x | x in xs :: keep(x)
    ensures |Filter(xs, keep)| == |xs| ==> Filter(xs, keep) == xs
  {
    if xs != [] {
      FilterAllIff(xs[..|xs| - 1], keep);
      assert xs == xs[..|xs| - 1] + [xs[|xs| - 1]];
    }
  }

  lemma FilterNoneIff<T(!new)>(xs: seq<T>, keep: T -> bool)
    ensures Filter(xs, keep) == [] <==> forall x | x in xs :: !keep(x)
  {
    FilterMembers(xs, keep);
    if Filter(xs, keep) != [] { assert Filter(xs, keep)[0] in Filter(xs, keep); }
  }

  lemma {:induction false} FilterSame<T>(xs: seq<T>, f: T -> bool, g: T -> bool)
    requires forall x | x in xs :: f(x) == g(x)
    ensures Filter(xs, f) == Filter(xs, g)
  {
    if xs != [] { FilterSame(xs[..|xs| - 1], f, g); }
  }

  lemma {:induction false} FilterTwice<T(!new)>(xs: seq<T>, f: T -> bool, g: T -> bool)
    requires forall x | g(x) :: f(x)
    ensures Filter(Filter(xs, f), g) == Filter(xs, g)
  {
    if xs != [] {
      var front, last := xs[..|xs| - 1], xs[|xs| - 1];
      FilterTwice(front, f, g);
      FilterSnoc(Filter(front, f), last, g);
      assert !f(last) ==> Filter(xs, f) == Filter(front, f);
    }
  }

  // ---------------------------------------------------------------- stable sorting

  /** Behind everything that may stand before it. */
  function Insert<T>(sorted: seq<T>, x: T, leq: (T, T) -> bool): seq<T> {
    if sorted == [] || leq(sorted[|sorted| - 1], x) then sorted + [x]
    else Insert(sorted[..|sorted| - 1], x, leq) + [sorted[|sorted| - 1]]
  }

  function Sort<T>(xs: seq<T>, leq: (T, T) -> bool): seq<T> {
    if xs == [] then [] else Insert(Sort(xs[..|xs| - 1], leq), xs[|xs| - 1], leq)
  }

  ghost predicate Ordered<T>(xs: seq<T>, leq: (T, T) -> bool) { forall i, j | 0 <= i < j < |xs| :: leq(xs[i], xs[j]) }

  ghost predicate IsPreorder<T(!new)>(leq: (T, T) -> bool) {
    && (forall a, b :: leq(a, b) || leq(b, a))
    && (forall a, b, c :: leq(a, b) && leq(b, c) ==> leq(a, c))
  }

  lemma {:induction false} InsertMembers<T>(xs: seq<T>, x: T, leq: (T, T) -> bool)
    ensures multiset(Insert(xs, x, leq)) == multiset(xs) + multiset{x}
    ensures forall i | 0 <= i < |Insert(xs, x, leq)| :: Insert(xs, x, leq)[i] in xs || Insert(xs, x, leq)[i] == x
  {
    if xs != [] && !leq(xs[|xs| - 1], x) {
      InsertMembers(xs[..|xs| - 1], x, leq);
      assert xs == xs[..|xs| - 1] + [xs[|xs| - 1]];
    }
  }

  lemma {:induction false} InsertOrders<T(!new)>(xs: seq<T>, x: T, leq: (T, T) -> bool)
    requires IsPreorder(leq) && Ordered(xs, leq)
    ensures Ordered(Insert(xs, x, leq), leq)
  {
    if xs != [] && !leq(xs[|xs| - 1], x) {
      var front, last := xs[..|xs| - 1], xs[|xs| - 1];
      InsertOrders(front, x, leq);
      InsertMembers(front, x, leq);
      var ins := Insert(front, x, leq);
      forall i | 0 <= i < |ins| ensures leq(ins[i], last) {
        if ins[i] in front {
          var j :| 0 <= j < |front| && front[j] == ins[i];
          assert leq(xs[j], xs[|xs| - 1]);
        }
      }
    } else {
      forall i | 0 <= i < |xs| ensures leq(xs[i], x) { assert i < |xs| - 1 ==> leq(xs[i], xs[|xs| - 1]); }
    }
  }

  lemma {:induction false} SortUnfolds<T>(xs: seq<T>, leq: (T, T) -> bool)
    requires xs != []
    ensures var front, last := xs[..|xs| - 1], xs[|xs| - 1];
      Sort(xs, leq) == Insert(Sort(front, leq), last, leq) && xs == front + [last]
  {
  }

  lemma {:induction false} SortOrders<T(!new)>(xs: seq<T>, leq: (T, T) -> bool)
    requires IsPreorder(leq)
    ensures Ordered(Sort(xs, leq), leq) && multiset(Sort(xs, leq)) == multiset(xs)
  {
    if xs != [] {
      var front, last := xs[..|xs| - 1], xs[|xs| - 1];
      SortOrders(front, leq);
      SortUnfolds(xs, leq);
      InsertOrders(Sort(front, leq), last, leq);
      InsertMembers(Sort(front, leq), last, leq);
    }
  }

  lemma SortMembers<T(!new)>(xs: seq<T>, leq: (T, T) -> bool)
    requires IsPreorder(leq)
    ensures |Sort(xs, leq)| == |xs| && forall x :: x in Sort(xs, leq) <==> x in xs
  {
    SortOrders(xs, leq);
    assert |multiset(Sort(xs, leq))| == |Sort(xs, leq)| && |multiset(xs)| == |xs|;
    forall x ensures x in Sort(xs, leq) <==> x in xs { assert x in multiset(Sort(xs, leq)) <==> x in multiset(xs); }
  }

  lemma {:induction false} SortKeepsOrdered<T>(xs: seq<T>, leq: (T, T) -> bool)
    requires Ordered(xs, leq)
    ensures Sort(xs, leq) == xs
  {
    if xs != [] {
      var front, last := xs[..|xs| - 1], xs[|xs| - 1];
      SortKeepsOrdered(front, leq);
      assert front != [] ==> leq(front[|front| - 1], last);
      assert Insert(front, last, leq) == front + [last] == xs;
    }
  }

  /** Elements that may all stand before each other. */
  ghost predicate Tied<T(!new)>(keep: T -> bool, leq: (T, T) -> bool) {
    forall a, b | keep(a) && keep(b) :: leq(a, b)
  }

  lemma FilterSwap<T>(front: seq<T>, inserted: seq<T>, last: T, x: T, keep: T -> bool)
    requires Filter(inserted, keep) == Filter(front + [x], keep) && !(keep(last) && keep(x))
    ensures Filter(inserted + [last], keep) == Filter(front + [last] + [x], keep)
  {
    FilterSnoc(inserted, last, keep);
    FilterSnoc(front, x, keep);
    FilterSnoc(front, last, keep);
    FilterSnoc(front + [last], x, keep);
  }

  lemma {:induction false} InsertIsStable<T(!new)>(xs: seq<T>, x: T, leq: (T, T) -> bool, keep: T -> bool)
    requires Tied(keep, leq)
    ensures Filter(Insert(xs, x, leq), keep) == Filter(xs + [x], keep)
  {
    if xs != [] && !leq(xs[|xs| - 1], x) {
      var front, last := xs[..|xs| - 1], xs[|xs| - 1];
      InsertIsStable(front, x, leq, keep);
      FilterSwap(front, Insert(front, x, leq), last, x, keep);
      assert xs == front + [last];
    }
  }

  /** Sorting is stable: it keeps tied elements in their order. */
  lemma {:induction false} SortIsStable<T(!new)>(xs: seq<T>, leq: (T, T) -> bool, keep: T -> bool)
    requires Tied(keep, leq)
    ensures Filter(Sort(xs, leq), keep) == Filter(xs, keep)
  {
    if xs != [] {
      var front, last := xs[..|xs| - 1], xs[|xs| - 1];
      SortIsStable(front, leq, keep);
      InsertIsStable(Sort(front, leq), last, leq, keep);
      FilterSnoc(Sort(front, leq), last, keep);
    }
  }
}
