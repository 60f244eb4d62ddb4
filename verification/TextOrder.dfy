/** Sorting by a text, as `Array.prototype.sort` without a comparator does: by code units, stable. */
module TextOrder {
  import opened Lists

  predicate Leq(a: string, b: string) {
    a == [] || (b != [] && (a[0] < b[0] || (a[0] == b[0] && Leq(a[1..], b[1..]))))
  }

  lemma {:induction false} LeqIsTotal(a: string, b: string)
    ensures Leq(a, b) || Leq(b, a)
    ensures Leq(a, b) && Leq(b, a) ==> a == b
  {
    if a != [] && b != [] && a[0] == b[0] {
      LeqIsTotal(a[1..], b[1..]);
      assert a == [a[0]] + a[1..] && b == [b[0]] + b[1..];
    }
  }

  lemma {:induction false} LeqIsTransitive(a: string, b: string, c: string)
    requires Leq(a, b) && Leq(b, c)
    ensures Leq(a, c)
  {
    if a != [] && a[0] == b[0] == c[0] { LeqIsTransitive(a[1..], b[1..], c[1..]); }
  }

  function ByText<T>(text: T -> string): (T, T) -> bool { (a: T, b: T) => Leq(text(a), text(b)) }

  function HasText<T>(text: T -> string, t: string): T -> bool { (x: T) => text(x) == t }

  function SortByText<T>(xs: seq<T>, text: T -> string): seq<T> { Sort(xs, ByText(text)) }

  /** The entries with a given text, in order. */
  function Bucket<T>(xs: seq<T>, text: T -> string, t: string): seq<T> { Filter(xs, HasText(text, t)) }

  ghost predicate SameBuckets<T>(xs: seq<T>, ys: seq<T>, text: T -> string) {
    forall t :: Bucket(xs, text, t) == Bucket(ys, text, t)
  }

  ghost predicate Sorted<T>(xs: seq<T>, text: T -> string) {
    forall i, j | 0 <= i < j < |xs| :: Leq(text(xs[i]), text(xs[j]))
  }

  lemma ByTextIsPreorder<T(!new)>(text: T -> string)
    ensures IsPreorder(ByText(text))
  {
    forall a, b ensures ByText(text)(a, b) || ByText(text)(b, a) { LeqIsTotal(text(a), text(b)); }
    forall a, b, c | ByText(text)(a, b) && ByText(text)(b, c) ensures ByText(text)(a, c) {
      LeqIsTransitive(text(a), text(b), text(c));
    }
  }

  /** Stability: sorting keeps every bucket as it is. */
  lemma SortKeepsBucket<T(!new)>(xs: seq<T>, text: T -> string, t: string)
    ensures Bucket(SortByText(xs, text), text, t) == Bucket(xs, text, t)
  {
    LeqIsTotal(t, t);
    SortIsStable(xs, ByText(text), HasText(text, t));
  }

  lemma SortSorts<T(!new)>(xs: seq<T>, text: T -> string)
    ensures Sorted(SortByText(xs, text), text) && |SortByText(xs, text)| == |xs|
    ensures forall y :: y in SortByText(xs, text) <==> y in xs
    ensures multiset(SortByText(xs, text)) == multiset(xs)
  {
    var sorted := SortByText(xs, text);
    ByTextIsPreorder(text);
    SortOrders(xs, ByText(text));
    SortMembers(xs, ByText(text));
    forall i, j | 0 <= i < j < |sorted| ensures Leq(text(sorted[i]), text(sorted[j])) {
      assert ByText(text)(sorted[i], sorted[j]);
    }
  }

  lemma BucketMembers<T(!new)>(xs: seq<T>, text: T -> string, t: string, x: T)
    ensures x in Bucket(xs, text, t) <==> x in xs && text(x) == t
  {
    FilterMembers(xs, HasText(text, t));
  }

  lemma SortedSameLast<T(!new)>(xs: seq<T>, ys: seq<T>, text: T -> string)
    requires Sorted(xs, text) && Sorted(ys, text) && SameBuckets(xs, ys, text) && xs != []
    ensures ys != [] && xs[|xs| - 1] == ys[|ys| - 1]
  {
    var x := xs[|xs| - 1];
    BucketMembers(xs, text, text(x), x);
    BucketMembers(ys, text, text(x), x);
    assert Bucket(xs, text, text(x)) == Bucket(ys, text, text(x));
    var i :| 0 <= i < |ys| && ys[i] == x;
    var y := ys[|ys| - 1];
    BucketMembers(ys, text, text(y), y);
    BucketMembers(xs, text, text(y), y);
    assert Bucket(xs, text, text(y)) == Bucket(ys, text, text(y));
    var j :| 0 <= j < |xs| && xs[j] == y;
    LeqIsTotal(text(x), text(y));
    assert i < |ys| - 1 ==> Leq(text(ys[i]), text(y));
    assert j < |xs| - 1 ==> Leq(text(xs[j]), text(x));
    assert text(x) == text(y);
    assert Bucket(xs, text, text(x))[|Bucket(xs, text, text(x))| - 1] == x;
    assert Bucket(ys, text, text(x))[|Bucket(ys, text, text(x))| - 1] == y;
  }

  lemma CancelSuffix<T>(a: seq<T>, b: seq<T>, suffix: seq<T>)
    requires a + suffix == b + suffix
    ensures a == b
  {
    assert |a| == |a + suffix| - |suffix| == |b|;
    assert a == (a + suffix)[..|a|] && b == (b + suffix)[..|b|];
  }

  /** A sorted list is determined by its buckets. */
  lemma {:induction false} SortedFromBuckets<T(!new)>(xs: seq<T>, ys: seq<T>, text: T -> string)
    requires Sorted(xs, text) && Sorted(ys, text) && SameBuckets(xs, ys, text)
    ensures xs == ys
  {
    if xs == [] {
      if ys != [] { BucketMembers(ys, text, text(ys[|ys| - 1]), ys[|ys| - 1]); }
    } else {
      SortedSameLast(xs, ys, text);
      var fx, fy, last := xs[..|xs| - 1], ys[..|ys| - 1], xs[|xs| - 1];
      assert xs == fx + [last] && ys == fy + [last];
      forall t ensures Bucket(fx, text, t) == Bucket(fy, text, t) {
        FilterSnoc(fx, last, HasText(text, t));
        FilterSnoc(fy, last, HasText(text, t));
        assert Bucket(xs, text, t) == Bucket(ys, text, t);
        CancelSuffix(Bucket(fx, text, t), Bucket(fy, text, t), if text(last) == t then [last] else []);
      }
      SortedFromBuckets(fx, fy, text);
    }
  }

  lemma SortIsSameIff<T(!new)>(xs: seq<T>, ys: seq<T>, text: T -> string)
    ensures SortByText(xs, text) == SortByText(ys, text) <==> SameBuckets(xs, ys, text)
  {
    forall t
      ensures Bucket(SortByText(xs, text), text, t) == Bucket(xs, text, t)
        && Bucket(SortByText(ys, text), text, t) == Bucket(ys, text, t)
    {
      SortKeepsBucket(xs, text, t);
      SortKeepsBucket(ys, text, t);
    }
    SortSorts(xs, text);
    SortSorts(ys, text);
    if SameBuckets(xs, ys, text) { SortedFromBuckets(SortByText(xs, text), SortByText(ys, text), text); }
  }

  /** Without repetitions and with distinct texts, sorting forgets everything but the set of entries. */
  lemma SortOfDistinctIff<T(!new)>(xs: seq<T>, ys: seq<T>, text: T -> string)
    requires forall i, j | 0 <= i < j < |xs| :: text(xs[i]) != text(xs[j])
    requires forall i, j | 0 <= i < j < |ys| :: text(ys[i]) != text(ys[j])
    ensures SortByText(xs, text) == SortByText(ys, text) <==> (forall x :: x in xs <==> x in ys)
  {
    SortIsSameIff(xs, ys, text);
    SortSorts(xs, text);
    SortSorts(ys, text);
    if forall x :: x in xs <==> x in ys {
      forall t ensures Bucket(xs, text, t) == Bucket(ys, text, t) {
        ShortBucket(xs, text, t);
        ShortBucket(ys, text, t);
        DistinctBuckets(xs, ys, text, t);
      }
    }
  }

  lemma DistinctBuckets<T(!new)>(xs: seq<T>, ys: seq<T>, text: T -> string, t: string)
    requires |Bucket(xs, text, t)| <= 1 && |Bucket(ys, text, t)| <= 1 && forall x :: x in xs <==> x in ys
    ensures Bucket(xs, text, t) == Bucket(ys, text, t)
  {
    if Bucket(xs, text, t) != [] {
      BucketHas(xs, ys, text, t);
    } else if Bucket(ys, text, t) != [] {
      BucketHas(ys, xs, text, t);
    }
  }

  lemma BucketHas<T(!new)>(xs: seq<T>, ys: seq<T>, text: T -> string, t: string)
    requires Bucket(xs, text, t) != [] && forall x :: x in xs <==> x in ys
    ensures Bucket(xs, text, t)[0] in Bucket(ys, text, t)
  {
    BucketMembers(xs, text, t, Bucket(xs, text, t)[0]);
    BucketMembers(ys, text, t, Bucket(xs, text, t)[0]);
  }

  lemma {:induction false} ShortBucket<T(!new)>(xs: seq<T>, text: T -> string, t: string)
    requires forall i, j | 0 <= i < j < |xs| :: text(xs[i]) != text(xs[j])
    ensures |Bucket(xs, text, t)| <= 1
  {
    if xs != [] {
      var front, last := xs[..|xs| - 1], xs[|xs| - 1];
      ShortBucket(front, text, t);
      if Bucket(front, text, t) != [] {
        var y := Bucket(front, text, t)[0];
        BucketMembers(front, text, t, y);
        var i :| 0 <= i < |front| && front[i] == y;
        assert xs[i] == y;
      }
    }
  }
}
