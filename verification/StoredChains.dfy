/**
 * What a flush leaves of the chains in the table: skip-duplicates drops records that repeat an id, so a chain may
 * reach the table with records missing. When do the stored records still verify?
 */
module StoredChains {
  import opened HashChain
  import opened Lists
  import opened ChainService
  import Queue = DurableQueue

  /** Rows fetched from the table, in any order: records the service has written or read, none twice. */
  ghost predicate Fetched(s: Service, rows: seq<Record>) {
    (forall r :: multiset(rows)[r] <= 1) && forall r | r in rows :: r in s.events
  }

  function In(rows: seq<Record>): Record -> bool { (r: Record) => r in rows }

  lemma {:induction false} DistinctIdsNoneTwice(rows: seq<Record>)
    requires Queue.DistinctIds(rows)
    ensures forall r :: multiset(rows)[r] <= 1
  {
    if rows != [] {
      var front, last := rows[..|rows| - 1], rows[|rows| - 1];
      DistinctIdsNoneTwice(front);
      assert rows == front + [last];
      assert last !in front;
    }
  }

  lemma IncreasingCounts(g: seq<Record>, r: Record)
    requires Increasing(g)
    ensures multiset(g)[r] <= 1
  {
    if r in g {
      var i :| 0 <= i < |g| && g[i] == r;
      assert g == g[..i] + [r] + g[i + 1..];
      assert r !in g[..i] && r !in g[i + 1..];
      assert multiset(g) == multiset(g[..i]) + multiset{r} + multiset(g[i + 1..]);
    } else {
      assert r !in multiset(g);
    }
  }

  lemma FetchedCounts(h: HashFunction, s: Service, rows: seq<Record>, k: string, r: Record)
    requires Sound(h, s) && Fetched(s, rows)
    ensures multiset(GroupOf(rows, k))[r] == multiset(Filter(GroupOf(s.events, k), In(rows)))[r]
  {
    FilterCounts(rows, HasKey(k));
    FilterCounts(GroupOf(s.events, k), In(rows));
    assert KeySound(h, s, k);
    IncreasingCounts(GroupOf(s.events, k), r);
    FilterMembers(s.events, HasKey(k));
    assert r in rows <==> multiset(rows)[r] >= 1;
    assert r in GroupOf(s.events, k) <==> multiset(GroupOf(s.events, k))[r] >= 1;
  }

  /** Under each key the fetched rows, once sorted, are the chain without the records that are not stored. */
  lemma RowsOfKey(h: HashFunction, s: Service, rows: seq<Record>, k: string)
    requires Sound(h, s) && Fetched(s, rows)
    ensures SortBySequence(GroupOf(rows, k)) == Filter(GroupOf(s.events, k), In(rows))
    ensures Sorted(rows) ==> GroupOf(rows, k) == Filter(GroupOf(s.events, k), In(rows))
  {
    var g := GroupOf(s.events, k);
    assert KeySound(h, s, k);
    forall r ensures multiset(GroupOf(rows, k))[r] == multiset(Filter(g, In(rows)))[r] {
      FetchedCounts(h, s, rows, k, r);
    }
    FilterKeepsIncreasing(g, In(rows));
    SortSorts(GroupOf(rows, k));
    SortedIsUnique(Filter(g, In(rows)), SortBySequence(GroupOf(rows, k)));
    if Sorted(rows) {
      FilterKeepsIncreasing(rows, HasKey(k));
      SortKeepsSorted(GroupOf(rows, k));
    }
  }

  // ---------------------------------------------------------------- when the stored records verify

  /** Under every key, what is stored is a prefix of the chain. */
  ghost predicate StoredIsPrefix(s: Service, rows: seq<Record>) {
    forall k :: Filter(GroupOf(s.events, k), In(rows)) <= GroupOf(s.events, k)
  }

  lemma PrefixIffOk(h: HashFunction, g: seq<Record>, keep: Record -> bool)
    requires Injective(h) && ChainOk(h, g) && Increasing(g)
    ensures ChainOk(h, Filter(g, keep)) <==> Filter(g, keep) <= g
  {
    var kept := Filter(g, keep);
    FilterMembers(g, keep);
    if kept <= g {
      assert kept == g[..|kept|];
      PrefixOk(h, g, |kept|);
    }
    if ChainOk(h, kept) && kept != [] {
      assert kept[|kept| - 1] in kept;
      var j :| 0 <= j < |g| && g[j] == kept[|kept| - 1];
      PrefixOk(h, g, j + 1);
      SameEndSameChain(h, kept, g[..j + 1]);
    }
  }

  lemma KeyVerifiesIff(h: HashFunction, s: Service, rows: seq<Record>, k: string)
    requires Injective(h) && Sound(h, s) && Fetched(s, rows)
    ensures ChainOk(h, SortBySequence(GroupOf(rows, k))) <==>
      Filter(GroupOf(s.events, k), In(rows)) <= GroupOf(s.events, k)
    ensures k !in Keys(rows) ==> Filter(GroupOf(s.events, k), In(rows)) == []
  {
    assert KeySound(h, s, k);
    RowsOfKey(h, s, rows, k);
    PrefixIffOk(h, GroupOf(s.events, k), In(rows));
    if k !in Keys(rows) {
      GroupIsEmpty(rows, k);
      SortKeepsSorted([]);
    }
  }

  lemma RowsVerifyIff(h: HashFunction, s: Service, rows: seq<Record>)
    requires Injective(h) && Sound(h, s) && Fetched(s, rows)
    ensures Verifies(h, rows) <==> StoredIsPrefix(s, rows)
  {
    forall k
      ensures ChainOk(h, SortBySequence(GroupOf(rows, k))) <==>
        Filter(GroupOf(s.events, k), In(rows)) <= GroupOf(s.events, k)
      ensures k !in Keys(rows) ==> Filter(GroupOf(s.events, k), In(rows)) == []
    {
      KeyVerifiesIff(h, s, rows, k);
    }
  }

  ghost predicate VerifiesInEveryOrder(h: HashFunction, rows: seq<Record>) {
    forall shuffled | multiset(shuffled) == multiset(rows) :: Verifies(h, shuffled)
  }

  lemma ShuffledPrefix(s: Service, rows: seq<Record>, shuffled: seq<Record>)
    requires multiset(shuffled) == multiset(rows)
    ensures StoredIsPrefix(s, shuffled) <==> StoredIsPrefix(s, rows)
    ensures Fetched(s, rows) ==> Fetched(s, shuffled)
  {
    forall r ensures r in rows <==> r in shuffled { assert r in multiset(rows) <==> r in multiset(shuffled); }
    forall k ensures Filter(GroupOf(s.events, k), In(shuffled)) == Filter(GroupOf(s.events, k), In(rows)) {
      FilterSame(GroupOf(s.events, k), In(shuffled), In(rows));
    }
  }

  // ---------------------------------------------------------------- after a draining flush

  /**
   * A writer that found `table` accepts the records `written` and, with the step `last`, a flush of it returns
   * normally.
   */
  ghost predicate Drains(
    o: Queue.Options, table: seq<Record>, written: seq<Record>, steps: seq<Queue.Step>, last: Queue.Step, t: nat)
  {
    && o.batchSize > 0 && Queue.DistinctIds(table) && Queue.Returns(o, table, steps, last, t)
    && TableAfter(o, table, steps, last).accepted == written
  }

  function TableAfter(o: Queue.Options, table: seq<Record>, steps: seq<Queue.Step>, last: Queue.Step): Queue.State {
    Queue.Next(o, Queue.Run(o, Queue.Boot(table), steps), last)
  }

  /** Then the table holds the old rows and the first new record of each new id, no id twice. */
  lemma DrainedTable(
    o: Queue.Options, table: seq<Record>, written: seq<Record>, steps: seq<Queue.Step>, last: Queue.Step, t: nat)
    requires Drains(o, table, written, steps, last, t)
    ensures var rows := TableAfter(o, table, steps, last).rows;
      && rows == Queue.InsertSkip(table, written) && Queue.DistinctIds(rows)
      && forall r :: r in rows <==> Queue.OccursFirst(table + written, r)
  {
    Queue.NormalReturnDrains(o, table, steps, last, t);
    Queue.NoIdTwice(table, written);
    forall r ensures r in Queue.InsertSkip(table, written) <==> Queue.OccursFirst(table + written, r) {
      Queue.StoredIffFirst(table, written, r);
    }
  }

  lemma FlushedIsFetched(
    s: Service, o: Queue.Options, table: seq<Record>, written: seq<Record>, steps: seq<Queue.Step>,
    last: Queue.Step, t: nat)
    requires Drains(o, table, written, steps, last, t) && forall r | r in table + written :: r in s.events
    ensures Fetched(s, TableAfter(o, table, steps, last).rows)
  {
    var rows := TableAfter(o, table, steps, last).rows;
    DrainedTable(o, table, written, steps, last, t);
    DistinctIdsNoneTwice(rows);
    forall r | r in rows ensures r in s.events {
      var n :| 0 <= n < |table + written| && (table + written)[n] == r && Queue.FirstWithItsId(table + written, n);
      assert r in table + written;
    }
  }

  /** After a normal return the stored rows verify, in every order, exactly when they are a prefix of each chain. */
  lemma FlushedRowsVerifyIff(
    h: HashFunction, s: Service, o: Queue.Options, table: seq<Record>, written: seq<Record>, steps: seq<Queue.Step>,
    last: Queue.Step, t: nat)
    requires Injective(h) && Sound(h, s)
    requires Drains(o, table, written, steps, last, t) && forall r | r in table + written :: r in s.events
    ensures var rows := TableAfter(o, table, steps, last).rows;
      VerifiesInEveryOrder(h, rows) <==> StoredIsPrefix(s, rows)
  {
    var rows := TableAfter(o, table, steps, last).rows;
    FlushedIsFetched(s, o, table, written, steps, last, t);
    forall shuffled | multiset(shuffled) == multiset(rows) ensures Verifies(h, shuffled) <==> StoredIsPrefix(s, rows) {
      ShuffledPrefix(s, rows, shuffled);
      RowsVerifyIff(h, s, shuffled);
    }
    RowsVerifyIff(h, s, rows);
  }
}
