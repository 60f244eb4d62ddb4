/**
 * Hash-chained records, as incidents and execution logs both keep them: the verifier that groups
 * by key, sorts by sequence and walks each chain, and the append that links a record to its
 * predecessor. The hash is any function of everything in the record but the hash itself.
 */
module HashChain {
  import opened Common
  import opened Lists

  type Hash = string

  datatype IncidentState = Open | Mitigated | Resolved

  datatype Content =
    | IncidentContent(
        id: string, runId: string, attemptId: Option<string>, workItemId: Option<string>, state: IncidentState,
        severity: string, description: string, timestamp: int, resolutionClaim: Option<string>,
        recoveryEvidenceId: Option<string>)
    | LogContent(
        id: string, attemptId: Option<string>, workItemId: Option<string>, stream: string, message: string,
        timestamp: int, metadata: Option<string>)

  /** `group` is the incident id or the run id. */
  datatype Record = Record(
    projectId: string, group: string, content: Content, sequence: int, previousHash: Option<Hash>, hash: Hash)

  datatype Preimage = Preimage(
    projectId: string, group: string, content: Content, sequence: int, previousHash: Option<Hash>)

  type HashFunction = Preimage -> Hash

  function PreimageOf(r: Record): Preimage { Preimage(r.projectId, r.group, r.content, r.sequence, r.previousHash) }

  function Key(projectId: string, group: string): string { projectId + ":" + group }

  function KeyOf(r: Record): string { Key(r.projectId, r.group) }

  ghost predicate Injective(h: HashFunction) { forall p, q :: h(p) == h(q) ==> p == q }

  // ---------------------------------------------------------------- filtering

  function HasKey(key: string): Record -> bool { r => KeyOf(r) == key }

  function GroupOf(events: seq<Record>, key: string): seq<Record> { Filter(events, HasKey(key)) }

  /** The records after which the verifier's sequence check is off. */
  function Unchecked(xs: seq<Record>): seq<Record> { Filter(xs, Negative()) }

  function Negative(): Record -> bool { (r: Record) => r.sequence == -1 }

  // ---------------------------------------------------------------- the verifier

  predicate BySequence(a: Record, b: Record) { a.sequence <= b.sequence }

  function SortBySequence(chain: seq<Record>): seq<Record> { Sort(chain, BySequence) }

  /** Its hash matches, it links to its predecessor, and its sequence is above the predecessor's unless that is -1. */
  predicate LinkOk(h: HashFunction, chain: seq<Record>, i: nat)
    requires i < |chain|
  {
    && chain[i].hash == h(PreimageOf(chain[i]))
    && chain[i].previousHash == (if i == 0 then None else Some(chain[i - 1].hash))
    && (i > 0 && chain[i - 1].sequence != -1 ==> chain[i - 1].sequence < chain[i].sequence)
  }

  predicate ChainOk(h: HashFunction, chain: seq<Record>) { forall i | 0 <= i < |chain| :: LinkOk(h, chain, i) }

  predicate Verifies(h: HashFunction, events: seq<Record>) {
    forall k | k in Keys(events) :: ChainOk(h, SortBySequence(GroupOf(events, k)))
  }

  function Keys(events: seq<Record>): set<string> { set r | r in events :: KeyOf(r) }

  /** The walk along one sorted chain. */
  method VerifyChain(h: HashFunction, chain: seq<Record>) returns (ok: bool)
    ensures ok <==> ChainOk(h, chain)
  {
    var expectedPrevHash: Option<Hash> := None;
    var seqCheck := -1;
    for i := 0 to |chain|
      invariant forall j | 0 <= j < i :: LinkOk(h, chain, j)
      invariant expectedPrevHash == if i == 0 then None else Some(chain[i - 1].hash)
      invariant seqCheck == if i == 0 then -1 else chain[i - 1].sequence
    {
      var evt := chain[i];
      if seqCheck != -1 && evt.sequence <= seqCheck { assert !LinkOk(h, chain, i); return false; }
      seqCheck := evt.sequence;
      if evt.previousHash != expectedPrevHash { assert !LinkOk(h, chain, i); return false; }
      var expectedHash := h(PreimageOf(evt));
      if evt.hash != expectedHash { assert !LinkOk(h, chain, i); return false; }
      expectedPrevHash := Some(expectedHash);
    }
    return true;
  }

  /** Every key is mapped to its records in order, and only keys that occur are mapped. */
  predicate IsGrouping(chains: map<string, seq<Record>>, events: seq<Record>) {
    && (forall k | k in chains :: chains[k] == GroupOf(events, k) && chains[k] != [])
    && (forall r | r in events :: KeyOf(r) in chains)
  }

  method GroupByKey(events: seq<Record>) returns (chains: map<string, seq<Record>>)
    ensures IsGrouping(chains, events)
  {
    chains := map[];
    for i := 0 to |events|
      invariant IsGrouping(chains, events[..i])
    {
      var key := KeyOf(events[i]);
      var chain := if key in chains then chains[key] else [];
      chain := chain + [events[i]];
      GroupingStep(chains, events, i, chain);
      chains := chains[key := chain];
    }
    assert events[..|events|] == events;
  }

  lemma GroupingStep(chains: map<string, seq<Record>>, events: seq<Record>, i: nat, chain: seq<Record>)
    requires i < |events| && IsGrouping(chains, events[..i])
    requires chain == (if KeyOf(events[i]) in chains then chains[KeyOf(events[i])] else []) + [events[i]]
    ensures IsGrouping(chains[KeyOf(events[i]) := chain], events[..i + 1])
  {
    var key := KeyOf(events[i]);
    GroupStep(events, i, key);
    if key !in chains { GroupIsEmpty(events[..i], key); }
    forall k | k in chains && k != key ensures chains[k] == GroupOf(events[..i + 1], k) { GroupStep(events, i, k); }
    assert events[..i + 1] == events[..i] + [events[i]];
  }

  lemma {:induction false} GroupIsEmpty(events: seq<Record>, key: string)
    requires forall r | r in events :: KeyOf(r) != key
    ensures GroupOf(events, key) == []
  {
    if events != [] { GroupIsEmpty(events[..|events| - 1], key); }
  }

  lemma GroupingKeys(chains: map<string, seq<Record>>, events: seq<Record>)
    requires IsGrouping(chains, events)
    ensures chains.Keys == Keys(events)
  {
    forall k | k in chains ensures k in Keys(events) {
      FilterMembers(events, HasKey(k));
      assert chains[k][0] in GroupOf(events, k);
    }
  }

  /** `verifyIncident` and `verifyLogs`: group into chains, sort each, walk each. */
  method Verify(h: HashFunction, events: seq<Record>) returns (ok: bool)
    ensures ok <==> Verifies(h, events)
  {
    var chains := GroupByKey(events);
    GroupingKeys(chains, events);
    var todo := chains.Keys;
    while todo != {}
      invariant todo <= chains.Keys
      invariant forall k | k in chains && k !in todo :: ChainOk(h, SortBySequence(chains[k]))
    {
      var k :| k in todo;
      var good := VerifyChain(h, SortBySequence(chains[k]));
      if !good {
        assert k in Keys(events) && !ChainOk(h, SortBySequence(GroupOf(events, k)));
        return false;
      }
      todo := todo - {k};
    }
    return true;
  }

  lemma GroupStep(events: seq<Record>, i: nat, k: string)
    requires i < |events|
    ensures GroupOf(events[..i + 1], k) == GroupOf(events[..i], k) + if KeyOf(events[i]) == k then [events[i]] else []
  {
    assert events[..i + 1][..i] == events[..i];
  }

  // ---------------------------------------------------------------- sorting

  predicate Sorted(xs: seq<Record>) { forall i, j | 0 <= i < j < |xs| :: xs[i].sequence <= xs[j].sequence }

  predicate Increasing(xs: seq<Record>) { forall i, j | 0 <= i < j < |xs| :: xs[i].sequence < xs[j].sequence }

  lemma SortSorts(xs: seq<Record>)
    ensures Sorted(SortBySequence(xs)) && multiset(SortBySequence(xs)) == multiset(xs)
  {
    SortOrders(xs, BySequence);
    var sorted := SortBySequence(xs);
    assert forall i, j | 0 <= i < j < |sorted| :: BySequence(sorted[i], sorted[j]);
  }

  lemma SortKeepsSorted(xs: seq<Record>)
    requires Sorted(xs)
    ensures SortBySequence(xs) == xs
  {
    SortKeepsOrdered(xs, BySequence);
  }

  /** Sorting is stable, so it keeps the relative order of the records with sequence -1. */
  lemma SortKeepsUnchecked(xs: seq<Record>)
    ensures Unchecked(SortBySequence(xs)) == Unchecked(xs)
  {
    SortIsStable(xs, BySequence, Negative());
  }

  lemma UncheckedSnoc(xs: seq<Record>, r: Record)
    ensures Unchecked(xs + [r]) == Unchecked(xs) + if r.sequence == -1 then [r] else []
  {
    FilterSnoc(xs, r, Negative());
  }

  lemma {:induction false} TwoUnchecked(xs: seq<Record>, i: nat, j: nat)
    requires i < j < |xs| && xs[i].sequence == -1 && xs[j].sequence == -1
    ensures |Unchecked(xs)| >= 2
  {
    var n := |xs| - 1;
    assert xs == xs[..n] + [xs[n]];
    UncheckedSnoc(xs[..n], xs[n]);
    if j < n {
      TwoUnchecked(xs[..n], i, j);
    } else {
      FilterMembers(xs[..n], Negative());
      assert xs[..n][i] in Unchecked(xs[..n]);
    }
  }

  /** A strictly increasing arrangement is the only sorted arrangement of its records. */
  lemma {:induction false} SortedIsUnique(a: seq<Record>, b: seq<Record>)
    requires Increasing(a) && Sorted(b) && multiset(a) == multiset(b)
    ensures a == b
  {
    assert |a| == |multiset(a)| == |multiset(b)| == |b|;
    if a != [] {
      SameLast(a, b);
      WithoutLast(a);
      WithoutLast(b);
      SortedIsUnique(a[..|a| - 1], b[..|b| - 1]);
    }
  }

  lemma WithoutLast(a: seq<Record>)
    requires a != []
    ensures a == a[..|a| - 1] + [a[|a| - 1]] && multiset(a[..|a| - 1]) == multiset(a) - multiset{a[|a| - 1]}
  {
    assert a == a[..|a| - 1] + [a[|a| - 1]];
  }

  lemma SameLast(a: seq<Record>, b: seq<Record>)
    requires Increasing(a) && Sorted(b) && multiset(a) == multiset(b) && |a| == |b| > 0
    ensures a[|a| - 1] == b[|b| - 1]
  {
    var n := |a| - 1;
    assert b[n] in multiset(a);
    assert a[n] in multiset(b);
    var i :| 0 <= i <= n && a[i] == b[n];
    var j :| 0 <= j <= n && b[j] == a[n];
    assert a[n].sequence <= b[n].sequence;
  }

  lemma {:induction false} FilterKeepsIncreasing(xs: seq<Record>, keep: Record -> bool)
    ensures Increasing(xs) ==> Increasing(Filter(xs, keep))
    ensures Sorted(xs) ==> Sorted(Filter(xs, keep))
  {
    if xs != [] {
      var front := xs[..|xs| - 1];
      FilterKeepsIncreasing(front, keep);
      FilterMembers(front, keep);
      var kept := Filter(front, keep);
      forall i | 0 <= i < |kept| ensures exists j | 0 <= j < |front| :: xs[j] == kept[i] {
        assert kept[i] in kept;
      }
    }
  }

  // ---------------------------------------------------------------- order independence

  /** No chain holds two records with sequence -1, the value that switches the sequence check off. */
  predicate OneUncheckedAtMost(events: seq<Record>) {
    forall k | k in Keys(events) :: |Unchecked(GroupOf(events, k))| <= 1
  }

  lemma OkChainsIncrease(h: HashFunction, chain: seq<Record>)
    requires ChainOk(h, chain) && Sorted(chain) && |Unchecked(chain)| <= 1
    ensures Increasing(chain)
  {
    forall i, j | 0 <= i < j < |chain| ensures chain[i].sequence < chain[j].sequence {
      assert LinkOk(h, chain, j);
      if chain[j - 1].sequence == -1 == chain[j].sequence { TwoUnchecked(chain, j - 1, j); }
    }
  }

  lemma ShuffleKeepsKeys(events: seq<Record>, shuffled: seq<Record>)
    requires multiset(events) == multiset(shuffled)
    ensures Keys(events) == Keys(shuffled)
  {
    forall r ensures r in events <==> r in shuffled { assert r in multiset(events) <==> r in multiset(shuffled); }
  }

  lemma OneChainTransfers(h: HashFunction, events: seq<Record>, shuffled: seq<Record>, k: string)
    requires multiset(events) == multiset(shuffled) && |Unchecked(GroupOf(events, k))| <= 1
    requires ChainOk(h, SortBySequence(GroupOf(events, k)))
    ensures ChainOk(h, SortBySequence(GroupOf(shuffled, k)))
  {
    var g, g' := GroupOf(events, k), GroupOf(shuffled, k);
    FilterShuffle(events, shuffled, HasKey(k));
    SortSorts(g);
    SortSorts(g');
    SortKeepsUnchecked(g);
    OkChainsIncrease(h, SortBySequence(g));
    SortedIsUnique(SortBySequence(g), SortBySequence(g'));
  }

  /** The verdict does not depend on input order or on how the chains are interleaved. */
  lemma VerdictIgnoresOrder(h: HashFunction, events: seq<Record>, shuffled: seq<Record>)
    requires multiset(events) == multiset(shuffled) && OneUncheckedAtMost(events)
    ensures Verifies(h, events) <==> Verifies(h, shuffled)
  {
    ShuffleKeepsKeys(events, shuffled);
    forall k | k in Keys(events)
      ensures ChainOk(h, SortBySequence(GroupOf(events, k))) <==> ChainOk(h, SortBySequence(GroupOf(shuffled, k)))
    {
      FilterShuffle(events, shuffled, HasKey(k));
      FilterShuffle(GroupOf(events, k), GroupOf(shuffled, k), Negative());
      if ChainOk(h, SortBySequence(GroupOf(events, k))) { OneChainTransfers(h, events, shuffled, k); }
      if ChainOk(h, SortBySequence(GroupOf(shuffled, k))) { OneChainTransfers(h, shuffled, events, k); }
    }
  }

  function Reverse(xs: seq<Record>): seq<Record> {
    if xs == [] then [] else [xs[|xs| - 1]] + Reverse(xs[..|xs| - 1])
  }

  lemma {:induction false} ReverseIsShuffle(xs: seq<Record>)
    ensures multiset(Reverse(xs)) == multiset(xs) && |Reverse(xs)| == |xs|
    ensures xs != [] ==> Reverse(xs)[|xs| - 1] == xs[0]
  {
    if xs != [] {
      ReverseIsShuffle(xs[..|xs| - 1]);
      assert xs == xs[..|xs| - 1] + [xs[|xs| - 1]];
    }
  }

  lemma {:induction false} FilterReverse(xs: seq<Record>, keep: Record -> bool)
    ensures Filter(Reverse(xs), keep) == Reverse(Filter(xs, keep))
  {
    if xs != [] {
      var front, last := xs[..|xs| - 1], xs[|xs| - 1];
      FilterReverse(front, keep);
      FilterAppend([last], Reverse(front), keep);
      var f := Filter(front, keep);
      assert [last][..0] == [];
      if keep(last) {
        assert Filter([last], keep) == [last];
        assert (f + [last])[..|f + [last]| - 1] == f;
        assert Reverse(f + [last]) == [last] + Reverse(f);
      } else {
        assert Filter([last], keep) == [];
        assert Filter(xs, keep) == f;
      }
    }
  }

  ghost predicate NoRepeats(xs: seq<Record>) { forall i, j | 0 <= i < j < |xs| :: xs[i] != xs[j] }

  lemma {:induction false} FilterKeepsDistinct(xs: seq<Record>, keep: Record -> bool)
    requires NoRepeats(xs)
    ensures NoRepeats(Filter(xs, keep))
  {
    if xs != [] {
      var front := xs[..|xs| - 1];
      FilterKeepsDistinct(front, keep);
      FilterMembers(front, keep);
      assert xs[|xs| - 1] !in front;
      forall i | 0 <= i < |Filter(front, keep)| ensures Filter(front, keep)[i] in front {
        assert Filter(front, keep)[i] in Filter(front, keep);
      }
    }
  }

  lemma {:induction false} RecordsDiffer(h: HashFunction, chain: seq<Record>, i: nat, j: nat)
    requires Injective(h) && ChainOk(h, chain) && i < j < |chain|
    ensures chain[i] != chain[j]
  {
    assert LinkOk(h, chain, i) && LinkOk(h, chain, j);
    if i > 0 && chain[i] == chain[j] {
      SameHashSameRecord(h, chain, i - 1, chain, j - 1);
      RecordsDiffer(h, chain, i - 1, j - 1);
    }
  }

  lemma SameHashSameRecord(h: HashFunction, a: seq<Record>, i: nat, b: seq<Record>, j: nat)
    requires Injective(h) && i < |a| && j < |b| && LinkOk(h, a, i) && LinkOk(h, b, j) && a[i].hash == b[j].hash
    ensures a[i] == b[j]
  {
    assert h(PreimageOf(a[i])) == h(PreimageOf(b[j]));
  }

  /** With an injective hash the links leave only one accepted arrangement of the same records. */
  lemma {:induction false} SameRecordsSameLink(h: HashFunction, a: seq<Record>, b: seq<Record>, i: nat)
    requires Injective(h) && ChainOk(h, a) && ChainOk(h, b) && multiset(a) == multiset(b) && |a| == |b| && i < |a|
    ensures a[i] == b[i]
  {
    assert b[i] in multiset(a);
    var m :| 0 <= m < |a| && a[m] == b[i];
    assert LinkOk(h, a, m) && LinkOk(h, b, i);
    if i > 0 {
      SameRecordsSameLink(h, a, b, i - 1);
      assert LinkOk(h, a, m - 1) && LinkOk(h, a, i - 1);
      SameHashSameRecord(h, a, m - 1, a, i - 1);
      if m < i { RecordsDiffer(h, a, m - 1, i - 1); }
      if i < m { RecordsDiffer(h, a, i - 1, m - 1); }
    }
  }

  /**
   * Two accepted lists of the same records hold the same sorted chains, so they agree on the order of unchecked
   * records.
   */
  lemma SameUnchecked(h: HashFunction, g: seq<Record>, g': seq<Record>)
    requires Injective(h) && multiset(g) == multiset(g')
    requires ChainOk(h, SortBySequence(g)) && ChainOk(h, SortBySequence(g'))
    ensures Unchecked(g) == Unchecked(g')
  {
    var a, b := SortBySequence(g), SortBySequence(g');
    SortSorts(g);
    SortSorts(g');
    assert |a| == |multiset(a)| == |multiset(b)| == |b|;
    forall i | 0 <= i < |a| ensures a[i] == b[i] { SameRecordsSameLink(h, a, b, i); }
    assert a == b;
    SortKeepsUnchecked(g);
    SortKeepsUnchecked(g');
  }

  /** Two records with sequence -1 in one chain: the reversed list is rejected. */
  lemma ReversalIsRejected(h: HashFunction, events: seq<Record>, k: string)
    requires Injective(h) && Verifies(h, events) && k in Keys(events) && |Unchecked(GroupOf(events, k))| >= 2
    ensures !Verifies(h, Reverse(events))
  {
    var g := GroupOf(events, k);
    ReverseIsShuffle(events);
    ShuffleKeepsKeys(events, Reverse(events));
    FilterReverse(events, HasKey(k));
    assert GroupOf(Reverse(events), k) == Reverse(g);
    ReverseIsShuffle(g);
    SortKeepsUnchecked(g);
    UncheckedPalindrome(h, SortBySequence(g), g);
    if ChainOk(h, SortBySequence(Reverse(g))) { SameUnchecked(h, g, Reverse(g)); }
  }

  lemma UncheckedPalindrome(h: HashFunction, a: seq<Record>, g: seq<Record>)
    requires Injective(h) && ChainOk(h, a) && Unchecked(a) == Unchecked(g) && |Unchecked(g)| >= 2
    ensures Unchecked(Reverse(g)) != Unchecked(g)
  {
    var u := Unchecked(g);
    FilterReverse(g, Negative());
    ReverseIsShuffle(u);
    forall i, j | 0 <= i < j < |a| ensures a[i] != a[j] { RecordsDiffer(h, a, i, j); }
    FilterKeepsDistinct(a, Negative());
    assert Unchecked(a)[0] != Unchecked(a)[|u| - 1];
  }

  /** A list that verifies does so in every order exactly when no chain holds two records with sequence -1. */
  lemma EveryOrderVerifiesIff(h: HashFunction, events: seq<Record>)
    requires Injective(h) && Verifies(h, events)
    ensures (forall shuffled | multiset(shuffled) == multiset(events) :: Verifies(h, shuffled)) <==>
      OneUncheckedAtMost(events)
  {
    if OneUncheckedAtMost(events) {
      forall shuffled | multiset(shuffled) == multiset(events) ensures Verifies(h, shuffled) {
        VerdictIgnoresOrder(h, events, shuffled);
      }
    } else {
      var k :| k in Keys(events) && |Unchecked(GroupOf(events, k))| > 1;
      ReversalIsRejected(h, events, k);
      ReverseIsShuffle(events);
      assert multiset(Reverse(events)) == multiset(events) && !Verifies(h, Reverse(events));
    }
  }

  lemma FilterPair(a: Record, b: Record, keep: Record -> bool)
    requires keep(a) && keep(b)
    ensures Filter([a, b], keep) == [a, b]
  {
    assert [a][..0] == [] && [a, b][..1] == [a];
    assert Filter([a], keep) == [a];
  }

  lemma PairVerifies(h: HashFunction, events: seq<Record>)
    requires |events| == 2 && KeyOf(events[0]) == KeyOf(events[1]) && Sorted(events) && ChainOk(h, events)
    ensures Verifies(h, events) && GroupOf(events, KeyOf(events[0])) == events && KeyOf(events[0]) in Keys(events)
  {
    var k := KeyOf(events[0]);
    assert events == [events[0], events[1]];
    FilterPair(events[0], events[1], HasKey(k));
    SortKeepsSorted(events);
    assert events[0] in events;
    assert forall x | x in Keys(events) :: x == k;
  }

  /** Such a list exists: it is accepted as it is and rejected in reverse. */
  lemma OrderCanMatter(h: HashFunction, c: Content) returns (events: seq<Record>)
    requires Injective(h)
    ensures Verifies(h, events) && !Verifies(h, Reverse(events))
  {
    var first := Record("p", "i", c, -1, None, h(Preimage("p", "i", c, -1, None)));
    var second := Record("p", "i", c, -1, Some(first.hash), h(Preimage("p", "i", c, -1, Some(first.hash))));
    events := [first, second];
    assert LinkOk(h, events, 0) && LinkOk(h, events, 1);
    PairVerifies(h, events);
    FilterPair(first, second, Negative());
    assert |Unchecked(events)| == 2;
    ReversalIsRejected(h, events, KeyOf(first));
  }

  // ---------------------------------------------------------------- tamper evidence

  /** With an injective hash, two accepted chains that end in the same hash are identical, record for record. */
  lemma {:induction false} SameEndSameChain(h: HashFunction, a: seq<Record>, b: seq<Record>)
    requires Injective(h) && ChainOk(h, a) && ChainOk(h, b) && a != [] && b != []
    requires a[|a| - 1].hash == b[|b| - 1].hash
    ensures a == b
  {
    var m, n := |a| - 1, |b| - 1;
    assert LinkOk(h, a, m) && LinkOk(h, b, n);
    SameHashSameRecord(h, a, m, b, n);
    assert a == a[..m] + [a[m]] && b == b[..n] + [b[n]];
    if m > 0 {
      assert a[m - 1].hash == b[n - 1].hash;
      PrefixOk(h, a, m);
      PrefixOk(h, b, n);
      SameEndSameChain(h, a[..m], b[..n]);
    }
  }

  lemma PrefixOk(h: HashFunction, chain: seq<Record>, n: nat)
    requires ChainOk(h, chain) && n <= |chain|
    ensures ChainOk(h, chain[..n])
  {
    forall i | 0 <= i < n ensures LinkOk(h, chain[..n], i) { assert LinkOk(h, chain, i); }
  }

  /** Two event lists that both verify and whose chains for a key end in the same hash hold the same chain for it. */
  lemma TamperEvidence(h: HashFunction, events: seq<Record>, other: seq<Record>, key: string)
    requires Injective(h) && Verifies(h, events) && Verifies(h, other) && key in Keys(events) && key in Keys(other)
    requires var a := SortBySequence(GroupOf(events, key)); var b := SortBySequence(GroupOf(other, key));
      a != [] && b != [] && a[|a| - 1].hash == b[|b| - 1].hash
    ensures SortBySequence(GroupOf(events, key)) == SortBySequence(GroupOf(other, key))
    ensures multiset(GroupOf(events, key)) == multiset(GroupOf(other, key))
  {
    SameEndSameChain(h, SortBySequence(GroupOf(events, key)), SortBySequence(GroupOf(other, key)));
    SortSorts(GroupOf(events, key));
    SortSorts(GroupOf(other, key));
  }
}
