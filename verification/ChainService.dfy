/**
 * What the two services that write chained records keep: the list of events, the last hash per
 * key and the sequence counters (one for everything in memory, one per key in the database
 * services). Every list of appends, from any number of callers, leaves a list the verifier accepts.
 */
module ChainService {
  import opened Common
  import opened HashChain
  import opened Lists

  datatype Numbering = Global | PerKey

  /** `counter` is used by `Global` numbering, `seqs` by `PerKey` numbering. */
  datatype Service = Service(
    numbering: Numbering, events: seq<Record>, lastHash: map<string, Hash>, counter: nat, seqs: map<string, int>)

  function Empty(numbering: Numbering): Service { Service(numbering, [], map[], 0, map[]) }

  function NextSequence(s: Service, key: string): int {
    if s.numbering == Global then s.counter + 1 else (if key in s.seqs then s.seqs[key] else 0) + 1
  }

  function Link(h: HashFunction, s: Service, projectId: string, group: string, content: Content): Record {
    var key := Key(projectId, group);
    var sequence := NextSequence(s, key);
    var previousHash := if key in s.lastHash then Some(s.lastHash[key]) else None;
    Record(projectId, group, content, sequence, previousHash,
      h(Preimage(projectId, group, content, sequence, previousHash)))
  }

  function Append(h: HashFunction, s: Service, projectId: string, group: string, content: Content): Service {
    var r := Link(h, s, projectId, group, content);
    var key := Key(projectId, group);
    s.(
      events := s.events + [r],
      lastHash := s.lastHash[key := r.hash],
      counter := if s.numbering == Global then s.counter + 1 else s.counter,
      seqs := if s.numbering == PerKey then s.seqs[key := r.sequence] else s.seqs)
  }

  // ---------------------------------------------------------------- what every append keeps

  /** The chain under `k` is accepted in the order of its appends, and the service remembers where it ends. */
  predicate KeySound(h: HashFunction, s: Service, k: string) {
    var g := GroupOf(s.events, k);
    && ChainOk(h, g) && Increasing(g)
    && (k in s.lastHash <==> g != [])
    && (s.numbering == PerKey ==> (k in s.seqs <==> g != []))
    && (g != [] ==>
      && g[0].sequence >= 1
      && s.lastHash[k] == g[|g| - 1].hash
      && (if s.numbering == PerKey then s.seqs[k] == g[|g| - 1].sequence else g[|g| - 1].sequence <= s.counter))
  }

  ghost predicate Sound(h: HashFunction, s: Service) { forall k :: KeySound(h, s, k) }

  lemma EmptyIsSound(h: HashFunction, numbering: Numbering)
    ensures Sound(h, Empty(numbering))
  {
    forall k ensures KeySound(h, Empty(numbering), k) { assert GroupOf([], k) == []; }
  }

  lemma GroupSnoc(events: seq<Record>, r: Record, k: string)
    ensures GroupOf(events + [r], k) == GroupOf(events, k) + if KeyOf(r) == k then [r] else []
  {
    FilterSnoc(events, r, HasKey(k));
  }

  lemma AppendKeepsKey(h: HashFunction, s: Service, projectId: string, group: string, content: Content)
    requires KeySound(h, s, Key(projectId, group))
    ensures KeySound(h, Append(h, s, projectId, group, content), Key(projectId, group))
  {
    var key := Key(projectId, group);
    var r := Link(h, s, projectId, group, content);
    var g := GroupOf(s.events, key);
    GroupSnoc(s.events, r, key);
    assert GroupOf(Append(h, s, projectId, group, content).events, key) == g + [r];
    assert g != [] ==> g[|g| - 1].sequence < r.sequence;
    forall i | 0 <= i < |g + [r]| ensures LinkOk(h, g + [r], i) {
      if i < |g| { assert LinkOk(h, g, i); }
    }
  }

  lemma AppendKeepsSound(h: HashFunction, s: Service, projectId: string, group: string, content: Content)
    requires Sound(h, s)
    ensures Sound(h, Append(h, s, projectId, group, content))
  {
    var s' := Append(h, s, projectId, group, content);
    forall k ensures KeySound(h, s', k) {
      if k == Key(projectId, group) {
        AppendKeepsKey(h, s, projectId, group, content);
      } else {
        GroupSnoc(s.events, Link(h, s, projectId, group, content), k);
        assert GroupOf(s'.events, k) == GroupOf(s.events, k);
        assert KeySound(h, s, k);
      }
    }
  }

  lemma {:induction false} PositiveIsChecked(g: seq<Record>)
    requires forall i | 0 <= i < |g| :: g[i].sequence >= 1
    ensures Unchecked(g) == []
  {
    if g != [] { PositiveIsChecked(g[..|g| - 1]); }
  }

  /** Whatever a sound service holds verifies, in whatever order it is handed to the verifier. */
  lemma SoundVerifies(h: HashFunction, s: Service, shuffled: seq<Record>)
    requires Sound(h, s) && multiset(shuffled) == multiset(s.events)
    ensures Verifies(h, shuffled)
  {
    forall k | k in Keys(s.events)
      ensures ChainOk(h, SortBySequence(GroupOf(s.events, k))) && |Unchecked(GroupOf(s.events, k))| <= 1
    {
      assert KeySound(h, s, k);
      var g := GroupOf(s.events, k);
      SortKeepsSorted(g);
      PositiveIsChecked(g);
    }
    VerdictIgnoresOrder(h, s.events, shuffled);
  }
}
