/**
 * Restart of the incident service. A fresh service is initialised from what the table holds of its
 * project: the accepted records without those that skip-duplicates dropped for a repeated id. When does it
 * answer as the old service would, and when do old and new records stay acceptable to the verifier?
 */
module Restart {
  import opened Common
  import opened HashChain
  import opened Lists
  import opened ChainService
  import opened Incidents
  import opened StoredChains
  import Queue = DurableQueue

  // ---------------------------------------------------------------- what initialisation remembers

  /** What the next append under a key depends on. */
  function AtKey(s: Service, k: string): (Option<int>, Option<Hash>) {
    (if k in s.seqs then Some(s.seqs[k]) else None, if k in s.lastHash then Some(s.lastHash[k]) else None)
  }

  function EndOf(chain: seq<Record>): (Option<int>, Option<Hash>) {
    if chain == [] then (None, None) else (Some(chain[|chain| - 1].sequence), Some(chain[|chain| - 1].hash))
  }

  lemma RememberIs(s: Service, r: Record, g: seq<Record>, k: string)
    requires AtKey(s, k) == EndOf(g)
    ensures AtKey(Remember(s, r), k) == EndOf(g + if KeyOf(r) == k then [r] else [])
  {
    assert g + [] == g;
  }

  lemma InitializeSnoc(s: Service, rows: seq<Record>, r: Record)
    ensures AfterInitialize(s, rows + [r]) == Remember(AfterInitialize(s, rows), r)
  {
    assert (rows + [r])[..|rows|] == rows;
  }

  lemma FreshHolds(rows: seq<Record>)
    ensures AfterInitialize(Empty(PerKey), rows).events == rows
      && AfterInitialize(Empty(PerKey), rows).numbering == PerKey
  {
    assert [] + rows == rows;
  }

  lemma {:induction false} InitializeRemembersEnds(rows: seq<Record>, k: string)
    ensures AtKey(AfterInitialize(Empty(PerKey), rows), k) == EndOf(GroupOf(rows, k))
  {
    if rows != [] {
      var front, last := rows[..|rows| - 1], rows[|rows| - 1];
      InitializeRemembersEnds(front, k);
      RememberIs(AfterInitialize(Empty(PerKey), front), last, GroupOf(front, k), k);
      InitializeSnoc(Empty(PerKey), front, last);
      GroupSnoc(front, last, k);
      assert rows == front + [last];
    }
  }

  // ---------------------------------------------------------------- what is fetched

  /** What `findMany` returns for a project: rows of the project, by sequence, ties in any order. */
  ghost predicate ProjectRows(s: Service, p: string, rows: seq<Record>) {
    Sorted(rows) && Fetched(s, rows) && forall r | r in rows :: r.projectId == p
  }

  // ---------------------------------------------------------------- what two services agree on

  function LastOf(events: seq<Record>): Option<Record> { if events == [] then None else Some(events[|events| - 1]) }

  predicate SameAt(p: string, s: Service, f: Service, i: string) {
    && AtKey(s, Key(p, i)) == AtKey(f, Key(p, i))
    && LastOf(Filter(s.events, Under(p, i))) == LastOf(Filter(f.events, Under(p, i)))
  }

  /** The incident's events are held in sequence order, none above the remembered sequence. */
  predicate InOrderAt(p: string, s: Service, i: string) {
    var w := Filter(s.events, Under(p, i));
    Sorted(w) && (w != [] ==> Key(p, i) in s.seqs && w[|w| - 1].sequence <= s.seqs[Key(p, i)])
  }

  ghost predicate InOrder(p: string, s: Service) { s.numbering == PerKey && forall i :: InOrderAt(p, s, i) }

  /** Two services that agree, for every incident of the project, on all that a further call depends on. */
  ghost predicate SameFor(p: string, s: Service, f: Service) {
    InOrder(p, s) && InOrder(p, f) && forall i :: SameAt(p, s, f, i)
  }

  /** The newest record under the incident's key is among the project's rows. */
  predicate OursAt(s: Service, rows: seq<Record>, p: string, i: string) {
    var g := GroupOf(s.events, Key(p, i));
    g == [] || g[|g| - 1] in rows
  }

  ghost predicate NewestIsOurs(s: Service, rows: seq<Record>, p: string) { forall i :: OursAt(s, rows, p, i) }

  lemma KeyIsInjective(p: string, i: string, j: string)
    requires Key(p, i) == Key(p, j)
    ensures i == j
  {
    assert Key(p, i)[|p| + 1..] == i && Key(p, j)[|p| + 1..] == j;
  }

  lemma KeptIsOlder(g: seq<Record>, keep: Record -> bool)
    requires Increasing(g) && g != [] && !keep(g[|g| - 1])
    ensures var kept := Filter(g, keep); kept == [] || kept[|kept| - 1].sequence < g[|g| - 1].sequence
  {
    var kept := Filter(g, keep);
    FilterMembers(g, keep);
    if kept != [] {
      var r := kept[|kept| - 1];
      assert r in kept;
      var j :| 0 <= j < |g| && g[j] == r;
      assert g[j].sequence < g[|g| - 1].sequence;
    }
  }

  lemma RestartEnds(h: HashFunction, s: Service, p: string, rows: seq<Record>, k: string)
    requires Sound(h, s) && s.numbering == PerKey && ProjectRows(s, p, rows)
    ensures AtKey(s, k) == EndOf(GroupOf(s.events, k))
    ensures AtKey(AfterInitialize(Empty(PerKey), rows), k) == EndOf(Filter(GroupOf(s.events, k), In(rows)))
  {
    assert KeySound(h, s, k);
    InitializeRemembersEnds(rows, k);
    RowsOfKey(h, s, rows, k);
  }

  lemma EndIsKeptIff(h: HashFunction, s: Service, rows: seq<Record>, p: string, i: string)
    requires Sound(h, s)
    ensures var g := GroupOf(s.events, Key(p, i)); EndOf(g) == EndOf(Filter(g, In(rows))) <==> OursAt(s, rows, p, i)
    ensures !OursAt(s, rows, p, i) ==>
      var g := GroupOf(s.events, Key(p, i));
      var kept := Filter(g, In(rows));
      g[|g| - 1].sequence >= 1 && (kept != [] ==> kept[|kept| - 1].sequence < g[|g| - 1].sequence)
  {
    assert KeySound(h, s, Key(p, i));
    var g := GroupOf(s.events, Key(p, i));
    if !OursAt(s, rows, p, i) {
      KeptIsOlder(g, In(rows));
      assert g[0].sequence <= g[|g| - 1].sequence;
    }
  }

  /** The last event of an incident, when the newest record under its key is the project's own. */
  lemma NewestIsLast(g: seq<Record>, p: string, i: string)
    requires g == [] || (g[|g| - 1].projectId == p && KeyOf(g[|g| - 1]) == Key(p, i))
    ensures LastOf(Filter(g, Under(p, i))) == LastOf(g)
  {
    if g != [] { KeyIsInjective(p, i, g[|g| - 1].group); }
  }

  lemma GroupUnder(events: seq<Record>, p: string, i: string)
    ensures Filter(GroupOf(events, Key(p, i)), Under(p, i)) == Filter(events, Under(p, i))
    ensures forall r | r in GroupOf(events, Key(p, i)) :: KeyOf(r) == Key(p, i)
  {
    FilterTwice(events, HasKey(Key(p, i)), Under(p, i));
    FilterMembers(events, HasKey(Key(p, i)));
  }

  lemma LastsAgree(h: HashFunction, s: Service, p: string, rows: seq<Record>, i: string)
    requires Sound(h, s) && ProjectRows(s, p, rows) && OursAt(s, rows, p, i)
    ensures LastOf(Filter(s.events, Under(p, i))) == LastOf(Filter(rows, Under(p, i)))
  {
    var g := GroupOf(s.events, Key(p, i));
    GroupUnder(s.events, p, i);
    GroupUnder(rows, p, i);
    RowsOfKey(h, s, rows, Key(p, i));
    if g != [] {
      assert g[|g| - 1] in g;
      assert GroupOf(rows, Key(p, i)) == Filter(g[..|g| - 1], In(rows)) + [g[|g| - 1]];
    }
    NewestIsLast(g, p, i);
    NewestIsLast(GroupOf(rows, Key(p, i)), p, i);
  }

  /** The fresh service knows the end of a chain exactly when its newest record is among the rows. */
  lemma RestartKnowsEndIff(h: HashFunction, s: Service, p: string, f: Service, i: string, rows: seq<Record>)
    requires Sound(h, s) && s.numbering == PerKey && ProjectRows(s, p, rows)
      && f == AfterInitialize(Empty(PerKey), rows)
    ensures SameAt(p, s, f, i) <==> OursAt(s, rows, p, i)
  {
    FreshHolds(rows);
    RestartEnds(h, s, p, rows, Key(p, i));
    EndIsKeptIff(h, s, rows, p, i);
    if OursAt(s, rows, p, i) { LastsAgree(h, s, p, rows, i); }
  }

  /** Otherwise the fresh service hands out a sequence number that is not above the newest one. */
  lemma RestartReusesSequence(h: HashFunction, s: Service, p: string, f: Service, i: string, rows: seq<Record>)
    requires Sound(h, s) && s.numbering == PerKey && ProjectRows(s, p, rows)
      && f == AfterInitialize(Empty(PerKey), rows)
    requires !OursAt(s, rows, p, i)
    ensures NextSequence(f, Key(p, i)) < NextSequence(s, Key(p, i))
  {
    RestartEnds(h, s, p, rows, Key(p, i));
    EndIsKeptIff(h, s, rows, p, i);
    var ends := (AtKey(s, Key(p, i)), AtKey(f, Key(p, i)));
    assert NextSequence(f, Key(p, i)) == (if ends.1.0.Some? then ends.1.0.value else 0) + 1;
    assert NextSequence(s, Key(p, i)) == (if ends.0.0.Some? then ends.0.0.value else 0) + 1;
  }

  lemma InOrderFrom(g: seq<Record>, p: string, i: string)
    requires Sorted(g)
    ensures var w := Filter(g, Under(p, i));
      Sorted(w) && (w != [] ==> g != [] && w[|w| - 1].sequence <= g[|g| - 1].sequence)
  {
    var w := Filter(g, Under(p, i));
    FilterKeepsIncreasing(g, Under(p, i));
    FilterMembers(g, Under(p, i));
    if w != [] {
      assert w[|w| - 1] in w;
      var j :| 0 <= j < |g| && g[j] == w[|w| - 1];
      assert j < |g| - 1 ==> g[j].sequence <= g[|g| - 1].sequence;
    }
  }

  /** A service whose counter stands at the end of a sorted chain. */
  lemma ChainIsInOrder(s: Service, p: string, i: string)
    requires var g := GroupOf(s.events, Key(p, i)); Sorted(g) && AtKey(s, Key(p, i)) == EndOf(g)
    ensures InOrderAt(p, s, i)
  {
    GroupUnder(s.events, p, i);
    InOrderFrom(GroupOf(s.events, Key(p, i)), p, i);
  }

  lemma SoundIsInOrder(h: HashFunction, s: Service, p: string, i: string)
    requires Sound(h, s) && s.numbering == PerKey
    ensures InOrderAt(p, s, i)
  {
    assert KeySound(h, s, Key(p, i));
    ChainIsInOrder(s, p, i);
  }

  lemma FreshIsInOrder(rows: seq<Record>, p: string, i: string)
    requires Sorted(rows)
    ensures InOrderAt(p, AfterInitialize(Empty(PerKey), rows), i)
  {
    FreshHolds(rows);
    FilterKeepsIncreasing(rows, HasKey(Key(p, i)));
    InitializeRemembersEnds(rows, Key(p, i));
    ChainIsInOrder(AfterInitialize(Empty(PerKey), rows), p, i);
  }

  lemma BothInOrder(h: HashFunction, s: Service, p: string, rows: seq<Record>)
    requires Sound(h, s) && s.numbering == PerKey && Sorted(rows)
    ensures InOrder(p, s) && InOrder(p, AfterInitialize(Empty(PerKey), rows))
  {
    FreshHolds(rows);
    forall i ensures InOrderAt(p, s, i) { SoundIsInOrder(h, s, p, i); }
    forall i ensures InOrderAt(p, AfterInitialize(Empty(PerKey), rows), i) { FreshIsInOrder(rows, p, i); }
  }

  lemma RestartIsSameIff(h: HashFunction, s: Service, p: string, f: Service, rows: seq<Record>)
    requires Sound(h, s) && s.numbering == PerKey && ProjectRows(s, p, rows)
      && f == AfterInitialize(Empty(PerKey), rows)
    ensures SameFor(p, s, f) <==> NewestIsOurs(s, rows, p)
  {
    BothInOrder(h, s, p, rows);
    forall i ensures SameAt(p, s, f, i) <==> OursAt(s, rows, p, i) { RestartKnowsEndIff(h, s, p, f, i, rows); }
  }

  // ---------------------------------------------------------------- continuations

  lemma AppendInOrder(h: HashFunction, s: Service, p: string, j: string, content: Content, i: string)
    requires s.numbering == PerKey && InOrderAt(p, s, i)
    ensures InOrderAt(p, Append(h, s, p, j, content), i)
  {
    FilterSnoc(s.events, Link(h, s, p, j, content), Under(p, i));
    if i != j && Key(p, i) == Key(p, j) { KeyIsInjective(p, i, j); }
    SortedSnoc(Filter(s.events, Under(p, i)), Link(h, s, p, j, content));
  }

  lemma SortedSnoc(w: seq<Record>, r: Record)
    requires Sorted(w)
    ensures w == [] || w[|w| - 1].sequence <= r.sequence ==> Sorted(w + [r])
  {
    assert forall i | 0 <= i < |w| :: w[i].sequence <= w[|w| - 1].sequence;
  }

  lemma AppendSameEnd(h: HashFunction, s: Service, f: Service, p: string, j: string, content: Content, k: string)
    requires s.numbering == f.numbering == PerKey && AtKey(s, Key(p, j)) == AtKey(f, Key(p, j))
      && AtKey(s, k) == AtKey(f, k)
    ensures Link(h, s, p, j, content) == Link(h, f, p, j, content)
    ensures AtKey(Append(h, s, p, j, content), k) == AtKey(Append(h, f, p, j, content), k)
  {
  }

  lemma SnocSameLast(xs: seq<Record>, ys: seq<Record>, r: Record, keep: Record -> bool)
    requires LastOf(Filter(xs, keep)) == LastOf(Filter(ys, keep))
    ensures LastOf(Filter(xs + [r], keep)) == LastOf(Filter(ys + [r], keep))
  {
    FilterSnoc(xs, r, keep);
    FilterSnoc(ys, r, keep);
    assert Filter(xs, keep) + [] == Filter(xs, keep) && Filter(ys, keep) + [] == Filter(ys, keep);
  }

  lemma AppendSameAt(h: HashFunction, s: Service, f: Service, p: string, j: string, content: Content, i: string)
    requires s.numbering == f.numbering == PerKey && SameAt(p, s, f, j) && SameAt(p, s, f, i)
    ensures SameAt(p, Append(h, s, p, j, content), Append(h, f, p, j, content), i)
  {
    AppendSameEnd(h, s, f, p, j, content, Key(p, i));
    SnocSameLast(s.events, f.events, Link(h, s, p, j, content), Under(p, i));
  }

  lemma AppendStaysSame(h: HashFunction, s: Service, f: Service, p: string, j: string, content: Content)
    requires SameFor(p, s, f)
    ensures Link(h, s, p, j, content) == Link(h, f, p, j, content)
    ensures SameFor(p, Append(h, s, p, j, content), Append(h, f, p, j, content))
  {
    assert SameAt(p, s, f, j);
    var s', f' := Append(h, s, p, j, content), Append(h, f, p, j, content);
    forall i ensures InOrderAt(p, s', i) && InOrderAt(p, f', i) && SameAt(p, s', f', i) {
      assert InOrderAt(p, s, i) && InOrderAt(p, f, i) && SameAt(p, s, f, i);
      AppendInOrder(h, s, p, j, content, i);
      AppendInOrder(h, f, p, j, content, i);
      AppendSameAt(h, s, f, p, j, content, i);
    }
  }

  lemma EventsAre(s: Service, p: string, i: string)
    requires InOrderAt(p, s, i)
    ensures EventsOf(s, p, i) == Filter(s.events, Under(p, i))
  {
    SortKeepsSorted(Filter(s.events, Under(p, i)));
  }

  lemma StepStaysSame(h: HashFunction, redact: Redaction, s: Service, f: Service, p: string, c: Call)
    requires HoldsIncidents(s.events) && HoldsIncidents(f.events) && SameFor(p, s, f) && c.projectId == p
    ensures Step(h, redact, s, c).1 == Step(h, redact, f, c).1
    ensures SameFor(p, Step(h, redact, s, c).0, Step(h, redact, f, c).0)
  {
    assert SameAt(p, s, f, c.incidentId) && InOrderAt(p, s, c.incidentId) && InOrderAt(p, f, c.incidentId);
    EventsAre(s, p, c.incidentId);
    EventsAre(f, p, c.incidentId);
    assert LastOf(EventsOf(s, p, c.incidentId)) == LastOf(EventsOf(f, p, c.incidentId));
    StepsAgree(h, redact, s, f, c);
    var r := Step(h, redact, s, c);
    if r.1.Ok? { AppendStaysSame(h, s, f, p, c.incidentId, r.1.value.content); }
  }

  /** Services that agree on the last event and on the end of the chain answer alike and append the same content. */
  lemma StepsAgree(h: HashFunction, redact: Redaction, s: Service, f: Service, c: Call)
    requires HoldsIncidents(s.events) && HoldsIncidents(f.events) && s.numbering == f.numbering == PerKey
    requires AtKey(s, Key(c.projectId, c.incidentId)) == AtKey(f, Key(c.projectId, c.incidentId))
    requires LastOf(EventsOf(s, c.projectId, c.incidentId)) == LastOf(EventsOf(f, c.projectId, c.incidentId))
    ensures Step(h, redact, s, c).1 == Step(h, redact, f, c).1
  {
    match c
    case OpenIncident(p, _, _, _, _, _, i, _, _) => AppendSameEnd(h, s, f, p, i, OpenedContent(redact, c), Key(p, i));
    case Mitigate(p, i, claim, evidence, id, timestamp) =>
      MovesAgree(h, redact, s, f, p, i, Mitigated, claim, evidence, id, timestamp);
    case Resolve(p, i, claim, evidence, id, timestamp) =>
      MovesAgree(h, redact, s, f, p, i, Resolved, claim, evidence, id, timestamp);
  }

  lemma MovesAgree(
    h: HashFunction, redact: Redaction, s: Service, f: Service, p: string, i: string, to: IncidentState, claim: string,
    evidence: Option<string>, id: string, timestamp: int)
    requires HoldsIncidents(s.events) && HoldsIncidents(f.events) && s.numbering == f.numbering == PerKey
    requires AtKey(s, Key(p, i)) == AtKey(f, Key(p, i)) && LastOf(EventsOf(s, p, i)) == LastOf(EventsOf(f, p, i))
    ensures Move(h, redact, s, p, i, to, claim, evidence, id, timestamp).1 ==
      Move(h, redact, f, p, i, to, claim, evidence, id, timestamp).1
  {
    var es := EventsOf(s, p, i);
    if es != [] {
      LastState(s, p, i);
      AppendSameEnd(h, s, f, p, i, MovedContent(redact, es[|es| - 1].content, to, claim, evidence, id, timestamp),
        Key(p, i));
    }
  }

  lemma {:induction false} ContinuationIsSame(
      h: HashFunction, redact: Redaction, s: Service, f: Service, p: string, calls: seq<Call>)
    requires HoldsIncidents(s.events) && HoldsIncidents(f.events) && SameFor(p, s, f)
    requires forall c | c in calls :: c.projectId == p
    ensures Outcomes(h, redact, s, calls) == Outcomes(h, redact, f, calls)
    ensures SameFor(p, Run(h, redact, s, calls), Run(h, redact, f, calls))
  {
    if calls != [] {
      var n := |calls| - 1;
      ContinuationIsSame(h, redact, s, f, p, calls[..n]);
      StepStaysSame(h, redact, Run(h, redact, s, calls[..n]), Run(h, redact, f, calls[..n]), p, calls[n]);
    }
  }

  /** Every continuation for the project is answered by the fresh service as the old one would. */
  ghost predicate Invisible(h: HashFunction, redact: Redaction, s: Service, p: string, rows: seq<Record>)
    requires HoldsIncidents(s.events) && HoldsIncidents(rows)
  {
    forall calls: seq<Call> | forall c | c in calls :: c.projectId == p ::
      Outcomes(h, redact, s, calls) == Outcomes(h, redact, AfterInitialize(Empty(PerKey), rows), calls)
  }

  /**
   * Restart is invisible, exactly when the newest record under each of the project's keys is among the rows fetched for
   * it.
   */
  lemma RestartIsInvisibleIff(h: HashFunction, redact: Redaction, s: Service, p: string, rows: seq<Record>)
    requires HoldsIncidents(s.events) && HoldsIncidents(rows)
    requires Sound(h, s) && s.numbering == PerKey && ProjectRows(s, p, rows)
    ensures NewestIsOurs(s, rows, p) <==> Invisible(h, redact, s, p, rows)
  {
    var f := AfterInitialize(Empty(PerKey), rows);
    RestartIsSameIff(h, s, p, f, rows);
    if NewestIsOurs(s, rows, p) {
      forall calls: seq<Call> | forall c | c in calls :: c.projectId == p
        ensures Outcomes(h, redact, s, calls) == Outcomes(h, redact, f, calls)
      {
        ContinuationIsSame(h, redact, s, f, p, calls);
      }
    } else {
      var i :| !OursAt(s, rows, p, i);
      var calls := DistinguishingCall(h, redact, s, p, rows, i);
      assert forall c | c in calls :: c.projectId == p;
      assert Outcomes(h, redact, s, calls) != Outcomes(h, redact, f, calls);
    }
  }

  lemma DistinguishingCall(h: HashFunction, redact: Redaction, s: Service, p: string, rows: seq<Record>, i: string)
    returns (calls: seq<Call>)
    requires HoldsIncidents(s.events) && HoldsIncidents(rows)
    requires Sound(h, s) && s.numbering == PerKey && ProjectRows(s, p, rows)
    requires !OursAt(s, rows, p, i)
    ensures forall c | c in calls :: c.projectId == p
    ensures Outcomes(h, redact, s, calls) != Outcomes(h, redact, AfterInitialize(Empty(PerKey), rows), calls)
  {
    var f := AfterInitialize(Empty(PerKey), rows);
    var c := OpenIncident(p, "", "", "", None, None, i, "", 0);
    calls := [c];
    RestartReusesSequence(h, s, p, f, i, rows);
    assert Step(h, redact, s, c).1.value.sequence != Step(h, redact, f, c).1.value.sequence;
    assert calls[..0] == [];
    assert Outcomes(h, redact, s, calls)[0] == Step(h, redact, s, c).1;
    assert Outcomes(h, redact, f, calls)[0] == Step(h, redact, f, c).1;
  }

  // ---------------------------------------------------------------- after a draining flush

  /** The rows of the project that the table holds, by sequence. */
  predicate Selects(table: seq<Record>, p: string, rows: seq<Record>) {
    Sorted(rows) && multiset(rows) == multiset(Filter(table, InProject(p)))
  }

  lemma SelectedMembers(table: seq<Record>, p: string, rows: seq<Record>)
    requires Selects(table, p, rows)
    ensures forall r :: r in rows <==> r in table && r.projectId == p
  {
    FilterMembers(table, InProject(p));
    forall r ensures r in rows <==> r in Filter(table, InProject(p)) {
      assert r in multiset(rows) <==> r in multiset(Filter(table, InProject(p)));
    }
  }

  /** The service has written or read the project's records of the list. */
  predicate Knows(s: Service, p: string, records: seq<Record>) {
    forall r | r in records && r.projectId == p :: r in s.events
  }

  lemma SelectedIsFetched(s: Service, table: seq<Record>, p: string, rows: seq<Record>)
    requires Queue.DistinctIds(table) && Knows(s, p, table) && Selects(table, p, rows)
    ensures ProjectRows(s, p, rows)
  {
    SelectedMembers(table, p, rows);
    DistinctIdsNoneTwice(table);
    FilterCounts(table, InProject(p));
  }

  /** The newest record under the incident's key is the project's own and the first with its id, table rows first. */
  predicate OursAndFirstAt(s: Service, records: seq<Record>, p: string, i: string) {
    var g := GroupOf(s.events, Key(p, i));
    g == [] || (g[|g| - 1].projectId == p && Queue.OccursFirst(records, g[|g| - 1]))
  }

  lemma FlushedKnows(
    s: Service, p: string, o: Queue.Options, table: seq<Record>, written: seq<Record>, steps: seq<Queue.Step>,
    last: Queue.Step, t: nat, rows: seq<Record>)
    requires Drains(o, table, written, steps, last, t) && Knows(s, p, table + written)
    requires Selects(TableAfter(o, table, steps, last).rows, p, rows)
    ensures ProjectRows(s, p, rows)
    ensures forall r :: r in rows <==> r.projectId == p && Queue.OccursFirst(table + written, r)
  {
    var stored := TableAfter(o, table, steps, last).rows;
    DrainedTable(o, table, written, steps, last, t);
    SelectedMembers(stored, p, rows);
    forall r | r in stored && r.projectId == p ensures r in s.events {
      var n :| 0 <= n < |table + written| && (table + written)[n] == r && Queue.FirstWithItsId(table + written, n);
      assert r in table + written;
    }
    SelectedIsFetched(s, stored, p, rows);
  }

  /**
   * The whole story, for any service and for any table it found at the start, filled by earlier services: once a
   * flush has returned normally the table holds its old rows and the first new record of each new id, and a restart
   * from it is invisible exactly when each newest record is the project's own and the first with its id.
   */
  lemma FlushedRestartIsInvisibleIff(
    h: HashFunction, redact: Redaction, s: Service, p: string, rows: seq<Record>, o: Queue.Options, table: seq<Record>,
    written: seq<Record>, steps: seq<Queue.Step>, last: Queue.Step, t: nat)
    requires HoldsIncidents(s.events) && HoldsIncidents(rows) && Sound(h, s) && s.numbering == PerKey
    requires Drains(o, table, written, steps, last, t) && Knows(s, p, table + written)
    requires Selects(TableAfter(o, table, steps, last).rows, p, rows)
    ensures TableAfter(o, table, steps, last).rows == Queue.InsertSkip(table, written)
    ensures Invisible(h, redact, s, p, rows) <==> forall i :: OursAndFirstAt(s, table + written, p, i)
  {
    DrainedTable(o, table, written, steps, last, t);
    FlushedKnows(s, p, o, table, written, steps, last, t, rows);
    RestartIsInvisibleIff(h, redact, s, p, rows);
    forall i ensures OursAt(s, rows, p, i) <==> OursAndFirstAt(s, table + written, p, i) {}
  }

  // ---------------------------------------------------------------- what the verifier says after a restart

  lemma KeptStartsLater(g: seq<Record>, keep: Record -> bool)
    requires Increasing(g)
    ensures var kept := Filter(g, keep); kept != [] ==> g != [] && g[0].sequence <= kept[0].sequence
  {
    var kept := Filter(g, keep);
    FilterMembers(g, keep);
    if kept != [] {
      assert kept[0] in kept;
      var j :| 0 <= j < |g| && g[j] == kept[0];
      assert j > 0 ==> g[0].sequence < g[j].sequence;
    }
  }

  lemma RestartKeySound(h: HashFunction, s: Service, p: string, rows: seq<Record>, k: string)
    requires Sound(h, s) && s.numbering == PerKey && ProjectRows(s, p, rows)
      && ChainOk(h, Filter(GroupOf(s.events, k), In(rows)))
    ensures KeySound(h, AfterInitialize(Empty(PerKey), rows), k)
  {
    var g, f := GroupOf(s.events, k), AfterInitialize(Empty(PerKey), rows);
    assert KeySound(h, s, k);
    FreshHolds(rows);
    InitializeRemembersEnds(rows, k);
    RowsOfKey(h, s, rows, k);
    FilterKeepsIncreasing(g, In(rows));
    KeptStartsLater(g, In(rows));
    EndMakesSound(h, f, Filter(g, In(rows)), k);
  }

  lemma EndMakesSound(h: HashFunction, f: Service, g: seq<Record>, k: string)
    requires GroupOf(f.events, k) == g && f.numbering == PerKey && AtKey(f, k) == EndOf(g)
    requires ChainOk(h, g) && Increasing(g) && (g != [] ==> g[0].sequence >= 1)
    ensures KeySound(h, f, k)
  {
  }

  /** Whatever the restarted service goes on to write, all its records together are acceptable in every order. */
  ghost predicate AlwaysVerifies(h: HashFunction, redact: Redaction, rows: seq<Record>)
    requires HoldsIncidents(rows)
  {
    forall calls: seq<Call>, shuffled: seq<Record> |
      multiset(shuffled) == multiset(Run(h, redact, AfterInitialize(Empty(PerKey), rows), calls).events) ::
        Verifies(h, shuffled)
  }

  lemma PrefixIsSound(h: HashFunction, s: Service, p: string, rows: seq<Record>)
    requires Injective(h) && StoredIsPrefix(s, rows) && Sound(h, s) && s.numbering == PerKey && ProjectRows(s, p, rows)
    ensures Sound(h, AfterInitialize(Empty(PerKey), rows))
  {
    forall k ensures KeySound(h, AfterInitialize(Empty(PerKey), rows), k) {
      assert KeySound(h, s, k);
      PrefixIffOk(h, GroupOf(s.events, k), In(rows));
      RestartKeySound(h, s, p, rows, k);
    }
  }

  lemma PrefixIsEnough(h: HashFunction, redact: Redaction, s: Service, p: string, rows: seq<Record>)
    requires Injective(h) && HoldsIncidents(rows) && StoredIsPrefix(s, rows)
    requires Sound(h, s) && s.numbering == PerKey && ProjectRows(s, p, rows)
    ensures AlwaysVerifies(h, redact, rows)
  {
    var f := AfterInitialize(Empty(PerKey), rows);
    PrefixIsSound(h, s, p, rows);
    forall calls: seq<Call>, shuffled: seq<Record> | multiset(shuffled) == multiset(Run(h, redact, f, calls).events)
      ensures Verifies(h, shuffled)
    {
      RunKeepsSound(h, redact, f, calls);
      SoundVerifies(h, Run(h, redact, f, calls), shuffled);
    }
  }

  lemma NothingWritten(h: HashFunction, redact: Redaction, rows: seq<Record>)
    requires HoldsIncidents(rows)
    ensures Run(h, redact, AfterInitialize(Empty(PerKey), rows), []).events == rows
  {
    FreshHolds(rows);
  }

  lemma PrefixIsNeeded(h: HashFunction, redact: Redaction, s: Service, p: string, rows: seq<Record>)
    requires Injective(h) && HoldsIncidents(rows) && AlwaysVerifies(h, redact, rows)
    requires Sound(h, s) && s.numbering == PerKey && ProjectRows(s, p, rows)
    ensures StoredIsPrefix(s, rows)
  {
    NothingWritten(h, redact, rows);
    assert Verifies(h, rows);
    RowsVerifyIff(h, s, rows);
  }

  /**
   * Stored and new records stay acceptable over every continuation and in every order, exactly when what is
   * fetched of the project's records is a prefix of the chain under every key.
   */
  lemma RestartedRunsVerifyIff(h: HashFunction, redact: Redaction, s: Service, p: string, rows: seq<Record>)
    requires Injective(h) && HoldsIncidents(rows)
    requires Sound(h, s) && s.numbering == PerKey && ProjectRows(s, p, rows)
    ensures StoredIsPrefix(s, rows) <==> AlwaysVerifies(h, redact, rows)
  {
    if StoredIsPrefix(s, rows) { PrefixIsEnough(h, redact, s, p, rows); }
    if AlwaysVerifies(h, redact, rows) { PrefixIsNeeded(h, redact, s, p, rows); }
  }

  lemma {:induction false} RunAppends(h: HashFunction, redact: Redaction, s: Service, calls: seq<Call>)
    requires HoldsIncidents(s.events)
    ensures s.events <= Run(h, redact, s, calls).events
  {
    if calls != [] { RunAppends(h, redact, s, calls[..|calls| - 1]); }
  }

  /**
   * Then the restarted service is again one to which all of this applies, over the table it was restarted from, with
   * what it goes on to write: the theorems about a restart hold of the next one, and so of every generation.
   */
  lemma NextGeneration(
    h: HashFunction, redact: Redaction, s: Service, p: string, table: seq<Record>, rows: seq<Record>, calls: seq<Call>)
    requires Injective(h) && HoldsIncidents(rows) && StoredIsPrefix(s, rows) && Sound(h, s) && s.numbering == PerKey
    requires Queue.DistinctIds(table) && Knows(s, p, table) && Selects(table, p, rows)
    ensures var next := Run(h, redact, AfterInitialize(Empty(PerKey), rows), calls);
      && Sound(h, next) && next.numbering == PerKey && rows <= next.events
      && Knows(next, p, table + next.events[|rows|..])
  {
    var f := AfterInitialize(Empty(PerKey), rows);
    SelectedIsFetched(s, table, p, rows);
    PrefixIsSound(h, s, p, rows);
    FreshHolds(rows);
    RunKeepsSound(h, redact, f, calls);
    RunAppends(h, redact, f, calls);
    StillKnown(table, p, rows, Run(h, redact, f, calls).events);
  }

  lemma StillKnown(table: seq<Record>, p: string, rows: seq<Record>, events: seq<Record>)
    requires Selects(table, p, rows) && rows <= events
    ensures forall r | r in table + events[|rows|..] && r.projectId == p :: r in events
  {
    SelectedMembers(table, p, rows);
    forall r | r in table && r.projectId == p ensures r in events {
      var n :| 0 <= n < |rows| && rows[n] == r;
      assert events[n] == r;
    }
  }

  // ---------------------------------------------------------------- when the conditions hold

  /** What a caller can check beforehand: no foreign record's key starts with the project's id and a colon. */
  predicate NoForeignKeys(s: Service, p: string) {
    forall r | r in s.events && r.projectId != p :: !(p + ":" <= KeyOf(r))
  }

  /** Project ids without colons never collide. */
  lemma ColonFreeIdsDoNotCollide(s: Service, p: string)
    requires ':' !in p && forall r | r in s.events :: ':' !in r.projectId
    ensures NoForeignKeys(s, p)
  {
    forall r | r in s.events && p + ":" <= KeyOf(r) ensures r.projectId == p {
      var q, k := r.projectId, KeyOf(r);
      assert k[|p|] == (p + ":")[|p|] == ':' && k[|q|] == ':';
      assert k[..|p|] == (p + ":")[..|p|] == p && k[..|q|] == q;
    }
  }

  lemma OwnGroups(s: Service, rows: seq<Record>, p: string, k: string)
    requires NoForeignKeys(s, p) && forall r | r in s.events :: r in rows <==> r.projectId == p
    ensures var g := GroupOf(s.events, k);
      (p + ":" <= k ==> forall r | r in g :: r in rows) && (Filter(g, In(rows)) == [] || Filter(g, In(rows)) == g)
  {
    var g := GroupOf(s.events, k);
    FilterMembers(s.events, HasKey(k));
    if p + ":" <= k {
      FilterAll(g, In(rows));
    } else {
      forall r | r in g ensures r !in rows { assert r.projectId + ":" <= KeyOf(r); }
      FilterNoneIff(g, In(rows));
    }
  }

  /** No foreign keys, for instance colon-free project ids, and nothing dropped give both conditions. */
  lemma CompleteRestartIsFine(s: Service, rows: seq<Record>, p: string)
    requires NoForeignKeys(s, p) && forall r | r in s.events :: r in rows <==> r.projectId == p
    ensures NewestIsOurs(s, rows, p) && StoredIsPrefix(s, rows)
  {
    forall i ensures OursAt(s, rows, p, i) {
      OwnGroups(s, rows, p, Key(p, i));
      var g := GroupOf(s.events, Key(p, i));
      assert p + ":" <= Key(p, i);
      if g != [] { assert g[|g| - 1] in g; }
    }
    forall k ensures Filter(GroupOf(s.events, k), In(rows)) <= GroupOf(s.events, k) { OwnGroups(s, rows, p, k); }
  }

  /** With distinct ids nothing is dropped. */
  lemma OrdinaryRestartIsFine(
    s: Service, p: string, o: Queue.Options, table: seq<Record>, written: seq<Record>, steps: seq<Queue.Step>,
    last: Queue.Step, t: nat, rows: seq<Record>)
    requires Drains(o, table, written, steps, last, t) && Selects(TableAfter(o, table, steps, last).rows, p, rows)
    requires Queue.DistinctIds(table + written) && NoForeignKeys(s, p)
    requires forall r: Record | r.projectId == p :: r in s.events <==> r in table + written
    ensures NewestIsOurs(s, rows, p) && StoredIsPrefix(s, rows)
  {
    DrainedTable(o, table, written, steps, last, t);
    Queue.StoredUnchangedIffDistinct(table, written);
    SelectedMembers(TableAfter(o, table, steps, last).rows, p, rows);
    CompleteRestartIsFine(s, rows, p);
  }

  lemma RunPair(h: HashFunction, redact: Redaction, a: Call, b: Call)
    ensures Run(h, redact, Empty(PerKey), [a, b]) == Step(h, redact, Step(h, redact, Empty(PerKey), a).0, b).0
  {
    assert [a][..0] == [] && [a, b][..1] == [a];
    assert Run(h, redact, Empty(PerKey), [a]) == Step(h, redact, Run(h, redact, Empty(PerKey), []), a).0;
  }

  /**
   * Colliding ids: after project "a:b" wrote under the shared key, no rows of project "a" tell where the chain ends.
   */
  lemma CollidingProjectsBreakRestart(h: HashFunction, redact: Redaction, rows: seq<Record>) returns (calls: seq<Call>)
    requires forall r | r in rows :: r.projectId == "a"
    ensures !NewestIsOurs(Run(h, redact, Empty(PerKey), calls), rows, "a")
  {
    var mine := OpenIncident("a", "", "", "", None, None, "b:c", "1", 0);
    var theirs := OpenIncident("a:b", "", "", "", None, None, "c", "2", 0);
    calls := [mine, theirs];
    RunPair(h, redact, mine, theirs);
    assert Key("a", "b:c") == "a:b:c" == Key("a:b", "c");
    var s1 := Step(h, redact, Empty(PerKey), mine).0;
    var s := Step(h, redact, s1, theirs).0;
    ForeignIsLast(s, s1.events, s.events[|s.events| - 1], rows, "a", "b:c");
  }

  lemma ForeignIsLast(s: Service, before: seq<Record>, r: Record, rows: seq<Record>, p: string, i: string)
    requires s.events == before + [r] && KeyOf(r) == Key(p, i) && r !in rows
    ensures !OursAt(s, rows, p, i)
  {
    GroupSnoc(before, r, Key(p, i));
  }

  lemma SecondIsDropped(a: Record, b: Record)
    requires a.content.id == b.content.id && a != b
    ensures b !in Queue.InsertSkip([], [a, b])
  {
    assert [a, b][1..] == [b] && [b][1..] == [];
    assert [] + [a] == [a] && a in [a];
    assert Queue.InsertSkip([a], [b]) == Queue.InsertSkip([a], []);
  }

  /**
   * Default ids carry the time and the incident's own sequence: two incidents opened in one millisecond share one,
   * and the second is never stored.
   */
  lemma SharedDefaultIdBreaksRestart(h: HashFunction, redact: Redaction) returns (calls: seq<Call>)
    ensures var s := Run(h, redact, Empty(PerKey), calls); !NewestIsOurs(s, Queue.InsertSkip([], s.events), "a")
  {
    var one := OpenIncident("a", "", "", "", None, None, "i", "inc-evt-0-1", 0);
    var two := OpenIncident("a", "", "", "", None, None, "j", "inc-evt-0-1", 0);
    calls := [one, two];
    RunPair(h, redact, one, two);
    var s1 := Step(h, redact, Empty(PerKey), one).0;
    var s := Step(h, redact, s1, two).0;
    var a, b := s.events[0], s.events[1];
    assert s.events == [a, b] && s1.events == [a];
    SecondIsDropped(a, b);
    assert s.events == [a] + [b];
    ForeignIsLast(s, [a], b, Queue.InsertSkip([], s.events), "a", "j");
  }
}
