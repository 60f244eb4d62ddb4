/**
 * Execution logs over the hash chains: the in-memory logger, and the database logger whose
 * `initialize` seeds the previous hash of an empty run with the empty string instead of nothing.
 */
module Logs {
  import opened Common
  import opened HashChain
  import opened Lists
  import opened ChainService
  import opened StoredChains
  import Queue = DurableQueue

  /** How messages are redacted and metadata sanitised. */
  datatype Cleaning = Cleaning(redact: string -> string, sanitize: string -> string)

  datatype Entry = Entry(
    projectId: string, runId: string, message: string, attemptId: Option<string>, workItemId: Option<string>,
    stream: Option<string>, metadata: Option<string>, id: string, timestamp: int)

  function ContentOf(clean: Cleaning, e: Entry): Content {
    LogContent(
      e.id, e.attemptId, e.workItemId, if e.stream.Some? then e.stream.value else "SYSTEM", clean.redact(e.message),
      e.timestamp, if e.metadata.Some? then Some(clean.sanitize(e.metadata.value)) else None)
  }

  function Logged(h: HashFunction, clean: Cleaning, s: Service, e: Entry): Service {
    Append(h, s, e.projectId, e.runId, ContentOf(clean, e))
  }

  function After(h: HashFunction, clean: Cleaning, s: Service, entries: seq<Entry>): Service {
    if entries == [] then s else Logged(h, clean, After(h, clean, s, entries[..|entries| - 1]), entries[|entries| - 1])
  }

  // ---------------------------------------------------------------- loggers that start empty

  lemma {:induction false} LoggingKeepsSound(h: HashFunction, clean: Cleaning, s: Service, entries: seq<Entry>)
    requires Sound(h, s)
    ensures Sound(h, After(h, clean, s, entries))
  {
    if entries != [] {
      var e := entries[|entries| - 1];
      LoggingKeepsSound(h, clean, s, entries[..|entries| - 1]);
      AppendKeepsSound(h, After(h, clean, s, entries[..|entries| - 1]), e.projectId, e.runId, ContentOf(clean, e));
    }
  }

  /** The verifier accepts whatever a logger that starts empty has written, in every order. */
  lemma EveryLogVerifies(
      h: HashFunction, clean: Cleaning, numbering: Numbering, entries: seq<Entry>, shuffled: seq<Record>)
    requires multiset(shuffled) == multiset(After(h, clean, Empty(numbering), entries).events)
    ensures Verifies(h, shuffled)
  {
    EmptyIsSound(h, numbering);
    LoggingKeepsSound(h, clean, Empty(numbering), entries);
    SoundVerifies(h, After(h, clean, Empty(numbering), entries), shuffled);
  }

  /** The record is what was said, cleaned: the message redacted, the metadata sanitised, all else word for word. */
  predicate Records(clean: Cleaning, r: Record, e: Entry) {
    && r.projectId == e.projectId && r.group == e.runId && r.content.LogContent?
    && r.content.message == clean.redact(e.message)
    && r.content.id == e.id && r.content.timestamp == e.timestamp
    && r.content.attemptId == e.attemptId && r.content.workItemId == e.workItemId
    && (e.stream.Some? ==> r.content.stream == e.stream.value) && (e.stream.None? ==> r.content.stream == "SYSTEM")
    && (e.metadata.Some? <==> r.content.metadata.Some?)
    && (e.metadata.Some? ==> r.content.metadata == Some(clean.sanitize(e.metadata.value)))
  }

  /**
   * Over any number of calls the log has exactly one record for each, in the order of the calls, cleaned. What is said
   * uncleaned is in no record.
   */
  lemma {:induction false} LogIsWhatWasSaid(
      h: HashFunction, clean: Cleaning, numbering: Numbering, entries: seq<Entry>)
    ensures var events := After(h, clean, Empty(numbering), entries).events;
      |events| == |entries| && forall k | 0 <= k < |entries| :: Records(clean, events[k], entries[k])
  {
    if entries != [] { LogIsWhatWasSaid(h, clean, numbering, entries[..|entries| - 1]); }
  }

  // ---------------------------------------------------------------- the database logger after initialize

  /** `latest`: the stored row of the run with the highest sequence, if there is one. */
  function Initialized(s: Service, projectId: string, runId: string, latest: Option<Record>): Service {
    var key := Key(projectId, runId);
    s.(
      seqs := s.seqs[key := if latest.Some? then latest.value.sequence else 0],
      lastHash := s.lastHash[key := if latest.Some? then latest.value.hash else ""])
  }

  predicate AllOf(events: seq<Record>, key: string) { forall r | r in events :: KeyOf(r) == key }

  predicate AllFor(entries: seq<Entry>, projectId: string, runId: string) {
    forall e | e in entries :: e.projectId == projectId && e.runId == runId
  }

  /** Appending never looks at the events already held. */
  lemma LoggedBehind(h: HashFunction, clean: Cleaning, s: Service, stored: seq<Record>, e: Entry)
    ensures Logged(h, clean, s.(events := stored + s.events), e) ==
      Logged(h, clean, s, e).(events := stored + Logged(h, clean, s, e).events)
  {
    var r := Link(h, s, e.projectId, e.runId, ContentOf(clean, e));
    assert stored + (s.events + [r]) == (stored + s.events) + [r];
  }

  lemma {:induction false} PrefixIsIrrelevant(
    h: HashFunction, clean: Cleaning, s: Service, stored: seq<Record>, entries: seq<Entry>)
    ensures After(h, clean, s.(events := stored + s.events), entries) ==
      After(h, clean, s, entries).(events := stored + After(h, clean, s, entries).events)
  {
    if entries != [] {
      PrefixIsIrrelevant(h, clean, s, stored, entries[..|entries| - 1]);
      LoggedBehind(h, clean, After(h, clean, s, entries[..|entries| - 1]), stored, entries[|entries| - 1]);
    }
  }

  lemma {:induction false} KeySoundIsKept(
      h: HashFunction, clean: Cleaning, s: Service, entries: seq<Entry>, projectId: string, runId: string)
    requires KeySound(h, s, Key(projectId, runId)) && AllFor(entries, projectId, runId)
      && AllOf(s.events, Key(projectId, runId))
    ensures KeySound(h, After(h, clean, s, entries), Key(projectId, runId))
    ensures AllOf(After(h, clean, s, entries).events, Key(projectId, runId))
  {
    if entries != [] {
      var e := entries[|entries| - 1];
      KeySoundIsKept(h, clean, s, entries[..|entries| - 1], projectId, runId);
      AppendKeepsKey(h, After(h, clean, s, entries[..|entries| - 1]), projectId, runId, ContentOf(clean, e));
    }
  }

  /** A seed from no stored row: sequences from 1, and a first record that links to the empty string. */
  lemma {:induction false} EmptySeed(
      h: HashFunction, clean: Cleaning, entries: seq<Entry>, projectId: string, runId: string)
    requires AllFor(entries, projectId, runId)
    ensures var s := After(h, clean, Initialized(Empty(PerKey), projectId, runId, None), entries);
      && s.numbering == PerKey && |s.events| == |entries| && Key(projectId, runId) in s.seqs
      && s.seqs[Key(projectId, runId)] == |entries| && AllOf(s.events, Key(projectId, runId))
      && (entries == [] ==> Key(projectId, runId) in s.lastHash && s.lastHash[Key(projectId, runId)] == "")
      && (forall i | 0 <= i < |s.events| :: s.events[i].sequence == i + 1)
      && (entries != [] ==> s.events[0].previousHash == Some(""))
  {
    if entries != [] {
      EmptySeed(h, clean, entries[..|entries| - 1], projectId, runId);
      assert entries[|entries| - 1] in entries;
    }
  }

  lemma OneChainVerifies(h: HashFunction, events: seq<Record>, key: string)
    requires AllOf(events, key) && Sorted(events)
    ensures Verifies(h, events) <==> ChainOk(h, events)
  {
    FilterAll(events, HasKey(key));
    SortKeepsSorted(events);
    if events != [] {
      assert events[0] in events && key in Keys(events);
    }
    assert forall k | k in Keys(events) :: k == key;
  }

  /** The stored rows of one run, oldest first: an accepted chain with sequences from 1. */
  predicate StoredChain(h: HashFunction, stored: seq<Record>, key: string) {
    ChainOk(h, stored) && Increasing(stored) && AllOf(stored, key) && (stored != [] ==> stored[0].sequence >= 1)
  }

  lemma SeedFromRowsIsSound(h: HashFunction, stored: seq<Record>, projectId: string, runId: string)
    requires StoredChain(h, stored, Key(projectId, runId)) && stored != []
    ensures var s := Initialized(Empty(PerKey), projectId, runId, Some(stored[|stored| - 1]));
      KeySound(h, s.(events := stored + s.events), Key(projectId, runId))
  {
    FilterAll(stored, HasKey(Key(projectId, runId)));
    assert stored + [] == stored;
  }

  lemma EmptySeedFails(h: HashFunction, clean: Cleaning, entries: seq<Entry>, projectId: string, runId: string)
    requires AllFor(entries, projectId, runId) && entries != []
    ensures !Verifies(h, After(h, clean, Initialized(Empty(PerKey), projectId, runId, None), entries).events)
  {
    var written := After(h, clean, Initialized(Empty(PerKey), projectId, runId, None), entries).events;
    EmptySeed(h, clean, entries, projectId, runId);
    OneChainVerifies(h, written, Key(projectId, runId));
    assert !LinkOk(h, written, 0);
  }

  lemma SeededVerifies(
      h: HashFunction, clean: Cleaning, stored: seq<Record>, entries: seq<Entry>, projectId: string, runId: string)
    requires StoredChain(h, stored, Key(projectId, runId)) && AllFor(entries, projectId, runId) && stored != []
    ensures Verifies(
      h, stored
        + After(h, clean, Initialized(Empty(PerKey), projectId, runId, Some(stored[|stored| - 1])), entries).events)
  {
    var key := Key(projectId, runId);
    var s := Initialized(Empty(PerKey), projectId, runId, Some(stored[|stored| - 1]));
    SeedFromRowsIsSound(h, stored, projectId, runId);
    PrefixIsIrrelevant(h, clean, s, stored, entries);
    assert AllOf(stored + s.events, key);
    KeySoundIsKept(h, clean, s.(events := stored + s.events), entries, projectId, runId);
    var all := stored + After(h, clean, s, entries).events;
    FilterAll(all, HasKey(key));
    OneChainVerifies(h, all, key);
  }

  /**
   * What the database logger writes after `initialize` completes the stored rows to a chain the
   * verifier accepts exactly when there was a stored row to continue from.
   */
  lemma InitializedLogVerifiesIff(
    h: HashFunction, clean: Cleaning, stored: seq<Record>, entries: seq<Entry>, projectId: string, runId: string)
    requires StoredChain(h, stored, Key(projectId, runId)) && AllFor(entries, projectId, runId) && entries != []
    ensures var latest := if stored == [] then None else Some(stored[|stored| - 1]);
      Verifies(h, stored + After(h, clean, Initialized(Empty(PerKey), projectId, runId, latest), entries).events) <==>
        stored != []
  {
    if stored == [] {
      EmptySeedFails(h, clean, entries, projectId, runId);
      var written := After(h, clean, Initialized(Empty(PerKey), projectId, runId, None), entries).events;
      assert stored + written == written;
    } else {
      SeededVerifies(h, clean, stored, entries, projectId, runId);
    }
  }

  // ---------------------------------------------------------------- what a flush leaves of the logs

  /**
   * Once a flush of a logger that started empty has returned normally, the stored log rows verify, in every order,
   * exactly when under every key they are a prefix of what was logged.
   */
  lemma FlushedLogsVerifyIff(
    h: HashFunction, clean: Cleaning, entries: seq<Entry>, o: Queue.Options, steps: seq<Queue.Step>,
    last: Queue.Step, t: nat)
    requires Injective(h) && Drains(o, [], After(h, clean, Empty(PerKey), entries).events, steps, last, t)
    ensures var s := After(h, clean, Empty(PerKey), entries); var rows := TableAfter(o, [], steps, last).rows;
      rows == Queue.InsertSkip([], s.events) && (VerifiesInEveryOrder(h, rows) <==> StoredIsPrefix(s, rows))
  {
    var s := After(h, clean, Empty(PerKey), entries);
    EmptyIsSound(h, PerKey);
    LoggingKeepsSound(h, clean, Empty(PerKey), entries);
    DrainedTable(o, [], s.events, steps, last, t);
    assert [] + s.events == s.events;
    FlushedRowsVerifyIff(h, s, o, [], s.events, steps, last, t);
  }

  /** A line of run `runId` of project "p". */
  function Line(runId: string, id: string, timestamp: int): Entry {
    Entry("p", runId, "", None, None, None, None, id, timestamp)
  }

  lemma AfterThree(h: HashFunction, clean: Cleaning, a: Entry, b: Entry, c: Entry)
    ensures After(h, clean, Empty(PerKey), [a, b, c]) ==
      Logged(h, clean, Logged(h, clean, Logged(h, clean, Empty(PerKey), a), b), c)
  {
    assert [a][..0] == [] && [a, b][..1] == [a] && [a, b, c][..2] == [a, b];
    assert After(h, clean, Empty(PerKey), [a]) == Logged(h, clean, Empty(PerKey), a);
    assert After(h, clean, Empty(PerKey), [a, b]) == Logged(h, clean, After(h, clean, Empty(PerKey), [a]), b);
  }

  lemma SecondOfThreeIsDropped(a: Record, b: Record, c: Record)
    requires a.content.id == b.content.id != c.content.id
    ensures Queue.InsertSkip([], [a, b, c]) == [a, c]
  {
    assert [a, b, c][1..] == [b, c] && [b, c][1..] == [c] && [c][1..] == [];
    assert [] + [a] == [a] && a in [a] && [a] + [c] == [a, c];
    assert Queue.InsertSkip([a], [b, c]) == Queue.InsertSkip([a], [c]);
    assert Queue.InsertSkip([a], [c]) == Queue.InsertSkip([a, c], []);
  }

  /** A chain that starts with a record linking to another is not accepted. */
  lemma OrphanIsRejected(h: HashFunction, a: Record, c: Record)
    requires KeyOf(a) != KeyOf(c) && c.previousHash.Some?
    ensures !Verifies(h, [a, c])
  {
    var k := KeyOf(c);
    GroupSnoc([a], c, k);
    GroupSnoc([], a, k);
    assert [] + [a] == [a] && [a] + [c] == [a, c] && [] + [c] == [c];
    assert GroupOf([a, c], k) == [c];
    SortKeepsSorted([c]);
    assert c in [a, c] && k in Keys([a, c]);
    assert !LinkOk(h, [c], 0);
  }

  /**
   * Default ids carry the time and the run's own sequence: of two runs that log in one millisecond the second loses
   * its first line, and once it logs again the stored rows no longer verify.
   */
  lemma SharedDefaultIdBreaksLog(h: HashFunction, clean: Cleaning) returns (entries: seq<Entry>)
    ensures !Verifies(h, Queue.InsertSkip([], After(h, clean, Empty(PerKey), entries).events))
  {
    var e1, e2, e3 := Line("r", "log-0-1", 0), Line("s", "log-0-1", 0), Line("s", "log-1-2", 1);
    entries := [e1, e2, e3];
    AfterThree(h, clean, e1, e2, e3);
    var s2 := Logged(h, clean, Logged(h, clean, Empty(PerKey), e1), e2);
    var events := Logged(h, clean, s2, e3).events;
    var a, b, c := events[0], events[1], events[2];
    assert events == [a, b, c];
    assert Key("p", "r")[2] == 'r' && Key("p", "s")[2] == 's';
    SecondOfThreeIsDropped(a, b, c);
    OrphanIsRejected(h, a, c);
  }

  // ---------------------------------------------------------------- the loggers

  /** An absent or empty field does not filter. */
  datatype LogFilter = LogFilter(runId: string, attemptId: string, workItemId: string)

  function Matches(projectId: string, f: LogFilter): Record -> bool {
    (r: Record) =>
      && r.projectId == projectId
      && (f.runId == "" || r.group == f.runId)
      && (f.attemptId == "" || r.content.attemptId == Some(f.attemptId))
      && (f.workItemId == "" || r.content.workItemId == Some(f.workItemId))
  }

  /** Of the project asked for, and agreeing with the filter in every field that the filter fills. */
  predicate Wanted(r: Record, projectId: string, f: LogFilter) {
    && r.projectId == projectId && f.runId in {"", r.group}
    && (f.attemptId == "" || Some(f.attemptId) == r.content.attemptId)
    && (f.workItemId == "" || Some(f.workItemId) == r.content.workItemId)
  }

  /** `InMemoryLogger`: one sequence counter for all runs. */
  class InMemoryLogger {
    var logs: seq<Record>
    var seqNo: nat
    var lastHashes: map<string, Hash>
    const h: HashFunction
    const clean: Cleaning

    constructor (h: HashFunction, clean: Cleaning)
      ensures State() == Empty(Global) && this.h == h && this.clean == clean
    {
      logs, seqNo, lastHashes := [], 0, map[];
      this.h, this.clean := h, clean;
    }

    function State(): Service
      reads this
    {
      Service(Global, logs, lastHashes, seqNo, map[])
    }

    method Log(e: Entry)
      modifies this
      ensures State() == After(h, clean, old(State()), [e])
    {
      assert [e][..0] == [];
      var content := ContentOf(clean, e);
      seqNo := seqNo + 1;
      var key := Key(e.projectId, e.runId);
      var previousHash := if key in lastHashes then Some(lastHashes[key]) else None;
      var hash := h(Preimage(e.projectId, e.runId, content, seqNo, previousHash));
      lastHashes := lastHashes[key := hash];
      logs := logs + [Record(e.projectId, e.runId, content, seqNo, previousHash, hash)];
    }

    method GetLogs(projectId: string, f: LogFilter) returns (list: seq<Record>)
      ensures Sorted(list) && multiset(list) == multiset(Filter(logs, Matches(projectId, f)))
      ensures forall r :: multiset(list)[r] == if Wanted(r, projectId, f) then multiset(logs)[r] else 0
    {
      list := SortBySequence(Filter(logs, Matches(projectId, f)));
      SortSorts(Filter(logs, Matches(projectId, f)));
      FilterCounts(logs, Matches(projectId, f));
    }
  }

  /** `PrismaExecutionLogger`: a counter per run; every record goes to the queue. */
  class PrismaExecutionLogger {
    var logQueue: seq<Record>
    var seqs: map<string, int>
    var lastHashes: map<string, Hash>
    /** Everything logged so far; the queue loses what a flush has stored. */
    ghost var written: seq<Record>
    const h: HashFunction
    const clean: Cleaning

    constructor (h: HashFunction, clean: Cleaning)
      ensures State() == Empty(PerKey) && logQueue == [] && this.h == h && this.clean == clean
    {
      logQueue, seqs, lastHashes, written := [], map[], map[], [];
      this.h, this.clean := h, clean;
    }

    ghost function State(): Service
      reads this
    {
      Service(PerKey, written, lastHashes, 0, seqs)
    }

    method Initialize(projectId: string, runId: string, latest: Option<Record>)
      modifies this`seqs, this`lastHashes
      ensures State() == Initialized(old(State()), projectId, runId, latest)
    {
      var key := Key(projectId, runId);
      seqs := seqs[key := if latest.Some? then latest.value.sequence else 0];
      lastHashes := lastHashes[key := if latest.Some? then latest.value.hash else ""];
    }

    method Log(e: Entry)
      modifies this
      ensures State() == After(h, clean, old(State()), [e])
      ensures logQueue == old(logQueue) + [written[|written| - 1]]
    {
      assert [e][..0] == [];
      var content := ContentOf(clean, e);
      var key := Key(e.projectId, e.runId);
      var sequence := if key in seqs then seqs[key] else 0;
      sequence := sequence + 1;
      seqs := seqs[key := sequence];
      var previousHash := if key in lastHashes then Some(lastHashes[key]) else None;
      var hash := h(Preimage(e.projectId, e.runId, content, sequence, previousHash));
      var logRecord := Record(e.projectId, e.runId, content, sequence, previousHash, hash);
      lastHashes := lastHashes[key := hash];
      logQueue := logQueue + [logRecord];
      written := written + [logRecord];
    }
  }
}
