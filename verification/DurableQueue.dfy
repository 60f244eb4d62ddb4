/**
 * The durable queue of records: appends, self-rescheduling flushes serialised by the FIFO mutex, and
 * batches written with retries and skip-duplicates, interleaved at every await. The execution
 * logger and the incident service share this code.
 */
module DurableQueue {
  import opened AsyncMutex
  import HashChain

  type Entry = HashChain.Record

  /** The primary key of a row. */
  function Id(e: Entry): string { e.content.id }

  function Ids(rows: seq<Entry>): set<string> { set r | r in rows :: Id(r) }

  /** `createMany` with skipDuplicates: a row whose id is already stored is left out. */
  function InsertSkip(rows: seq<Entry>, batch: seq<Entry>): seq<Entry>
    decreases |batch|
  {
    if batch == [] then rows
    else InsertSkip(if Id(batch[0]) in Ids(rows) then rows else rows + [batch[0]], batch[1..])
  }

  /**
   * Where one call of `flush` stands. `Drained` has returned normally and, being scheduled, still owes its
   * continuation.
   */
  datatype Pc =
    | Acquiring
    | Writing(batch: seq<Entry>, attempt: nat, committed: bool)
    | Sleeping(batch: seq<Entry>, attempt: nat)
    | Drained
    | Done(failed: bool)

  datatype Flush = Flush(scheduled: bool, retries: nat, pc: Pc)

  datatype Options = Options(autoFlush: bool, batchSize: nat, maxRetries: nat)

  /**
   * `initial` is the table at the start, `accepted` everything ever logged, `removed` how much left the queue,
   * `persisted` how much of it was written.
   */
  datatype State = State(
    queue: seq<Entry>, rows: seq<Entry>, lastError: bool, active: bool, starting: bool,
    mutex: Mutex, flushes: seq<Flush>,
    initial: seq<Entry>, accepted: seq<Entry>, removed: nat, persisted: nat)

  /** A fresh writer over a table that earlier writers may have filled. */
  function Boot(table: seq<Entry>): State { State([], table, false, false, false, FREE, [], table, [], 0, 0) }

  datatype Step =
    | Log(entry: Entry)
    | ScheduleCall
    | FlushCall(retries: nat)
    | StartScheduled
    | Granted(flush: Ticket)
    | DbCommits(flush: Ticket)
    | WriteReplies(flush: Ticket, ok: bool)
    | Wakes(flush: Ticket)
    | Finally(flush: Ticket)
    | ClearLastError

  function Schedule(s: State): State {
    if s.active || s.queue == [] || s.lastError then s else s.(active := true, starting := true)
  }

  function Call(s: State, scheduled: bool, retries: nat): State {
    s.(mutex := Acquire(s.mutex), flushes := s.flushes + [Flush(scheduled, retries, Acquiring)])
  }

  function SetPc(s: State, t: Ticket, pc: Pc): State
    requires t < |s.flushes|
  {
    s.(flushes := s.flushes[t := s.flushes[t].(pc := pc)])
  }

  function Take(o: Options, queue: seq<Entry>): seq<Entry> {
    if |queue| < o.batchSize then queue else queue[..o.batchSize]
  }

  /** The drain loop's head: take the next batch, or leave through the release. */
  function LoopHead(o: Options, s: State, t: Ticket): State
    requires t < |s.flushes|
  {
    if s.queue != [] then SetPc(s, t, Writing(Take(o, s.queue), 0, false))
    else SetPc(s.(mutex := Release(s.mutex, t)), t, if s.flushes[t].scheduled then Drained else Done(false))
  }

  /**
   * A throw: the error is kept, the mutex released; a scheduled flush's own catch and finally run in the same stretch.
   */
  function Fail(s: State, t: Ticket): State
    requires t < |s.flushes|
  {
    SetPc(s.(mutex := Release(s.mutex, t), lastError := true, active := s.active && !s.flushes[t].scheduled), t,
      Done(true))
  }

  /** The batch leaves the queue. */
  function Spliced(s: State, n: nat): State
    requires n <= |s.queue|
  {
    s.(queue := s.queue[n..], removed := s.removed + n, lastError := false)
  }

  function Next(o: Options, s: State, step: Step): State {
    match step
    case Log(e) =>
      var s' := s.(queue := s.queue + [e], accepted := s.accepted + [e]);
      if o.autoFlush then Schedule(s') else s'
    case ScheduleCall => Schedule(s)
    case FlushCall(retries) => Call(s, false, retries)
    case StartScheduled => if s.starting then Call(s.(starting := false), true, o.maxRetries) else s
    case Granted(t) =>
      if t < |s.flushes| && s.flushes[t].pc == Acquiring && Holds(s.mutex, t) then LoopHead(o, s, t) else s
    case DbCommits(t) =>
      if t < |s.flushes| && s.flushes[t].pc.Writing? && !s.flushes[t].pc.committed then
        var pc := s.flushes[t].pc;
        SetPc(s.(rows := InsertSkip(s.rows, pc.batch), persisted := s.removed + |pc.batch|), t, pc.(committed := true))
      else s
    case WriteReplies(t, ok) =>
      if t < |s.flushes| && s.flushes[t].pc.Writing? && (ok ==> s.flushes[t].pc.committed) then
        var pc := s.flushes[t].pc;
        if ok then
          var n := if |pc.batch| < |s.queue| then |pc.batch| else |s.queue|;
          LoopHead(o, Spliced(s, n), t)
        else if pc.attempt + 1 <= s.flushes[t].retries then SetPc(s, t, Sleeping(pc.batch, pc.attempt + 1))
        else Fail(s, t)
      else s
    case Wakes(t) =>
      if t < |s.flushes| && s.flushes[t].pc.Sleeping? then
        SetPc(s, t, Writing(s.flushes[t].pc.batch, s.flushes[t].pc.attempt, false))
      else s
    case Finally(t) =>
      if t < |s.flushes| && s.flushes[t].pc == Drained then
        var s' := SetPc(s.(active := false), t, Done(false));
        if s'.queue != [] && !s'.mutex.locked then Schedule(s') else s'
      else s
    case ClearLastError => s.(lastError := false)
  }

  function Run(o: Options, s: State, steps: seq<Step>): State
    decreases |steps|
  {
    if steps == [] then s else Run(o, Next(o, s, steps[0]), steps[1..])
  }

  // ---------------------------------------------------------------- rows under skip-duplicates

  lemma {:induction false} InsertConcat(rows: seq<Entry>, a: seq<Entry>, b: seq<Entry>)
    ensures InsertSkip(rows, a + b) == InsertSkip(InsertSkip(rows, a), b)
    decreases |a|
  {
    if a == [] {
      assert a + b == b;
    } else {
      assert (a + b)[0] == a[0] && (a + b)[1..] == a[1..] + b;
      InsertConcat(if Id(a[0]) in Ids(rows) then rows else rows + [a[0]], a[1..], b);
    }
  }

  lemma {:induction false} InsertStored(rows: seq<Entry>, batch: seq<Entry>)
    requires forall e | e in batch :: Id(e) in Ids(rows)
    ensures InsertSkip(rows, batch) == rows
    decreases |batch|
  {
    if batch != [] {
      assert batch[0] in batch;
      InsertStored(rows, batch[1..]);
    }
  }

  lemma {:induction false} InsertStores(rows: seq<Entry>, batch: seq<Entry>)
    ensures Ids(InsertSkip(rows, batch)) == Ids(rows) + Ids(batch)
    decreases |batch|
  {
    if batch != [] {
      var rows' := if Id(batch[0]) in Ids(rows) then rows else rows + [batch[0]];
      assert Ids(rows') == Ids(rows) + {Id(batch[0])};
      InsertStores(rows', batch[1..]);
      assert batch == [batch[0]] + batch[1..];
      assert Ids(batch) == {Id(batch[0])} + Ids(batch[1..]);
    }
  }

  ghost predicate DistinctIds(rows: seq<Entry>) { forall i, j | 0 <= i < j < |rows| :: Id(rows[i]) != Id(rows[j]) }

  /** No id is ever stored twice, whatever is written. */
  lemma {:induction false} NoIdTwice(rows: seq<Entry>, batch: seq<Entry>)
    requires DistinctIds(rows)
    ensures DistinctIds(InsertSkip(rows, batch))
    decreases |batch|
  {
    if batch != [] {
      var rows' := if Id(batch[0]) in Ids(rows) then rows else rows + [batch[0]];
      forall i, j | 0 <= i < j < |rows'| ensures Id(rows'[i]) != Id(rows'[j]) {
        if j == |rows| { assert rows[i] in rows; }
      }
      NoIdTwice(rows', batch[1..]);
    }
  }

  /** Skip-duplicates stores a list unchanged exactly when its ids are new and distinct. */
  lemma StoredUnchangedIffDistinct(table: seq<Entry>, xs: seq<Entry>)
    requires DistinctIds(table)
    ensures InsertSkip(table, xs) == table + xs <==> DistinctIds(table + xs)
  {
    NoIdTwice(table, xs);
    if DistinctIds(table + xs) { InsertFresh(table, xs); }
  }

  /** No earlier entry has the id of the one at `n`. */
  predicate FirstWithItsId(xs: seq<Entry>, n: nat) { n < |xs| && forall m | 0 <= m < n :: Id(xs[m]) != Id(xs[n]) }

  predicate OccursFirst(xs: seq<Entry>, e: Entry) { exists n | 0 <= n < |xs| :: xs[n] == e && FirstWithItsId(xs, n) }

  lemma InsertLast(xs: seq<Entry>)
    requires xs != []
    ensures var front, last := xs[..|xs| - 1], xs[|xs| - 1];
      InsertSkip([], xs) == InsertSkip([], front) + if Id(last) in Ids(front) then [] else [last]
  {
    var front, last := xs[..|xs| - 1], xs[|xs| - 1];
    assert xs == front + [last] && [last][1..] == [];
    InsertConcat([], front, [last]);
    InsertStores([], front);
    assert InsertSkip(InsertSkip([], front), [last]) == InsertSkip([], front) + if Id(last) in Ids(front) then []
      else [last];
  }

  lemma OccursFirstSnoc(xs: seq<Entry>, e: Entry)
    requires xs != []
    ensures var front, last := xs[..|xs| - 1], xs[|xs| - 1];
      OccursFirst(xs, e) <==> OccursFirst(front, e) || (e == last && Id(last) !in Ids(front))
  {
    var front, last := xs[..|xs| - 1], xs[|xs| - 1];
    assert FirstWithItsId(xs, |xs| - 1) <==> Id(last) !in Ids(front) by {
      if Id(last) in Ids(front) {
        var r :| r in front && Id(r) == Id(last);
        var m :| 0 <= m < |front| && front[m] == r;
        assert xs[m] == r;
      } else {
        forall m | 0 <= m < |front| ensures Id(xs[m]) != Id(last) { assert front[m] in front; }
      }
    }
    forall n | 0 <= n < |front| ensures FirstWithItsId(front, n) <==> FirstWithItsId(xs, n) {
      assert forall m | 0 <= m <= n :: front[m] == xs[m];
    }
    if OccursFirst(front, e) {
      var n :| 0 <= n < |front| && front[n] == e && FirstWithItsId(front, n);
      assert xs[n] == e && FirstWithItsId(xs, n);
    }
    if OccursFirst(xs, e) {
      var n :| 0 <= n < |xs| && xs[n] == e && FirstWithItsId(xs, n);
      if n < |front| { assert front[n] == e && FirstWithItsId(front, n); }
    }
  }

  lemma {:induction false} FirstsAreStored(xs: seq<Entry>, e: Entry)
    ensures e in InsertSkip([], xs) <==> OccursFirst(xs, e)
  {
    if xs != [] {
      FirstsAreStored(xs[..|xs| - 1], e);
      InsertLast(xs);
      OccursFirstSnoc(xs, e);
    }
  }

  /** When ids repeat, the table holds exactly the first entry of each id, its old rows before the written ones. */
  lemma StoredIffFirst(table: seq<Entry>, xs: seq<Entry>, e: Entry)
    requires DistinctIds(table)
    ensures e in InsertSkip(table, xs) <==> OccursFirst(table + xs, e)
  {
    assert [] + table == table;
    InsertFresh([], table);
    InsertConcat([], table, xs);
    FirstsAreStored(table + xs, e);
  }

  lemma {:induction false} InsertFresh(rows: seq<Entry>, batch: seq<Entry>)
    requires DistinctIds(rows + batch)
    ensures InsertSkip(rows, batch) == rows + batch
    decreases |batch|
  {
    if batch != [] {
      assert (rows + batch)[|rows|] == batch[0];
      forall r | r in rows ensures Id(r) != Id(batch[0]) {
        var i :| 0 <= i < |rows| && rows[i] == r;
        assert (rows + batch)[i] == r;
      }
      assert rows + batch == rows + [batch[0]] + batch[1..];
      InsertFresh(rows + [batch[0]], batch[1..]);
    } else {
      assert rows + batch == rows;
    }
  }

  // ---------------------------------------------------------------- the invariant

  /** What was logged, what left the queue, and what the table holds. */
  ghost predicate Accounted(o: Options, s: State) {
    && s.removed <= s.persisted <= |s.accepted| && s.persisted <= s.removed + o.batchSize
    && s.queue == s.accepted[s.removed..]
    && s.rows == InsertSkip(s.initial, s.accepted[..s.persisted])
  }

  predicate InSection(pc: Pc) { pc.Writing? || pc.Sleeping? }

  /** A batch in hand is the front of the queue, and nothing beyond it is persisted. */
  ghost predicate BatchSound(o: Options, s: State, pc: Pc)
    requires InSection(pc)
  {
    && pc.batch != [] && pc.batch <= s.queue && |pc.batch| <= o.batchSize
    && s.persisted <= s.removed + |pc.batch|
    && (pc.Writing? && pc.committed ==> s.persisted == s.removed + |pc.batch|)
  }

  ghost predicate FlushesSound(o: Options, s: State) {
    && Sound(s.mutex) && |s.flushes| == s.mutex.arrivals
    && (forall t: nat | t < |s.flushes| && InSection(s.flushes[t].pc) ::
          Holds(s.mutex, t) && BatchSound(o, s, s.flushes[t].pc))
    && (forall t: nat | t < |s.flushes| :: (s.flushes[t].pc.Drained? || s.flushes[t].pc.Done?) <==>
      t in s.mutex.released)
  }

  predicate LiveScheduled(f: Flush) { f.scheduled && !f.pc.Done? }

  /** The flag is up exactly while one scheduled flush is on its way. */
  ghost predicate FlagSound(s: State) {
    && (s.starting ==> s.active)
    && (s.active ==> s.starting || exists t: nat | t < |s.flushes| :: LiveScheduled(s.flushes[t]))
    && (forall t: nat | t < |s.flushes| && LiveScheduled(s.flushes[t]) :: s.active && !s.starting)
    && (forall t: nat, u: nat | t < u < |s.flushes| :: !(LiveScheduled(s.flushes[t]) && LiveScheduled(s.flushes[u])))
    && (forall t: nat | t < |s.flushes| && s.flushes[t].pc == Drained :: s.flushes[t].scheduled)
  }

  ghost predicate Inv(o: Options, s: State) { Accounted(o, s) && FlushesSound(o, s) && FlagSound(s) }

  lemma AcceptedGrows(accepted: seq<Entry>, e: Entry, removed: nat, persisted: nat)
    requires removed <= persisted <= |accepted|
    ensures (accepted + [e])[..persisted] == accepted[..persisted]
    ensures (accepted + [e])[removed..] == accepted[removed..] + [e]
  {
  }

  lemma LogKeepsInv(o: Options, s: State, e: Entry)
    requires Inv(o, s)
    ensures Inv(o, Next(o, s, Log(e)))
  {
    var s' := Next(o, s, Log(e));
    AcceptedGrows(s.accepted, e, s.removed, s.persisted);
    forall t: nat | t < |s.flushes| && InSection(s.flushes[t].pc) ensures BatchSound(o, s', s'.flushes[t].pc) {
      assert BatchSound(o, s, s.flushes[t].pc);
    }
  }

  lemma CallKeepsInv(o: Options, s: State, scheduled: bool, retries: nat)
    requires Accounted(o, s) && FlushesSound(o, s)
    requires if scheduled then s.active && FlagSound(s.(starting := true)) else FlagSound(s)
    requires scheduled ==> !s.starting
    ensures Inv(o, Call(s, scheduled, retries))
  {
    AcquireSound(s.mutex);
    var s' := Call(s, scheduled, retries);
    forall t: nat | t < |s.flushes| && InSection(s.flushes[t].pc) ensures BatchSound(o, s', s'.flushes[t].pc) {
      assert BatchSound(o, s, s.flushes[t].pc);
    }
    assert s'.flushes[|s.flushes|] == Flush(scheduled, retries, Acquiring);
    assert s.mutex.arrivals !in s.mutex.released by { TicketsInOrder(s.mutex, s.mutex.arrivals); }
  }

  /** The holder finds entries at the head of the drain loop and takes a batch. */
  lemma TakeKeepsInv(o: Options, s: State, t: nat)
    requires o.batchSize > 0 && s.queue != [] && AtLoopHead(o, s, t)
    ensures Inv(o, LoopHead(o, s, t))
  {
    var s' := LoopHead(o, s, t);
    assert forall u: nat | u < |s.flushes| && u != t :: s'.flushes[u] == s.flushes[u];
    assert |s.queue| == |s.accepted| - s.removed;
    assert BatchSound(o, s', s'.flushes[t].pc);
    FlagThrough(s, s', t);
  }

  /** The holder finds the queue empty and leaves through the release. */
  lemma LeaveKeepsInv(o: Options, s: State, t: nat)
    requires s.queue == [] && AtLoopHead(o, s, t)
    ensures Inv(o, LoopHead(o, s, t))
  {
    ReleaseSound(s.mutex, t);
    var s' := LoopHead(o, s, t);
    assert forall u: nat | u < |s.flushes| && u != t :: s'.flushes[u] == s.flushes[u];
    FlagThrough(s, s', t);
  }

  /** The holder, with everything accounted for and no batch in hand. */
  ghost predicate AtLoopHead(o: Options, s: State, t: nat) {
    && Accounted(o, s) && FlagSound(s) && t < |s.flushes|
    && Sound(s.mutex) && |s.flushes| == s.mutex.arrivals && Holds(s.mutex, t)
    && !s.flushes[t].pc.Drained? && !s.flushes[t].pc.Done?
    && (forall u: nat | u < |s.flushes| && InSection(s.flushes[u].pc) :: u == t)
    && forall u: nat | u < |s.flushes| :: (s.flushes[u].pc.Drained? || s.flushes[u].pc.Done?) <==> u in s.mutex.released
  }

  /** The holder, with everything accounted for, reaches the head of the drain loop. */
  lemma LoopHeadKeepsInv(o: Options, s: State, t: nat)
    requires o.batchSize > 0 && Accounted(o, s) && FlagSound(s) && t < |s.flushes|
    requires Sound(s.mutex) && |s.flushes| == s.mutex.arrivals && Holds(s.mutex, t)
    requires forall u: nat | u < |s.flushes| && InSection(s.flushes[u].pc) :: u == t
    requires forall u: nat | u < |s.flushes| :: (s.flushes[u].pc.Drained? || s.flushes[u].pc.Done?) <==>
      u in s.mutex.released
    ensures Inv(o, LoopHead(o, s, t))
  {
    assert t !in s.mutex.released;
    assert AtLoopHead(o, s, t);
    if s.queue != [] { TakeKeepsInv(o, s, t); } else { LeaveKeepsInv(o, s, t); }
  }

  /** One flush moves on without finishing a scheduled one: the flag stays sound. */
  lemma FlagThrough(s: State, s': State, t: nat)
    requires FlagSound(s) && t < |s.flushes| == |s'.flushes| && s'.active == s.active && s'.starting == s.starting
    requires forall u: nat | u < |s.flushes| && u != t :: s'.flushes[u] == s.flushes[u]
    requires s'.flushes[t].scheduled == s.flushes[t].scheduled
    requires LiveScheduled(s'.flushes[t]) == LiveScheduled(s.flushes[t])
    requires s'.flushes[t].pc == Drained ==> s.flushes[t].scheduled
    ensures FlagSound(s')
  {
    forall u: nat | u < |s.flushes| ensures LiveScheduled(s'.flushes[u]) == LiveScheduled(s.flushes[u]) {
      if u != t { assert s'.flushes[u] == s.flushes[u]; }
    }
  }

  /** Writing a batch that overlaps what is already stored stores exactly the rest of it. */
  lemma OverlapIsSkipped(table: seq<Entry>, accepted: seq<Entry>, removed: nat, persisted: nat, end: nat)
    requires removed <= persisted <= end <= |accepted|
    ensures InsertSkip(InsertSkip(table, accepted[..persisted]), accepted[removed..end]) ==
      InsertSkip(table, accepted[..end])
  {
    var stored, again, rest := accepted[..persisted], accepted[removed..persisted], accepted[persisted..end];
    var rows := InsertSkip(table, stored);
    assert accepted[removed..end] == again + rest && accepted[..end] == stored + rest;
    InsertConcat(rows, again, rest);
    InsertConcat(table, stored, rest);
    InsertStores(table, stored);
    forall x | x in again ensures Id(x) in Ids(rows) { assert x in stored; }
    InsertStored(rows, again);
  }

  lemma CommitKeepsAccounts(o: Options, s: State, t: nat)
    requires Inv(o, s) && t < |s.flushes| && s.flushes[t].pc.Writing? && !s.flushes[t].pc.committed
    ensures Accounted(o, Next(o, s, DbCommits(t)))
  {
    var pc := s.flushes[t].pc;
    assert BatchSound(o, s, pc);
    OverlapIsSkipped(s.initial, s.accepted, s.removed, s.persisted, s.removed + |pc.batch|);
    assert pc.batch == s.queue[..|pc.batch|] == s.accepted[s.removed..s.removed + |pc.batch|];
  }

  lemma CommitKeepsInv(o: Options, s: State, t: nat)
    requires Inv(o, s) && t < |s.flushes| && s.flushes[t].pc.Writing? && !s.flushes[t].pc.committed
    ensures Inv(o, Next(o, s, DbCommits(t)))
  {
    var s' := Next(o, s, DbCommits(t));
    CommitKeepsAccounts(o, s, t);
    assert forall u: nat | u < |s.flushes| && u != t :: s'.flushes[u] == s.flushes[u];
    assert BatchSound(o, s', s'.flushes[t].pc) by { assert BatchSound(o, s, s.flushes[t].pc); }
    FlagThrough(s, s', t);
  }

  lemma DropFront(accepted: seq<Entry>, removed: nat, n: nat)
    requires removed + n <= |accepted|
    ensures accepted[removed..][n..] == accepted[removed + n..]
  {}

  lemma SplicedAccounts(o: Options, s: State, t: nat)
    requires Inv(o, s) && t < |s.flushes| && s.flushes[t].pc.Writing? && s.flushes[t].pc.committed
    ensures |s.flushes[t].pc.batch| <= |s.queue| && Accounted(o, Spliced(s, |s.flushes[t].pc.batch|))
  {
    assert BatchSound(o, s, s.flushes[t].pc);
    DropFront(s.accepted, s.removed, |s.flushes[t].pc.batch|);
  }

  lemma ReplyOkKeepsInv(o: Options, s: State, t: nat)
    requires o.batchSize > 0 && Inv(o, s) && t < |s.flushes| && s.flushes[t].pc.Writing? && s.flushes[t].pc.committed
    ensures Inv(o, Next(o, s, WriteReplies(t, true)))
  {
    SplicedAccounts(o, s, t);
    var s' := Spliced(s, |s.flushes[t].pc.batch|);
    LoopHeadKeepsInv(o, s', t);
    assert Next(o, s, WriteReplies(t, true)) == LoopHead(o, s', t);
  }

  lemma RetryKeepsInv(o: Options, s: State, t: nat, attempt: nat)
    requires Inv(o, s) && t < |s.flushes| && s.flushes[t].pc.Writing?
    ensures Inv(o, SetPc(s, t, Sleeping(s.flushes[t].pc.batch, attempt)))
  {
    var s' := SetPc(s, t, Sleeping(s.flushes[t].pc.batch, attempt));
    assert BatchSound(o, s, s.flushes[t].pc);
    assert forall u: nat | u < |s.flushes| && u != t :: s'.flushes[u] == s.flushes[u];
    FlagThrough(s, s', t);
  }

  lemma FailKeepsInv(o: Options, s: State, t: nat)
    requires Inv(o, s) && t < |s.flushes| && s.flushes[t].pc.Writing?
    ensures Inv(o, Fail(s, t))
  {
    var s' := Fail(s, t);
    assert forall u: nat | u < |s.flushes| && u != t :: s'.flushes[u] == s.flushes[u];
    ReleaseSound(s.mutex, t);
    FlagAfterEnd(s, s', t);
  }

  lemma ReplyErrKeepsInv(o: Options, s: State, t: nat)
    requires Inv(o, s) && t < |s.flushes| && s.flushes[t].pc.Writing?
    ensures Inv(o, Next(o, s, WriteReplies(t, false)))
  {
    if s.flushes[t].pc.attempt + 1 <= s.flushes[t].retries {
      RetryKeepsInv(o, s, t, s.flushes[t].pc.attempt + 1);
    } else {
      FailKeepsInv(o, s, t);
    }
  }

  /** A flush ends for good; if it was the scheduled one the flag goes down with it. */
  lemma FlagAfterEnd(s: State, s': State, t: nat)
    requires FlagSound(s) && t < |s.flushes| == |s'.flushes| && s'.starting == s.starting
    requires forall u: nat | u < |s.flushes| && u != t :: s'.flushes[u] == s.flushes[u]
    requires !s.flushes[t].pc.Done? && s'.flushes[t].pc.Done? && s'.flushes[t].scheduled == s.flushes[t].scheduled
    requires s'.active == (s.active && !s.flushes[t].scheduled)
    ensures FlagSound(s')
  {
    forall u: nat | u < |s.flushes| ensures LiveScheduled(s'.flushes[u]) == (u != t && LiveScheduled(s.flushes[u])) {
      if u != t { assert s'.flushes[u] == s.flushes[u]; }
    }
    if s.flushes[t].scheduled { assert LiveScheduled(s.flushes[t]); }
  }

  lemma WakeKeepsInv(o: Options, s: State, t: nat)
    requires Inv(o, s) && t < |s.flushes| && s.flushes[t].pc.Sleeping?
    ensures Inv(o, Next(o, s, Wakes(t)))
  {
    var s' := Next(o, s, Wakes(t));
    assert BatchSound(o, s, s.flushes[t].pc);
    assert forall u: nat | u < |s.flushes| && u != t :: s'.flushes[u] == s.flushes[u];
    FlagThrough(s, s', t);
  }

  lemma ScheduleKeepsInv(o: Options, s: State)
    requires Inv(o, s)
    ensures Inv(o, Schedule(s))
  {
    forall t: nat | t < |s.flushes| && InSection(s.flushes[t].pc) ensures BatchSound(o, Schedule(s), s.flushes[t].pc) {
      assert BatchSound(o, s, s.flushes[t].pc);
    }
  }

  lemma FinallyKeepsInv(o: Options, s: State, t: nat)
    requires Inv(o, s) && t < |s.flushes| && s.flushes[t].pc == Drained
    ensures Inv(o, Next(o, s, Finally(t)))
  {
    var s' := SetPc(s.(active := false), t, Done(false));
    assert forall u: nat | u < |s.flushes| && u != t :: s'.flushes[u] == s.flushes[u];
    FlagAfterEnd(s, s', t);
    forall u: nat | u < |s'.flushes| && InSection(s'.flushes[u].pc)
      ensures Holds(s'.mutex, u) && BatchSound(o, s', s'.flushes[u].pc)
    {
      assert s'.flushes[u] == s.flushes[u] && BatchSound(o, s, s.flushes[u].pc);
    }
    ScheduleKeepsInv(o, s');
  }

  lemma NextKeepsInv(o: Options, s: State, step: Step)
    requires o.batchSize > 0 && Inv(o, s)
    ensures Inv(o, Next(o, s, step))
  {
    match step
    case Log(e) => LogKeepsInv(o, s, e);
    case ScheduleCall => ScheduleKeepsInv(o, s);
    case FlushCall(retries) => CallKeepsInv(o, s, false, retries);
    case StartScheduled => if s.starting { StartKeepsInv(o, s); }
    case Granted(t) =>
      if t < |s.flushes| && s.flushes[t].pc == Acquiring && Holds(s.mutex, t) { LoopHeadKeepsInv(o, s, t); }
    case DbCommits(t) =>
      if t < |s.flushes| && s.flushes[t].pc.Writing? && !s.flushes[t].pc.committed { CommitKeepsInv(o, s, t); }
    case WriteReplies(t, ok) =>
      if t < |s.flushes| && s.flushes[t].pc.Writing? {
        if ok { if s.flushes[t].pc.committed { ReplyOkKeepsInv(o, s, t); } } else { ReplyErrKeepsInv(o, s, t); }
      }
    case Wakes(t) => if t < |s.flushes| && s.flushes[t].pc.Sleeping? { WakeKeepsInv(o, s, t); }
    case Finally(t) => if t < |s.flushes| && s.flushes[t].pc == Drained { FinallyKeepsInv(o, s, t); }
    case ClearLastError => ClearKeepsInv(o, s);
  }

  lemma StartKeepsInv(o: Options, s: State)
    requires Inv(o, s) && s.starting
    ensures Inv(o, Next(o, s, StartScheduled))
  {
    var s' := s.(starting := false);
    forall t: nat | t < |s.flushes| && InSection(s.flushes[t].pc) ensures BatchSound(o, s', s.flushes[t].pc) {
      assert BatchSound(o, s, s.flushes[t].pc);
    }
    assert s'.(starting := true) == s;
    CallKeepsInv(o, s', true, o.maxRetries);
  }

  lemma ClearKeepsInv(o: Options, s: State)
    requires Inv(o, s)
    ensures Inv(o, s.(lastError := false))
  {
    var s' := s.(lastError := false);
    forall t: nat | t < |s.flushes| && InSection(s.flushes[t].pc) ensures BatchSound(o, s', s.flushes[t].pc) {
      assert BatchSound(o, s, s.flushes[t].pc);
    }
  }

  lemma {:induction false} RunKeepsInv(o: Options, s: State, steps: seq<Step>)
    requires o.batchSize > 0 && Inv(o, s)
    ensures Inv(o, Run(o, s, steps))
    decreases |steps|
  {
    if steps != [] {
      NextKeepsInv(o, s, steps[0]);
      RunKeepsInv(o, Next(o, s, steps[0]), steps[1..]);
    }
  }

  lemma BootInv(o: Options, table: seq<Entry>)
    ensures Inv(o, Boot(table))
  {
    assert UpTo(0) == [];
  }

  // ---------------------------------------------------------------- exactly once, in order

  /**
   * Whatever interleaves and however each write ends: what was accepted is what left the queue followed by the
   * queue; the table is the skip-duplicates image of a prefix of it, over the rows found at the start, that covers
   * everything removed and at most one batch more; no id is stored twice; and that prefix is stored unchanged
   * exactly when its ids are new and distinct.
   */
  lemma ExactlyOnceInOrder(o: Options, table: seq<Entry>, steps: seq<Step>)
    requires o.batchSize > 0 && DistinctIds(table)
    ensures var s := Run(o, Boot(table), steps);
      && s.removed <= s.persisted <= |s.accepted| && s.persisted <= s.removed + o.batchSize
      && s.accepted == s.accepted[..s.removed] + s.queue
      && s.rows == InsertSkip(table, s.accepted[..s.persisted]) && DistinctIds(s.rows)
      && (s.rows == table + s.accepted[..s.persisted] <==> DistinctIds(table + s.accepted[..s.persisted]))
  {
    BootInv(o, table);
    RunKeepsInv(o, Boot(table), steps);
    RunKeepsInitial(o, Boot(table), steps);
    AccountsInWords(o, Run(o, Boot(table), steps));
  }

  lemma NextKeepsInitial(o: Options, s: State, step: Step)
    ensures Next(o, s, step).initial == s.initial
  {
  }

  lemma {:induction false} RunKeepsInitial(o: Options, s: State, steps: seq<Step>)
    ensures Run(o, s, steps).initial == s.initial
    decreases |steps|
  {
    if steps != [] {
      NextKeepsInitial(o, s, steps[0]);
      RunKeepsInitial(o, Next(o, s, steps[0]), steps[1..]);
    }
  }

  lemma AccountsInWords(o: Options, s: State)
    requires Accounted(o, s) && DistinctIds(s.initial)
    ensures s.accepted == s.accepted[..s.removed] + s.queue && DistinctIds(s.rows)
    ensures s.rows == s.initial + s.accepted[..s.persisted] <==> DistinctIds(s.initial + s.accepted[..s.persisted])
  {
    NoIdTwice(s.initial, s.accepted[..s.persisted]);
    StoredUnchangedIffDistinct(s.initial, s.accepted[..s.persisted]);
  }

  predicate ReturnedNormally(f: Flush) { f.pc == Drained || f.pc == Done(false) }

  /** With the step `last` flush `t` returns normally. */
  predicate Returns(o: Options, table: seq<Entry>, steps: seq<Step>, last: Step, t: nat) {
    var s := Run(o, Boot(table), steps);
    var s' := Next(o, s, last);
    t < |s.flushes| && !ReturnedNormally(s.flushes[t]) && t < |s'.flushes| && ReturnedNormally(s'.flushes[t])
  }

  /** The moment a flush returns normally the queue is empty and everything ever accepted has been written. */
  lemma NormalReturnDrains(o: Options, table: seq<Entry>, steps: seq<Step>, last: Step, t: nat)
    requires o.batchSize > 0 && Returns(o, table, steps, last, t)
    ensures var s' := Next(o, Run(o, Boot(table), steps), last);
      s'.queue == [] && s'.rows == InsertSkip(table, s'.accepted)
  {
    BootInv(o, table);
    RunKeepsInv(o, Boot(table), steps);
    RunKeepsInitial(o, Boot(table), steps);
    ReturnDrains(o, Run(o, Boot(table), steps), last, t);
  }

  lemma ReturnDrains(o: Options, s: State, last: Step, t: nat)
    requires o.batchSize > 0 && Inv(o, s) && t < |s.flushes| && !ReturnedNormally(s.flushes[t])
    requires var s' := Next(o, s, last); t < |s'.flushes| && ReturnedNormally(s'.flushes[t])
    ensures Next(o, s, last).queue == [] && Next(o, s, last).rows == InsertSkip(s.initial, Next(o, s, last).accepted)
  {
    NextKeepsInv(o, s, last);
    NextKeepsInitial(o, s, last);
    ReturnsOnlyWhenEmpty(o, s, last, t);
    EmptyQueueMeansWritten(o, Next(o, s, last));
  }

  lemma LoopHeadReturnsWhenEmpty(o: Options, s: State, u: Ticket, t: nat)
    requires t < |s.flushes| && u < |s.flushes| && !ReturnedNormally(s.flushes[t])
    requires ReturnedNormally(LoopHead(o, s, u).flushes[t])
    ensures LoopHead(o, s, u).queue == []
  {
  }

  lemma ReturnsOnlyWhenEmpty(o: Options, s: State, step: Step, t: nat)
    requires t < |s.flushes| && !ReturnedNormally(s.flushes[t])
    requires var s' := Next(o, s, step); t < |s'.flushes| && ReturnedNormally(s'.flushes[t])
    ensures Next(o, s, step).queue == []
  {
    match step
    case Granted(u) => LoopHeadReturnsWhenEmpty(o, s, u, t);
    case WriteReplies(u, ok) => ReplyReturnsWhenEmpty(o, s, u, ok, t);
    case _ =>
  }

  lemma ReplyReturnsWhenEmpty(o: Options, s: State, u: Ticket, ok: bool, t: nat)
    requires t < |s.flushes| && !ReturnedNormally(s.flushes[t])
    requires var s' := Next(o, s, WriteReplies(u, ok)); t < |s'.flushes| && ReturnedNormally(s'.flushes[t])
    ensures Next(o, s, WriteReplies(u, ok)).queue == []
  {
    var n := if |s.flushes[u].pc.batch| < |s.queue| then |s.flushes[u].pc.batch| else |s.queue|;
    LoopHeadReturnsWhenEmpty(o, Spliced(s, n), u, t);
  }

  lemma EmptyQueueMeansWritten(o: Options, s: State)
    requires Inv(o, s) && s.queue == []
    ensures s.rows == InsertSkip(s.initial, s.accepted)
  {
    assert s.accepted[..|s.accepted|] == s.accepted;
  }

  // ---------------------------------------------------------------- no lost wakeup

  predicate Woken(o: Options, s: State) { o.autoFlush && s.queue != [] && !s.lastError ==> s.active || s.mutex.locked }

  /** At the head of the loop the holder either keeps the mutex or has found the queue empty. */
  lemma LoopHeadKeepsWoken(o: Options, s: State, t: Ticket)
    requires t < |s.flushes| && s.mutex.locked
    ensures Woken(o, LoopHead(o, s, t))
  {
  }

  lemma HeldIsLocked(m: Mutex, t: Ticket)
    requires Sound(m) && Holds(m, t)
    ensures m.locked
  {
  }

  lemma ReplyKeepsWoken(o: Options, s: State, t: Ticket, ok: bool)
    requires t < |s.flushes| && s.flushes[t].pc.Writing? && (ok ==> s.flushes[t].pc.committed) && s.mutex.locked
    ensures Woken(o, Next(o, s, WriteReplies(t, ok)))
  {
    if ok {
      var n := if |s.flushes[t].pc.batch| < |s.queue| then |s.flushes[t].pc.batch| else |s.queue|;
      LoopHeadKeepsWoken(o, Spliced(s, n), t);
    }
  }

  lemma NextKeepsWoken(o: Options, s: State, step: Step)
    requires o.batchSize > 0 && Inv(o, s) && Woken(o, s) && !step.ClearLastError?
    ensures Woken(o, Next(o, s, step))
  {
    match step
    case Granted(t) =>
      if t < |s.flushes| && Holds(s.mutex, t) {
        HeldIsLocked(s.mutex, t);
        LoopHeadKeepsWoken(o, s, t);
      }
    case WriteReplies(t, ok) =>
      if t < |s.flushes| && s.flushes[t].pc.Writing? && (ok ==> s.flushes[t].pc.committed) {
        HeldIsLocked(s.mutex, t);
        ReplyKeepsWoken(o, s, t, ok);
      }
    case _ =>
  }

  /** Nothing to write, or a flush is about: what a caller can look at before clearing the error. */
  predicate Minded(s: State) { s.queue == [] || s.active || s.mutex.locked }

  lemma StepKeepsWoken(o: Options, s: State, step: Step)
    requires o.batchSize > 0 && Inv(o, s) && Woken(o, s) && (step.ClearLastError? ==> Minded(s))
    ensures Woken(o, Next(o, s, step))
  {
    if !step.ClearLastError? { NextKeepsWoken(o, s, step); }
  }

  /** Every clear of the error in the run is taken where nothing is waiting unattended. */
  ghost predicate ClearsMinded(o: Options, s: State, steps: seq<Step>) {
    forall k | 0 <= k < |steps| && steps[k] == ClearLastError :: Minded(Run(o, s, steps[..k]))
  }

  lemma ClearsMindedTail(o: Options, s: State, steps: seq<Step>)
    requires steps != [] && ClearsMinded(o, s, steps)
    ensures steps[0] == ClearLastError ==> Minded(s)
    ensures ClearsMinded(o, Next(o, s, steps[0]), steps[1..])
  {
    if steps[0] == ClearLastError { assert Minded(Run(o, s, steps[..0])); }
    forall k | 0 <= k < |steps[1..]| && steps[1..][k] == ClearLastError
      ensures Minded(Run(o, Next(o, s, steps[0]), steps[1..][..k]))
    {
      assert steps[k + 1] == ClearLastError;
      assert steps[..k + 1][1..] == steps[1..][..k] && steps[..k + 1][0] == steps[0];
    }
  }

  lemma {:induction false} RunKeepsWoken(o: Options, s: State, steps: seq<Step>)
    requires o.batchSize > 0 && Inv(o, s) && Woken(o, s) && ClearsMinded(o, s, steps)
    ensures Woken(o, Run(o, s, steps)) && Inv(o, Run(o, s, steps))
    decreases |steps|
  {
    if steps != [] {
      ClearsMindedTail(o, s, steps);
      StepKeepsWoken(o, s, steps[0]);
      NextKeepsInv(o, s, steps[0]);
      RunKeepsWoken(o, Next(o, s, steps[0]), steps[1..]);
    }
  }

  /** A flush that will still look at the queue: on its way to the mutex, waiting for it, or inside. */
  ghost predicate Attended(s: State) {
    s.starting || exists t: nat | t < |s.flushes| :: !s.flushes[t].pc.Done?
  }

  /** Entries never wait, without an error to show for it, where no flush will see them. */
  ghost predicate Guarded(s: State) { s.queue != [] && !s.lastError ==> Attended(s) }

  /** With auto-flush on and no manual clearing of the error, that holds in every reachable state. */
  lemma NoLostWakeup(o: Options, table: seq<Entry>, steps: seq<Step>)
    requires o.batchSize > 0 && o.autoFlush && ClearLastError !in steps
    ensures Guarded(Run(o, Boot(table), steps))
  {
    BootInv(o, table);
    RunKeepsWoken(o, Boot(table), steps);
    WokenIsAttended(o, Run(o, Boot(table), steps));
  }

  lemma PrefixClearsMinded(o: Options, s: State, steps: seq<Step>, n: nat)
    requires n <= |steps| && ClearsMinded(o, s, steps)
    ensures ClearsMinded(o, s, steps[..n])
  {
    forall k | 0 <= k < n && steps[..n][k] == ClearLastError ensures Minded(Run(o, s, steps[..n][..k])) {
      assert steps[k] == ClearLastError && steps[..n][..k] == steps[..k];
    }
  }

  /** Without flag and lock no flush is left that would look at the queue. */
  lemma IdleIsUnattended(o: Options, s: State)
    requires Inv(o, s) && !s.active && !s.mutex.locked
    ensures !Attended(s)
  {
    forall t: nat | t < |s.flushes| ensures s.flushes[t].pc.Done? {
      UnlockedIsReleased(s.mutex, t);
      if s.flushes[t].pc == Drained { assert LiveScheduled(s.flushes[t]); }
    }
  }

  /** A clear taken where entries wait unattended leaves them so, with no error to show for it. */
  lemma ClearStrandsQueue(o: Options, s: State)
    requires Inv(o, s) && !Minded(s)
    ensures !Guarded(Next(o, s, ClearLastError))
  {
    IdleIsUnattended(o, s);
  }

  /**
   * The guarantee holds all along a run exactly when each clear of the error in it is taken where the queue is
   * empty, the flag is up or the mutex is locked.
   */
  lemma WakeupsKeptIffClearsMinded(o: Options, table: seq<Entry>, steps: seq<Step>)
    requires o.batchSize > 0 && o.autoFlush
    ensures var boot := Boot(table);
      (forall n | 0 <= n <= |steps| :: Guarded(Run(o, boot, steps[..n]))) <==> ClearsMinded(o, boot, steps)
  {
    var boot := Boot(table);
    BootInv(o, table);
    if ClearsMinded(o, boot, steps) {
      forall n | 0 <= n <= |steps| ensures Guarded(Run(o, boot, steps[..n])) {
        PrefixClearsMinded(o, boot, steps, n);
        RunKeepsWoken(o, boot, steps[..n]);
        WokenIsAttended(o, Run(o, boot, steps[..n]));
      }
    }
    if forall n | 0 <= n <= |steps| :: Guarded(Run(o, boot, steps[..n])) {
      forall k | 0 <= k < |steps| && steps[k] == ClearLastError ensures Minded(Run(o, boot, steps[..k])) {
        assert Guarded(Run(o, boot, steps[..k + 1]));
        ClearWasMinded(o, table, steps, k);
      }
    }
  }

  lemma ClearWasMinded(o: Options, table: seq<Entry>, steps: seq<Step>, k: nat)
    requires o.batchSize > 0 && k < |steps| && steps[k] == ClearLastError
      && Guarded(Run(o, Boot(table), steps[..k + 1]))
    ensures Minded(Run(o, Boot(table), steps[..k]))
  {
    var s := Run(o, Boot(table), steps[..k]);
    BootInv(o, table);
    RunKeepsInv(o, Boot(table), steps[..k]);
    assert steps[..k + 1] == steps[..k] + [ClearLastError];
    RunThen(o, Boot(table), steps[..k], ClearLastError);
    if !Minded(s) { ClearStrandsQueue(o, s); }
  }

  lemma WokenIsAttended(o: Options, s: State)
    requires Inv(o, s) && Woken(o, s) && o.autoFlush
    ensures Guarded(s)
  {
    if s.mutex.locked {
      var t := s.mutex.granted[|s.mutex.granted| - 1];
      TicketsInOrder(s.mutex, t);
      assert Holds(s.mutex, t);
      assert !s.flushes[t].pc.Done?;
    }
  }

  /** It does happen: one failed scheduled write, then a clear, leaves an entry with nobody to write it. */
  lemma ClearedQueueCanStall(e: Entry)
    ensures var o := Options(true, 1, 0);
      var s := Run(o, Boot([]), [Log(e), StartScheduled, Granted(0), WriteReplies(0, false), ClearLastError]);
      s.queue == [e] && !s.lastError && !Attended(s)
  {
    var o := Options(true, 1, 0);
    var s1 := Next(o, Boot([]), Log(e));
    var s2 := Next(o, s1, StartScheduled);
    OneIsTaken(e);
    var s4 := Next(o, Next(o, s2, Granted(0)), WriteReplies(0, false));
    assert s4.flushes == [Flush(true, 0, Done(true))];
    RunFive(o, Boot([]), Log(e), StartScheduled, Granted(0), WriteReplies(0, false), ClearLastError);
  }

  /** The scheduled flush has the one entry in hand. */
  lemma OneIsTaken(e: Entry)
    ensures var o := Options(true, 1, 0);
      var s := Next(o, Next(o, Next(o, Boot([]), Log(e)), StartScheduled), Granted(0));
      s.queue == [e] && s.flushes == [Flush(true, 0, Writing([e], 0, false))] && !s.starting
  {
    var o := Options(true, 1, 0);
    var s2 := Next(o, Next(o, Boot([]), Log(e)), StartScheduled);
    assert s2.flushes == [Flush(true, 0, Acquiring)] && Holds(s2.mutex, 0);
    assert s2.queue == [e] && Take(o, s2.queue) == [e];
  }

  lemma RunFive(o: Options, s: State, a: Step, b: Step, c: Step, d: Step, e: Step)
    ensures Run(o, s, [a, b, c, d, e]) == Next(o, Next(o, Next(o, Next(o, Next(o, s, a), b), c), d), e)
  {
    assert [] + [a] == [a] && [a] + [b] == [a, b] && [a, b] + [c] == [a, b, c] && [a, b, c] + [d] == [a, b, c, d];
    assert [a, b, c, d] + [e] == [a, b, c, d, e];
    RunThen(o, s, [], a);
    RunThen(o, s, [a], b);
    RunThen(o, s, [a, b], c);
    RunThen(o, s, [a, b, c], d);
    RunThen(o, s, [a, b, c, d], e);
  }

  // ---------------------------------------------------------------- the class, with its nested drain and retry loops

  /**
   * One `createMany` of the flush: what others do before it takes effect, while it answers, and during the retry delay.
   */
  datatype Turn = Turn(before: seq<Step>, commits: bool, answering: seq<Step>, acknowledged: bool, sleeping: seq<Step>)

  predicate Foreign(steps: seq<Step>, t: Ticket) {
    forall x | x in steps ::
      x.Log? || x.ScheduleCall? || x.FlushCall? || x.StartScheduled? || x.ClearLastError? || x.flush != t
  }

  /** The steps of one turn: the write takes effect or not, is answered, and unless acknowledged there is a delay. */
  function TurnSteps(t: Ticket, turn: Turn): seq<Step> {
    ReplySteps(t, turn) + if turn.acknowledged then [] else turn.sleeping + [Wakes(t)]
  }

  function ReplySteps(t: Ticket, turn: Turn): seq<Step> {
    turn.before + (if turn.commits then [DbCommits(t)] else []) + turn.answering + [WriteReplies(t, turn.acknowledged)]
  }

  function TurnsSteps(t: Ticket, turns: seq<Turn>): seq<Step> {
    if turns == [] then [] else TurnsSteps(t, turns[..|turns| - 1]) + TurnSteps(t, turns[|turns| - 1])
  }

  /** A whole call of `flush`, were it to go on for all its turns. */
  function Script(t: Ticket, retries: nat, acquiring: seq<Step>, turns: seq<Turn>): seq<Step> {
    [FlushCall(retries)] + acquiring + [Granted(t)] + TurnsSteps(t, turns)
  }

  lemma TurnsSnoc(t: Ticket, turns: seq<Turn>, k: nat)
    requires k < |turns|
    ensures TurnsSteps(t, turns[..k + 1]) == TurnsSteps(t, turns[..k]) + TurnSteps(t, turns[k])
  {
    assert turns[..k + 1][..k] == turns[..k];
  }

  lemma {:induction false} TurnsPrefix(t: Ticket, turns: seq<Turn>, k: nat)
    requires k <= |turns|
    ensures TurnsSteps(t, turns[..k]) <= TurnsSteps(t, turns)
  {
    if k == |turns| {
      assert turns[..k] == turns;
    } else {
      TurnsPrefix(t, turns[..|turns| - 1], k);
      assert turns[..|turns| - 1][..k] == turns[..k];
    }
  }

  lemma Associates(a: seq<Step>, b: seq<Step>, c: seq<Step>)
    ensures a + (b + c) == a + b + c
  {
  }

  lemma FrontOfConcat(a: seq<Turn>, b: seq<Turn>)
    requires b != []
    ensures a + b != [] && (a + b)[..|a + b| - 1] == a + b[..|b| - 1] && (a + b)[|a + b| - 1] == b[|b| - 1]
  {
  }

  lemma {:induction false} TurnsConcat(t: Ticket, a: seq<Turn>, b: seq<Turn>)
    ensures TurnsSteps(t, a + b) == TurnsSteps(t, a) + TurnsSteps(t, b)
  {
    if b == [] {
      assert a + b == a;
    } else {
      var n := |b| - 1;
      TurnsConcat(t, a, b[..n]);
      FrontOfConcat(a, b);
      Associates(TurnsSteps(t, a), TurnsSteps(t, b[..n]), TurnSteps(t, b[n]));
    }
  }

  predicate ForeignTurns(turns: seq<Turn>, t: Ticket) {
    forall x | x in turns :: Foreign(x.before, t) && Foreign(x.answering, t) && Foreign(x.sleeping, t)
      && (x.acknowledged ==> x.commits)
  }

  lemma ForeignRest(turns: seq<Turn>, t: Ticket, k: nat)
    requires ForeignTurns(turns, t) && k <= |turns|
    ensures ForeignTurns(turns[k..], t)
  {
    forall x | x in turns[k..] ensures x in turns {}
  }

  lemma ForeignStepLeavesFlush(o: Options, s: State, step: Step, t: nat)
    requires Foreign([step], t) && t < |s.flushes|
    ensures t < |Next(o, s, step).flushes| && Next(o, s, step).flushes[t] == s.flushes[t]
  {
    assert step in [step];
  }

  lemma {:induction false} ForeignLeavesFlush(o: Options, s: State, steps: seq<Step>, t: nat)
    requires Foreign(steps, t) && t < |s.flushes|
    ensures t < |Run(o, s, steps).flushes| && Run(o, s, steps).flushes[t] == s.flushes[t]
    decreases |steps|
  {
    if steps != [] {
      assert steps[0] in steps;
      ForeignStepLeavesFlush(o, s, steps[0], t);
      ForeignLeavesFlush(o, Next(o, s, steps[0]), steps[1..], t);
    }
  }

  lemma {:induction false} RunConcat(o: Options, s: State, a: seq<Step>, b: seq<Step>)
    ensures Run(o, s, a + b) == Run(o, Run(o, s, a), b)
    decreases |a|
  {
    if a == [] {
      assert a + b == b;
    } else {
      assert (a + b)[0] == a[0] && (a + b)[1..] == a[1..] + b;
      RunConcat(o, Next(o, s, a[0]), a[1..], b);
    }
  }

  lemma RunThen(o: Options, s: State, ran: seq<Step>, step: Step)
    ensures Run(o, s, ran + [step]) == Next(o, Run(o, s, ran), step)
  {
    RunConcat(o, s, ran, [step]);
    assert Run(o, Run(o, s, ran), [step]) == Run(o, Next(o, Run(o, s, ran), step), []);
  }

  /** The writer shared by the log and the incident service; `table` stands for the database table. */
  class QueuedWriter {
    const options: Options
    const initial: seq<Entry>
    var queue: seq<Entry>
    var lastError: bool
    var scheduledFlushActive: bool
    var drainMutex: Mutex
    var table: seq<Entry>
    /** Bookkeeping of the model: the pending microtask, every flush call, and the history. */
    var starting: bool
    var flushes: seq<Flush>
    var accepted: seq<Entry>
    var removed: nat
    var persisted: nat

    function View(): State
      reads this
    {
      State(queue, table, lastError, scheduledFlushActive, starting, drainMutex, flushes, initial, accepted,
        removed, persisted)
    }

    constructor (options: Options, rows: seq<Entry>)
      ensures this.options == options && View() == Boot(rows)
    {
      this.options, initial := options, rows;
      queue, lastError, scheduledFlushActive, drainMutex, table := [], false, false, FREE, rows;
      starting, flushes, accepted, removed, persisted := false, [], [], 0, 0;
    }

    /** The tail of `log` and of `appendEvent`. */
    method Push(e: Entry)
      modifies this
      ensures View() == Next(options, old(View()), Log(e))
    {
      queue := queue + [e];
      accepted := accepted + [e];
      if options.autoFlush { ScheduleFlush(); }
    }

    method ScheduleFlush()
      modifies this
      ensures View() == Schedule(old(View()))
    {
      if scheduledFlushActive || |queue| == 0 || lastError { return; }
      scheduledFlushActive := true;
      starting := true;
    }

    /** Everyone else, while this flush awaits. */
    method Others(steps: seq<Step>)
      modifies this
      ensures View() == Run(options, old(View()), steps)
    {
      var s := Run(options, View(), steps);
      RunKeepsInitial(options, View(), steps);
      queue, table, lastError, scheduledFlushActive, starting := s.queue, s.rows, s.lastError, s.active, s.starting;
      drainMutex, flushes, accepted, removed, persisted := s.mutex, s.flushes, s.accepted, s.removed, s.persisted;
    }

    method Await(ghost start: State, ghost ran: seq<Step>, t: nat, steps: seq<Step>)
      requires Foreign(steps, t) && t < |flushes| && View() == Run(options, start, ran)
      modifies this
      ensures View() == Run(options, start, ran + steps)
      ensures t < |flushes| && flushes[t] == old(flushes[t])
    {
      ForeignLeavesFlush(options, View(), steps, t);
      RunConcat(options, start, ran, steps);
      Others(steps);
    }

    /** The guard of the drain loop; leaving it runs the `finally` that releases the mutex. */
    method EnterLoop(t: nat)
      requires t < |flushes|
      modifies this
      ensures View() == LoopHead(options, old(View()), t)
    {
      if |queue| > 0 {
        flushes := flushes[t := flushes[t].(pc := Writing(Take(options, queue), 0, false))];
      } else {
        drainMutex := Release(drainMutex, t);
        flushes := flushes[t := flushes[t].(pc := if flushes[t].scheduled then Drained else Done(false))];
      }
    }

    /** The retries of one batch are over without success: keep the error, release, throw. */
    method Throw(t: nat)
      requires t < |flushes|
      modifies this
      ensures View() == Fail(old(View()), t)
    {
      lastError := true;
      drainMutex := Release(drainMutex, t);
      if flushes[t].scheduled { scheduledFlushActive := false; }
      flushes := flushes[t := flushes[t].(pc := Done(true))];
    }

    /** One `createMany`: the batch may reach the table whether or not the call reports success. */
    method Write(ghost start: State, ghost ran: seq<Step>, t: nat, batch: seq<Entry>, turn: Turn)
      returns (ghost ran': seq<Step>)
      requires Foreign(turn.before, t) && Foreign(turn.answering, t)
      requires t < |flushes| && flushes[t].pc.Writing? && flushes[t].pc.batch == batch && !flushes[t].pc.committed
      requires View() == Run(options, start, ran)
      modifies this
      ensures View() == Run(options, start, ran')
      ensures ran' + [WriteReplies(t, turn.acknowledged)] == ran + ReplySteps(t, turn)
      ensures t < |flushes| && flushes[t] == old(flushes[t]).(pc := old(flushes[t]).pc.(committed := turn.commits))
    {
      Await(start, ran, t, turn.before);
      ran' := ran + turn.before;
      if turn.commits {
        Commit(start, ran', t, batch);
        ran' := ran' + [DbCommits(t)];
      }
      Await(start, ran', t, turn.answering);
      ran' := ran' + turn.answering;
      WrittenAlong(t, ran, turn);
    }

    method Commit(ghost start: State, ghost ran: seq<Step>, t: nat, batch: seq<Entry>)
      requires t < |flushes| && flushes[t].pc.Writing? && flushes[t].pc.batch == batch && !flushes[t].pc.committed
      requires View() == Run(options, start, ran)
      modifies this
      ensures View() == Run(options, start, ran + [DbCommits(t)])
      ensures t < |flushes| && flushes[t] == old(flushes[t]).(pc := old(flushes[t]).pc.(committed := true))
    {
      RunThen(options, start, ran, DbCommits(t));
      table := InsertSkip(table, batch);
      persisted := removed + |batch|;
      flushes := flushes[t := flushes[t].(pc := flushes[t].pc.(committed := true))];
    }

    /** Success: splice the batch off the queue, forget the error, back to the loop guard. */
    method Acknowledged(ghost start: State, ghost ran: seq<Step>, t: nat)
      requires t < |flushes| && flushes[t].pc.Writing? && flushes[t].pc.committed && View() == Run(options, start, ran)
      modifies this
      ensures View() == Run(options, start, ran + [WriteReplies(t, true)])
      ensures t < |flushes| && AtGuard(t)
    {
      RunThen(options, start, ran, WriteReplies(t, true));
      var batch := flushes[t].pc.batch;
      var n := if |batch| < |queue| then |batch| else |queue|;
      queue := queue[n..];
      removed := removed + n;
      lastError := false;
      EnterLoop(t);
    }

    /** Past the loop guard: a fresh batch, or out with an empty queue and the mutex released. */
    ghost predicate AtGuard(t: nat)
      requires t < |flushes|
      reads this
    {
      IsFresh(flushes[t].pc) || (ReturnedNormally(flushes[t]) && queue == [] && !Holds(drainMutex, t))
    }

    /** Failure: count the attempt; sleep before the next one, or throw after the last. */
    method Refused(ghost start: State, ghost ran: seq<Step>, t: nat) returns (thrown: bool)
      requires t < |flushes| && flushes[t].pc.Writing? && View() == Run(options, start, ran)
      modifies this
      ensures View() == Run(options, start, ran + [WriteReplies(t, false)])
      ensures t < |flushes| && flushes[t].retries == old(flushes[t].retries)
      ensures var pc := old(flushes[t].pc);
        && (thrown <==> pc.attempt + 1 > flushes[t].retries)
        && flushes[t].pc == if thrown then Done(true) else Sleeping(pc.batch, pc.attempt + 1)
    {
      RunThen(options, start, ran, WriteReplies(t, false));
      var batch, attempt := flushes[t].pc.batch, flushes[t].pc.attempt + 1;
      if attempt <= flushes[t].retries {
        flushes := flushes[t := flushes[t].(pc := Sleeping(batch, attempt))];
        return false;
      }
      Throw(t);
      return true;
    }

    method Woke(ghost start: State, ghost ran: seq<Step>, t: nat)
      requires t < |flushes| && flushes[t].pc.Sleeping? && View() == Run(options, start, ran)
      modifies this
      ensures View() == Run(options, start, ran + [Wakes(t)])
      ensures t < |flushes|
        && flushes[t] == old(flushes[t]).(pc := Writing(old(flushes[t].pc.batch), old(flushes[t].pc.attempt), false))
    {
      RunThen(options, start, ran, Wakes(t));
      flushes := flushes[t := flushes[t].(pc := Writing(flushes[t].pc.batch, flushes[t].pc.attempt, false))];
    }

    /** One turn of the retry loop: write, then splice, sleep or throw. */
    method TakeTurn(ghost start: State, ghost ran: seq<Step>, t: nat, batch: seq<Entry>, attempt: nat, turn: Turn)
      returns (settled: bool, ghost ran': seq<Step>)
      requires ForeignTurns([turn], t) && t < |flushes| && flushes[t].pc == Writing(batch, attempt, false)
      requires View() == Run(options, start, ran)
      modifies this
      ensures View() == Run(options, start, ran') && t < |flushes|
      ensures settled && flushes[t].pc == Done(true) ==> ran' == ran + ReplySteps(t, turn)
      ensures settled && flushes[t].pc != Done(true) ==> AtGuard(t) && ran' == ran + TurnSteps(t, turn)
      ensures !settled ==>
        && flushes[t].pc == Writing(batch, attempt + 1, false)
        && attempt + 1 <= flushes[t].retries == old(flushes[t].retries)
        && ran' == ran + TurnSteps(t, turn)
    {
      assert turn in [turn];
      ran' := Write(start, ran, t, batch, turn);
      if turn.acknowledged {
        Acknowledged(start, ran', t);
        return true, ran' + [WriteReplies(t, true)];
      }
      settled := Refused(start, ran', t);
      ran' := ran' + [WriteReplies(t, false)];
      if !settled {
        Await(start, ran', t, turn.sleeping);
        Woke(start, ran' + turn.sleeping, t);
        SleptAlong(t, ran, turn);
        ran' := ran' + turn.sleeping + [Wakes(t)];
      }
    }

    /**
     * The retry loop over one batch, turn by turn: it ends with the acknowledged turn, with a throw after the last
     * retry, or, `done` being false, when the script ends before the batch is settled.
     */
    method WriteBatch(ghost start: State, ghost ran: seq<Step>, t: nat, turns: seq<Turn>)
      returns (k: nat, done: bool, ghost ran': seq<Step>)
      requires t < |flushes| && IsFresh(flushes[t].pc)
      requires ForeignTurns(turns, t) && View() == Run(options, start, ran)
      modifies this
      ensures View() == Run(options, start, ran') && t < |flushes| && k <= |turns| && (done ==> k > 0)
      ensures done && flushes[t].pc == Done(true) ==> ran <= ran' <= ran + TurnsSteps(t, turns[..k])
      ensures done && flushes[t].pc != Done(true) ==> AtGuard(t) && ran' == ran + TurnsSteps(t, turns[..k])
      ensures !done ==> k == |turns| && ran' == ran + TurnsSteps(t, turns) && flushes[t].pc.Writing?
    {
      ran' := ran;
      k := 0;
      var batch, retries := flushes[t].pc.batch, flushes[t].retries;
      var attempt := 0;
      while attempt <= retries && k < |turns|
        invariant k <= |turns| && t < |flushes| && flushes[t].retries == retries && attempt <= retries
        invariant flushes[t].pc == Writing(batch, attempt, false)
        invariant View() == Run(options, start, ran') && ran' == ran + TurnsSteps(t, turns[..k])
        decreases |turns| - k
      {
        assert turns[k] in turns;
        TurnsAlong(t, ran, turns, k);
        done, ran' := TakeTurn(start, ran', t, batch, attempt, turns[k]);
        k := k + 1;
        attempt := attempt + 1;
        if done { return; }
      }
      assert turns[..k] == turns;
      done := false;
    }

    /** `acquire`, as far as this call: it has the mutex when the others let it. */
    method AcquireMutex(ghost start: State, retries: nat, acquiring: seq<Step>) returns (t: nat, got: bool)
      requires start == View() && Foreign(acquiring, |flushes|)
      modifies this
      ensures t == old(|flushes|) && t < |flushes| && flushes[t] == Flush(false, retries, Acquiring)
      ensures got == Holds(drainMutex, t)
      ensures View() == Run(options, start, [FlushCall(retries)] + acquiring)
    {
      t := |flushes|;
      RunThen(options, start, [], FlushCall(retries));
      assert [] + [FlushCall(retries)] == [FlushCall(retries)];
      drainMutex := Acquire(drainMutex);
      flushes := flushes + [Flush(false, retries, Acquiring)];
      Await(start, [FlushCall(retries)], t, acquiring);
      got := Holds(drainMutex, t);
    }

    method FirstGuard(ghost start: State, ghost ran: seq<Step>, t: nat)
      requires t < |flushes| && flushes[t].pc == Acquiring && Holds(drainMutex, t) && View() == Run(options, start, ran)
      modifies this
      ensures View() == Run(options, start, ran + [Granted(t)])
      ensures t < |flushes| && AtGuard(t)
    {
      RunThen(options, start, ran, Granted(t));
      EnterLoop(t);
    }

    /**
     * `flush`: acquire, drain batch by batch with retries, release. Its nested loops are a run of the step machine
     * along the call's script, whatever the others do at each await; a normal return leaves nothing in the queue.
     * Otherwise the call has thrown, the script has ended, or the mutex has not come round yet.
     */
    method FlushQueue(retries: nat, acquiring: seq<Step>, turns: seq<Turn>)
      returns (returned: bool, ghost ran: seq<Step>)
      requires Foreign(acquiring, |flushes|) && ForeignTurns(turns, |flushes|)
      modifies this
      ensures View() == Run(options, old(View()), ran) && old(|flushes|) < |flushes|
      ensures [FlushCall(retries)] + acquiring <= ran <= Script(old(|flushes|), retries, acquiring, turns)
      ensures returned <==> ReturnedNormally(flushes[old(|flushes|)])
      ensures returned ==> queue == [] && !Holds(drainMutex, old(|flushes|))
      ensures !returned ==>
        || flushes[old(|flushes|)].pc == Done(true)
        || ran == Script(old(|flushes|), retries, acquiring, turns)
        || (ran == [FlushCall(retries)] + acquiring && !Holds(drainMutex, old(|flushes|)))
    {
      ghost var start := View();
      var t, got := AcquireMutex(start, retries, acquiring);
      ran := [FlushCall(retries)] + acquiring;
      if !got { return false, ran; }
      FirstGuard(start, ran, t);
      ran := ran + [Granted(t)];
      ghost var opening := ran;
      var k, settled;
      k, settled, ran := DrainQueue(start, opening, t, turns);
      Associates([FlushCall(retries)] + acquiring, [Granted(t)], TurnsSteps(t, turns));
      Associates([FlushCall(retries)] + acquiring, [Granted(t)], TurnsSteps(t, turns[..k]));
      TurnsPrefix(t, turns, k);
      returned := settled && ReturnedNormally(flushes[t]);
    }

    /** One batch of the drain loop. */
    method DrainBatch(
        ghost start: State, ghost opening: seq<Step>, ghost ran: seq<Step>, t: nat, turns: seq<Turn>, k: nat)
      returns (k': nat, settled: bool, ghost ran': seq<Step>)
      requires t < |flushes| && k < |turns| && IsFresh(flushes[t].pc) && ForeignTurns(turns, t)
      requires View() == Run(options, start, ran) && ran == opening + TurnsSteps(t, turns[..k])
      modifies this
      ensures View() == Run(options, start, ran') && t < |flushes| && k <= k' <= |turns| && (settled ==> k < k')
      ensures AfterTurns(t, opening, turns, k', settled, ran')
    {
      ForeignRest(turns, t, k);
      var used;
      used, settled, ran' := WriteBatch(start, ran, t, turns[k..]);
      RanAlong(t, opening, ran, ran', turns, k, used, settled, flushes[t].pc == Done(true));
      k' := k + used;
    }

    /** The drain loop, from its first guard to its last. */
    method DrainQueue(ghost start: State, ghost opening: seq<Step>, t: nat, turns: seq<Turn>)
      returns (k: nat, settled: bool, ghost ran: seq<Step>)
      requires t < |flushes| && AtGuard(t) && ForeignTurns(turns, t) && View() == Run(options, start, opening)
      modifies this
      ensures View() == Run(options, start, ran) && t < |flushes| && k <= |turns|
      ensures AfterTurns(t, opening, turns, k, settled, ran)
      ensures settled && IsFresh(flushes[t].pc) ==> ran == opening + TurnsSteps(t, turns)
    {
      k, settled, ran := 0, true, opening;
      while settled && k < |turns| && IsFresh(flushes[t].pc)
        invariant k <= |turns| && t < |flushes| && View() == Run(options, start, ran)
        invariant AfterTurns(t, opening, turns, k, settled, ran)
        decreases settled, |turns| - k
      {
        k, settled, ran := DrainBatch(start, opening, ran, t, turns, k);
      }
      assert turns[..|turns|] == turns;
    }

    /** Where the drain loop stands after the first `k` turns. */
    ghost predicate AfterTurns(t: nat, opening: seq<Step>, turns: seq<Turn>, k: nat, settled: bool, ran: seq<Step>)
      requires t < |flushes| && k <= |turns|
      reads this
    {
      if !settled then flushes[t].pc.Writing? && ran == opening + TurnsSteps(t, turns)
      else if flushes[t].pc == Done(true) then opening <= ran <= opening + TurnsSteps(t, turns)
      else AtGuard(t) && ran == opening + TurnsSteps(t, turns[..k])
    }
  }

  lemma WrittenAlong(t: Ticket, ran: seq<Step>, turn: Turn)
    ensures var commit := if turn.commits then [DbCommits(t)] else [];
      var reply := [WriteReplies(t, turn.acknowledged)];
      && ran + turn.before + commit + turn.answering + reply == ran + ReplySteps(t, turn)
      && (!turn.commits ==> ran + turn.before + turn.answering + reply == ran + ReplySteps(t, turn))
  {
  }

  lemma SleptAlong(t: Ticket, ran: seq<Step>, turn: Turn)
    requires !turn.acknowledged
    ensures ran + ReplySteps(t, turn) + turn.sleeping + [Wakes(t)] == ran + TurnSteps(t, turn)
  {
    Associates(ran + ReplySteps(t, turn), turn.sleeping, [Wakes(t)]);
    Associates(ran, ReplySteps(t, turn), turn.sleeping + [Wakes(t)]);
  }

  lemma TurnsAlong(t: Ticket, ran: seq<Step>, turns: seq<Turn>, k: nat)
    requires k < |turns|
    ensures var next := ran + TurnsSteps(t, turns[..k + 1]);
      && ran + TurnsSteps(t, turns[..k]) + TurnSteps(t, turns[k]) == next
      && ran <= ran + TurnsSteps(t, turns[..k]) + ReplySteps(t, turns[k]) <= next
  {
    var so, turn := TurnsSteps(t, turns[..k]), turns[k];
    var rest := if turn.acknowledged then [] else turn.sleeping + [Wakes(t)];
    TurnsSnoc(t, turns, k);
    Associates(ran, so, TurnSteps(t, turn));
    Associates(ran + so, ReplySteps(t, turn), rest);
  }

  lemma SlicesJoin(turns: seq<Turn>, k: nat, used: nat)
    requires k <= k + used <= |turns|
    ensures turns[..k] + turns[k..][..used] == turns[..k + used] && turns[..k] + turns[k..] == turns
  {
    assert turns[k..][..used] == turns[k..k + used];
  }

  lemma TurnsJoin(t: Ticket, turns: seq<Turn>, k: nat, used: nat)
    requires k <= k + used <= |turns|
    ensures TurnsSteps(t, turns[..k]) + TurnsSteps(t, turns[k..][..used]) == TurnsSteps(t, turns[..k + used])
  {
    SlicesJoin(turns, k, used);
    TurnsConcat(t, turns[..k], turns[k..][..used]);
  }

  lemma TurnsRest(t: Ticket, turns: seq<Turn>, k: nat)
    requires k <= |turns|
    ensures TurnsSteps(t, turns[..k]) + TurnsSteps(t, turns[k..]) == TurnsSteps(t, turns)
  {
    SlicesJoin(turns, k, 0);
    TurnsConcat(t, turns[..k], turns[k..]);
  }

  lemma Shifts(opening: seq<Step>, so: seq<Step>, here: seq<Step>, upTo: seq<Step>, rest: seq<Step>, all: seq<Step>)
    requires so + here == upTo && so + rest == all && upTo <= all
    ensures opening <= opening + so && opening + so + rest == opening + all && opening + so + here == opening + upTo
    ensures opening + upTo <= opening + all
  {
    Associates(opening, so, here);
    Associates(opening, so, rest);
  }

  lemma Within(a: seq<Step>, b: seq<Step>, c: seq<Step>, d: seq<Step>, e: seq<Step>)
    requires a <= b <= c <= d <= e
    ensures a <= c <= e
  {
  }

  lemma BatchAlong(t: Ticket, opening: seq<Step>, ran: seq<Step>, turns: seq<Turn>, k: nat, used: nat)
    requires k <= k + used <= |turns| && ran == opening + TurnsSteps(t, turns[..k])
    ensures opening <= ran && ran + TurnsSteps(t, turns[k..]) == opening + TurnsSteps(t, turns)
    ensures ran + TurnsSteps(t, turns[k..][..used]) == opening + TurnsSteps(t, turns[..k + used])
    ensures opening + TurnsSteps(t, turns[..k + used]) <= opening + TurnsSteps(t, turns)
  {
    TurnsJoin(t, turns, k, used);
    TurnsRest(t, turns, k);
    TurnsPrefix(t, turns, k + used);
    Shifts(opening, TurnsSteps(t, turns[..k]), TurnsSteps(t, turns[k..][..used]), TurnsSteps(t, turns[..k + used]),
           TurnsSteps(t, turns[k..]), TurnsSteps(t, turns));
  }

  /** What a batch adds to the steps run so far, seen from the start of the loop. */
  lemma RanAlong(
      t: Ticket, opening: seq<Step>, ran: seq<Step>, ran': seq<Step>, turns: seq<Turn>, k: nat, used: nat,
      settled: bool, thrown: bool)
    requires k <= k + used <= |turns| && ran == opening + TurnsSteps(t, turns[..k])
    requires settled && thrown ==> ran <= ran' <= ran + TurnsSteps(t, turns[k..][..used])
    requires settled && !thrown ==> ran' == ran + TurnsSteps(t, turns[k..][..used])
    requires !settled ==> ran' == ran + TurnsSteps(t, turns[k..])
    ensures settled && thrown ==> opening <= ran' <= opening + TurnsSteps(t, turns)
    ensures settled && !thrown ==> ran' == opening + TurnsSteps(t, turns[..k + used])
    ensures !settled ==> ran' == opening + TurnsSteps(t, turns)
  {
    BatchAlong(t, opening, ran, turns, k, used);
    if settled && thrown {
      Within(opening, ran, ran', ran + TurnsSteps(t, turns[k..][..used]), opening + TurnsSteps(t, turns));
    }
  }

  /** A batch just taken at the loop guard. */
  predicate IsFresh(pc: Pc) { pc.Writing? && pc.attempt == 0 && !pc.committed }
}
