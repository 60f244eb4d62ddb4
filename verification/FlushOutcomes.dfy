/**
 * What the callers of the durable queue can rely on beyond the rows: when the error stands, when a flush gives up,
 * how many writes a flush needs, and when anything is flushed at all.
 */
module FlushOutcomes {
  import opened AsyncMutex
  import opened DurableQueue

  /** The queue after the first `n` steps. */
  function At(o: Options, table: seq<Entry>, steps: seq<Step>, n: nat): State
    requires n <= |steps|
  {
    DurableQueue.Run(o, Boot(table), steps[..n])
  }

  lemma AtNext(o: Options, table: seq<Entry>, steps: seq<Step>, n: nat)
    requires n < |steps|
    ensures At(o, table, steps, n + 1) == Next(o, At(o, table, steps, n), steps[n])
  {
    assert steps[..n + 1] == steps[..n] + [steps[n]];
    RunThen(o, Boot(table), steps[..n], steps[n]);
  }

  lemma AtInv(o: Options, table: seq<Entry>, steps: seq<Step>, n: nat)
    requires o.batchSize > 0 && n <= |steps|
    ensures Inv(o, At(o, table, steps, n))
  {
    BootInv(o, table);
    DurableQueue.RunKeepsInv(o, Boot(table), steps[..n]);
  }

  // ---------------------------------------------------------------- when the error stands

  predicate HasThrown(s: State, t: nat) { t < |s.flushes| && s.flushes[t].pc == Done(true) }

  /** With the step a flush throws: a write is refused that may not be retried again. */
  predicate Throws(s: State, step: Step) {
    && step.WriteReplies? && !step.ok && step.flush < |s.flushes|
    && s.flushes[step.flush].pc.Writing? && s.flushes[step.flush].pc.attempt >= s.flushes[step.flush].retries
  }

  /** With the step a write that took effect is acknowledged to the flush that waits for it. */
  predicate Acknowledges(s: State, step: Step) {
    && step.WriteReplies? && step.ok && step.flush < |s.flushes|
    && s.flushes[step.flush].pc.Writing? && s.flushes[step.flush].pc.committed
  }

  lemma LoopHeadThrowsNot(o: Options, s: State, u: nat, t: nat)
    requires u < |s.flushes| && t < |s.flushes|
    ensures HasThrown(LoopHead(o, s, u), t) ==> HasThrown(s, t)
    ensures LoopHead(o, s, u).lastError == s.lastError
  {
  }

  lemma ReplyThrows(o: Options, s: State, u: nat, ok: bool, t: nat)
    requires u < |s.flushes| && t < |s.flushes| && s.flushes[u].pc.Writing? && (ok ==> s.flushes[u].pc.committed)
    ensures var s' := Next(o, s, WriteReplies(u, ok));
      && (!HasThrown(s, t) && HasThrown(s', t) <==> Throws(s, WriteReplies(u, ok)) && t == u)
      && s'.lastError == (Throws(s, WriteReplies(u, ok)) || (!ok && s.lastError))
  {
    if ok {
      var n := if |s.flushes[u].pc.batch| < |s.queue| then |s.flushes[u].pc.batch| else |s.queue|;
      LoopHeadThrowsNot(o, Spliced(s, n), u, t);
    }
  }

  /** So it is: the flush is seen to have thrown with that step, and with no other. */
  lemma ThrowsIsSeen(o: Options, s: State, step: Step, t: nat)
    requires t < |s.flushes|
    ensures !HasThrown(s, t) && HasThrown(Next(o, s, step), t) <==> Throws(s, step) && step.flush == t
  {
    match step
    case Granted(u) => if u < |s.flushes| { LoopHeadThrowsNot(o, s, u, t); }
    case WriteReplies(u, ok) =>
      if u < |s.flushes| && s.flushes[u].pc.Writing? && (ok ==> s.flushes[u].pc.committed) {
        ReplyThrows(o, s, u, ok, t);
      }
    case _ =>
  }

  lemma ErrorAfter(o: Options, s: State, step: Step)
    ensures Next(o, s, step).lastError <==>
      Throws(s, step) || (s.lastError && !Acknowledges(s, step) && step != ClearLastError)
  {
    match step
    case Granted(u) => if u < |s.flushes| { LoopHeadThrowsNot(o, s, u, u); }
    case WriteReplies(u, ok) =>
      if u < |s.flushes| && s.flushes[u].pc.Writing? && (ok ==> s.flushes[u].pc.committed) {
        ReplyThrows(o, s, u, ok, u);
      }
    case _ =>
  }

  lemma ErrorAt(o: Options, table: seq<Entry>, steps: seq<Step>, n: nat)
    requires n < |steps|
    ensures At(o, table, steps, n + 1).lastError <==>
      Throws(At(o, table, steps, n), steps[n]) || (At(o, table, steps, n).lastError && !Forgets(o, table, steps, n))
  {
    AtNext(o, table, steps, n);
    ErrorAfter(o, At(o, table, steps, n), steps[n]);
  }

  /** A flush throws with step `j`, and up to step `n` nothing makes the error go away. */
  predicate ThrownSince(o: Options, table: seq<Entry>, steps: seq<Step>, j: nat, n: nat)
    requires j < n <= |steps|
  {
    Throws(At(o, table, steps, j), steps[j]) && forall i | j < i < n :: !Forgets(o, table, steps, i)
  }

  predicate Forgets(o: Options, table: seq<Entry>, steps: seq<Step>, i: nat)
    requires i < |steps|
  {
    Acknowledges(At(o, table, steps, i), steps[i]) || steps[i] == ClearLastError
  }

  predicate Stands(o: Options, table: seq<Entry>, steps: seq<Step>, n: nat)
    requires n <= |steps|
  {
    exists j | 0 <= j < n :: ThrownSince(o, table, steps, j, n)
  }

  /** Set at `j` and not cleared up to `n`. */
  predicate SetSince(sets: nat -> bool, clears: nat -> bool, j: nat, n: nat) {
    sets(j) && forall i: nat | j < i < n :: !clears(i)
  }

  /** A flag that one kind of event sets and another clears stands when it was set and not cleared since. */
  lemma {:induction false} FlagStandsIff(flag: nat -> bool, sets: nat -> bool, clears: nat -> bool, n: nat)
    requires !flag(0) && forall i: nat | i < n :: flag(i + 1) <==> sets(i) || (flag(i) && !clears(i))
    ensures flag(n) <==> exists j: nat | j < n :: SetSince(sets, clears, j, n)
  {
    if n > 0 {
      FlagStandsIff(flag, sets, clears, n - 1);
      assert flag(n) <==> sets(n - 1) || (flag(n - 1) && !clears(n - 1));
      if sets(n - 1) { assert SetSince(sets, clears, n - 1, n); }
      if flag(n - 1) && !clears(n - 1) {
        var j: nat :| j < n - 1 && SetSince(sets, clears, j, n - 1);
        assert SetSince(sets, clears, j, n);
      }
      if j: nat :| j < n - 1 && SetSince(sets, clears, j, n) {
        assert SetSince(sets, clears, j, n - 1) && !clears(n - 1);
      }
    }
  }

  /**
   * At every moment of every run: the error stands exactly when a flush has thrown and since then neither a write was
   * acknowledged nor the error cleared by hand. One acknowledged write is enough to forget it.
   */
  lemma ErrorStandsIff(o: Options, table: seq<Entry>, steps: seq<Step>, n: nat)
    requires n <= |steps|
    ensures At(o, table, steps, n).lastError <==> Stands(o, table, steps, n)
  {
    var flag := (i: nat) => i <= |steps| && At(o, table, steps, i).lastError;
    var sets := (i: nat) => i < |steps| && Throws(At(o, table, steps, i), steps[i]);
    var clears := (i: nat) => i < |steps| && Forgets(o, table, steps, i);
    forall i: nat | i < n ensures flag(i + 1) <==> sets(i) || (flag(i) && !clears(i)) {
      ErrorAt(o, table, steps, i);
    }
    FlagStandsIff(flag, sets, clears, n);
    forall j | 0 <= j < n ensures SetSince(sets, clears, j, n) <==> ThrownSince(o, table, steps, j, n) {
      assert forall i: nat | j < i < n :: clears(i) <==> Forgets(o, table, steps, i);
    }
  }

  /** Under auto-flush a logged entry is attended exactly when no error stands, or a flush is about already. */
  lemma LoggedIsAttendedIff(o: Options, table: seq<Entry>, steps: seq<Step>, n: nat, e: Entry)
    requires o.batchSize > 0 && o.autoFlush && n <= |steps|
    ensures var s := At(o, table, steps, n); Attended(Next(o, s, Log(e))) <==> !s.lastError || Attended(s)
  {
    var s := At(o, table, steps, n);
    AtInv(o, table, steps, n);
    var s' := Next(o, s, Log(e));
    assert s'.flushes == s.flushes;
    if s.active && !s.starting {
      var t: nat :| t < |s.flushes| && LiveScheduled(s.flushes[t]);
      assert !s'.flushes[t].pc.Done?;
    }
  }

  /**
   * So a failure is forgotten with the first acknowledged write: from then on, until a flush throws again, whatever is
   * logged under auto-flush finds a flush to write it.
   */
  lemma AcknowledgedQueueRecovers(o: Options, table: seq<Entry>, steps: seq<Step>, j: nat, n: nat, e: Entry)
    requires o.batchSize > 0 && o.autoFlush && j < n <= |steps|
    requires Acknowledges(At(o, table, steps, j), steps[j])
    requires forall i | j < i < n :: !Throws(At(o, table, steps, i), steps[i])
    ensures Attended(Next(o, At(o, table, steps, n), Log(e)))
  {
    ErrorStandsIff(o, table, steps, n);
    assert Forgets(o, table, steps, j);
    LoggedIsAttendedIff(o, table, steps, n, e);
  }

  // ---------------------------------------------------------------- when a flush gives up

  /** Consecutive refusals that flush `t` has had for the batch in hand. */
  function Refusals(o: Options, table: seq<Entry>, steps: seq<Step>, n: nat, t: nat): nat
    requires n <= |steps|
    decreases n
  {
    if n == 0 then 0
    else
      var before, step := At(o, table, steps, n - 1), steps[n - 1];
      if t < |before.flushes| && before.flushes[t].pc.Writing? && step == WriteReplies(t, false) then
        Refusals(o, table, steps, n - 1, t) + 1
      else if (step == Granted(t) && Waits(before, t)) || (Acknowledges(before, step) && step.flush == t) then 0
      else Refusals(o, table, steps, n - 1, t)
  }

  predicate Waits(s: State, t: nat) { t < |s.flushes| && s.flushes[t].pc == Acquiring }

  predicate HasBatch(s: State, t: nat) { t < |s.flushes| && InSection(s.flushes[t].pc) }

  lemma LoopHeadFlush(o: Options, s: State, u: nat, t: nat)
    requires u < |s.flushes| && t < |s.flushes|
    ensures var f := LoopHead(o, s, u).flushes;
      && |f| == |s.flushes| && f[t].retries == s.flushes[t].retries && f[t].scheduled == s.flushes[t].scheduled
      && (t != u ==> f[t] == s.flushes[t]) && (t == u && InSection(f[t].pc) ==> f[t].pc.attempt == 0)
  {
  }

  lemma ReplyFlush(o: Options, s: State, u: nat, ok: bool, t: nat)
    requires u < |s.flushes| && t < |s.flushes| && s.flushes[u].pc.Writing? && (ok ==> s.flushes[u].pc.committed)
    ensures var f := Next(o, s, WriteReplies(u, ok)).flushes;
      && |f| == |s.flushes| && f[t].retries == s.flushes[t].retries && f[t].scheduled == s.flushes[t].scheduled
      && (t != u ==> f[t] == s.flushes[t])
      && (t == u && InSection(f[t].pc) ==> f[t].pc.attempt == if ok then 0 else s.flushes[t].pc.attempt + 1)
  {
    if ok {
      var n := if |s.flushes[u].pc.batch| < |s.queue| then |s.flushes[u].pc.batch| else |s.queue|;
      LoopHeadFlush(o, Spliced(s, n), u, t);
    }
  }

  /** How one step of the machine moves the attempt counter of a flush. */
  lemma AttemptAfter(o: Options, s: State, step: Step, t: nat)
    requires HasBatch(Next(o, s, step), t)
    ensures var pc' := Next(o, s, step).flushes[t].pc;
      if HasBatch(s, t) then
        var pc := s.flushes[t].pc;
        pc'.attempt ==
          if step == WriteReplies(t, false) && pc.Writing? then pc.attempt + 1
          else if Acknowledges(s, step) && step.flush == t then 0
          else pc.attempt
      else Waits(s, t) && step == Granted(t) && pc'.attempt == 0
  {
    match step
    case Granted(u) => if u < |s.flushes| && t < |s.flushes| { LoopHeadFlush(o, s, u, t); }
    case WriteReplies(u, ok) =>
      if u < |s.flushes| && t < |s.flushes| && s.flushes[u].pc.Writing? && (ok ==> s.flushes[u].pc.committed) {
        ReplyFlush(o, s, u, ok, t);
      }
    case _ =>
  }

  /** The attempt counter counts the refusals of the batch in hand. */
  lemma {:induction false} AttemptsAreRefusals(o: Options, table: seq<Entry>, steps: seq<Step>, n: nat, t: nat)
    requires o.batchSize > 0 && n <= |steps| && HasBatch(At(o, table, steps, n), t)
    ensures At(o, table, steps, n).flushes[t].pc.attempt == Refusals(o, table, steps, n, t)
    decreases n
  {
    if n > 0 {
      var s, step := At(o, table, steps, n - 1), steps[n - 1];
      AtNext(o, table, steps, n - 1);
      AttemptAfter(o, s, step, t);
      if HasBatch(s, t) { AttemptsAreRefusals(o, table, steps, n - 1, t); }
    }
  }

  /** What a call of `flush` is given, and that it keeps it. */
  lemma CallsKeepRetries(o: Options, s: State, step: Step, t: nat)
    requires t < |Next(o, s, step).flushes|
    ensures var f := Next(o, s, step).flushes[t];
      if t < |s.flushes| then f.retries == s.flushes[t].retries && f.scheduled == s.flushes[t].scheduled
      else f.pc == Acquiring && (if step == StartScheduled then f.scheduled && f.retries == o.maxRetries
                                 else step == FlushCall(f.retries) && !f.scheduled)
  {
    match step
    case Granted(u) => if u < |s.flushes| && t < |s.flushes| { LoopHeadFlush(o, s, u, t); }
    case WriteReplies(u, ok) =>
      if u < |s.flushes| && t < |s.flushes| && s.flushes[u].pc.Writing? && (ok ==> s.flushes[u].pc.committed) {
        ReplyFlush(o, s, u, ok, t);
      }
    case _ =>
  }

  ghost predicate WithinRetries(o: Options, s: State) {
    forall t: nat | t < |s.flushes| ::
      && (s.flushes[t].scheduled ==> s.flushes[t].retries == o.maxRetries)
      && (InSection(s.flushes[t].pc) ==> s.flushes[t].pc.attempt <= s.flushes[t].retries)
  }

  lemma AttemptStaysWithin(o: Options, s: State, step: Step, t: nat)
    requires WithinRetries(o, s) && HasBatch(Next(o, s, step), t)
    ensures Next(o, s, step).flushes[t].pc.attempt <= Next(o, s, step).flushes[t].retries
  {
    AttemptAfter(o, s, step, t);
    CallsKeepRetries(o, s, step, t);
  }

  lemma {:induction false} AlwaysWithinRetries(o: Options, table: seq<Entry>, steps: seq<Step>, n: nat)
    requires n <= |steps|
    ensures WithinRetries(o, At(o, table, steps, n))
    decreases n
  {
    if n > 0 {
      var s := At(o, table, steps, n - 1);
      AlwaysWithinRetries(o, table, steps, n - 1);
      AtNext(o, table, steps, n - 1);
      var s' := Next(o, s, steps[n - 1]);
      forall t: nat | t < |s'.flushes|
        ensures s'.flushes[t].scheduled ==> s'.flushes[t].retries == o.maxRetries
        ensures InSection(s'.flushes[t].pc) ==> s'.flushes[t].pc.attempt <= s'.flushes[t].retries
      {
        CallsKeepRetries(o, s, steps[n - 1], t);
        if HasBatch(Next(o, s, steps[n - 1]), t) { AttemptStaysWithin(o, s, steps[n - 1], t); }
      }
    }
  }

  /**
   * At every moment of every run: a flush throws with the next step exactly when a write of its batch is refused that
   * has been refused as often before as the flush may retry. A scheduled flush retries as often as the options say.
   */
  lemma GivesUpIff(o: Options, table: seq<Entry>, steps: seq<Step>, n: nat, t: nat)
    requires o.batchSize > 0 && n < |steps| && t < |At(o, table, steps, n).flushes|
    ensures var s := At(o, table, steps, n);
      && (s.flushes[t].scheduled ==> s.flushes[t].retries == o.maxRetries)
      && (!HasThrown(s, t) && HasThrown(At(o, table, steps, n + 1), t) <==>
            && steps[n] == WriteReplies(t, false) && s.flushes[t].pc.Writing?
            && Refusals(o, table, steps, n, t) == s.flushes[t].retries)
  {
    var s := At(o, table, steps, n);
    AtNext(o, table, steps, n);
    AlwaysWithinRetries(o, table, steps, n);
    ThrowsIsSeen(o, s, steps[n], t);
    if HasBatch(s, t) { AttemptsAreRefusals(o, table, steps, n, t); }
  }

  // ---------------------------------------------------------------- how many writes a flush needs

  /** `writes` times the next batch, written and acknowledged. */
  function Writes(t: Ticket, writes: nat): seq<Step> {
    if writes == 0 then [] else [DbCommits(t), WriteReplies(t, true)] + Writes(t, writes - 1)
  }

  /** Flush `t` stands at the guard of its drain loop: with the next batch in hand, or out with an empty queue. */
  predicate AtGuard(o: Options, s: State, t: nat) {
    t < |s.flushes| &&
    if s.queue == [] then ReturnedNormally(s.flushes[t]) else s.flushes[t].pc == Writing(Take(o, s.queue), 0, false)
  }

  lemma GuardAfterLoopHead(o: Options, s: State, t: nat)
    requires t < |s.flushes|
    ensures AtGuard(o, LoopHead(o, s, t), t) && LoopHead(o, s, t).queue == s.queue
  {
  }

  function Left(batchSize: nat, queue: seq<Entry>): seq<Entry> {
    if |queue| <= batchSize then [] else queue[batchSize..]
  }

  lemma OneWrite(o: Options, s: State, t: nat)
    requires AtGuard(o, s, t)
    ensures var s' := Next(o, Next(o, s, DbCommits(t)), WriteReplies(t, true));
      AtGuard(o, s', t) && s'.queue == Left(o.batchSize, s.queue)
  {
    if s.queue != [] {
      var c := Next(o, s, DbCommits(t));
      var batch := Take(o, s.queue);
      assert c.flushes[t].pc == Writing(batch, 0, true) && c.queue == s.queue;
      GuardAfterLoopHead(o, Spliced(c, |batch|), t);
    }
  }

  lemma {:induction false} WritesDrain(o: Options, s: State, t: nat, writes: nat)
    requires AtGuard(o, s, t)
    ensures var s' := DurableQueue.Run(o, s, Writes(t, writes));
      AtGuard(o, s', t) && (s'.queue == [] <==> |s.queue| <= Capacity(writes, o.batchSize))
    decreases writes
  {
    if writes > 0 {
      var s1 := Next(o, Next(o, s, DbCommits(t)), WriteReplies(t, true));
      OneWrite(o, s, t);
      WritesDrain(o, s1, t, writes - 1);
      WritesUnfold(o, s, t, writes);
    }
  }

  /** How many entries so many writes take at most. */
  function Capacity(writes: nat, batchSize: nat): nat {
    if writes == 0 then 0 else Capacity(writes - 1, batchSize) + batchSize
  }

  lemma {:induction false} CapacityIsProduct(writes: nat, batchSize: nat)
    ensures Capacity(writes, batchSize) == writes * batchSize
  {
    if writes > 0 { CapacityIsProduct(writes - 1, batchSize); }
  }

  lemma WritesUnfold(o: Options, s: State, t: nat, writes: nat)
    requires writes > 0
    ensures DurableQueue.Run(o, s, Writes(t, writes)) ==
      DurableQueue.Run(o, Next(o, Next(o, s, DbCommits(t)), WriteReplies(t, true)), Writes(t, writes - 1))
  {
    RunConcat(o, s, [DbCommits(t), WriteReplies(t, true)], Writes(t, writes - 1));
    RunTwo(o, s, DbCommits(t), WriteReplies(t, true));
  }

  lemma RunTwo(o: Options, s: State, a: Step, b: Step)
    ensures DurableQueue.Run(o, s, [a, b]) == Next(o, Next(o, s, a), b)
  {
    RunThen(o, s, [a], b);
    RunThen(o, s, [], a);
    assert [] + [a] == [a] && [a] + [b] == [a, b];
  }

  /**
   * Progress: a flush that finds the mutex open and whose writes are acknowledged has returned normally after as many
   * of them as the queue has batches, and not before.
   */
  lemma QuietFlushReturnsIff(o: Options, table: seq<Entry>, steps: seq<Step>, n: nat, retries: nat, writes: nat)
    requires o.batchSize > 0 && n <= |steps| && !At(o, table, steps, n).mutex.locked
    ensures var s := At(o, table, steps, n); var t := |s.flushes|;
      var s' := DurableQueue.Run(o, s, [FlushCall(retries), Granted(t)] + Writes(t, writes));
      && t < |s'.flushes|
      && (ReturnedNormally(s'.flushes[t]) <==> |s.queue| <= writes * o.batchSize)
      && (ReturnedNormally(s'.flushes[t]) <==> s'.queue == [])
  {
    var s := At(o, table, steps, n);
    var t := |s.flushes|;
    AtInv(o, table, steps, n);
    AcquireSound(s.mutex);
    var called := Next(o, s, FlushCall(retries));
    assert Holds(called.mutex, t);
    var granted := Next(o, called, Granted(t));
    GuardAfterLoopHead(o, called, t);
    RunTwo(o, s, FlushCall(retries), Granted(t));
    RunConcat(o, s, [FlushCall(retries), Granted(t)], Writes(t, writes));
    WritesDrain(o, granted, t, writes);
    CapacityIsProduct(writes, o.batchSize);
  }

  // ---------------------------------------------------------------- when anything is flushed at all

  ghost predicate Unscheduled(s: State) {
    !s.active && !s.starting && forall t: nat | t < |s.flushes| :: !s.flushes[t].scheduled
  }

  lemma StaysUnscheduled(o: Options, s: State, step: Step)
    requires !o.autoFlush && step != ScheduleCall && Unscheduled(s)
    requires forall t: nat | t < |s.flushes| :: s.flushes[t].pc != Drained
    ensures Unscheduled(Next(o, s, step)) && forall t: nat | t < |Next(o, s, step).flushes| ::
      Next(o, s, step).flushes[t].pc != Drained
  {
  }

  /** Without auto-flush, and unless the schedule is called by hand, nothing is flushed but by calls of `flush`. */
  lemma {:induction false} NothingFlushesByItself(o: Options, table: seq<Entry>, steps: seq<Step>, n: nat)
    requires !o.autoFlush && n <= |steps| && forall i | 0 <= i < n :: steps[i] != ScheduleCall
    ensures Unscheduled(At(o, table, steps, n))
    ensures forall t: nat | t < |At(o, table, steps, n).flushes| :: At(o, table, steps, n).flushes[t].pc != Drained
    decreases n
  {
    if n > 0 {
      NothingFlushesByItself(o, table, steps, n - 1);
      AtNext(o, table, steps, n - 1);
      StaysUnscheduled(o, At(o, table, steps, n - 1), steps[n - 1]);
    }
  }
}
