/**
 * The work store as an event store: the committed changes alone give back every row, whatever transactions were
 * interleaved, so no transaction writes anything that its change does not say.
 */
module WorkHistory {
  import opened Common
  import opened WorkItems
  import opened WorkStore

  /** What one committed change says about the rows. */
  function Apply(rows: Rows, c: Change): Rows {
    match c
    case ItemCreated(id, row) => rows.(items := rows.items[id := row])
    case ItemMoved(id, revision, _, to) =>
      if id !in rows.items then rows
      else rows.(items := rows.items[id := rows.items[id].(lifecycle := to, revision := revision + 1)])
    case AttemptStarted(id, revision, _, a, number, state) =>
      if id !in rows.items then rows
      else
        var item := rows.items[id].(lifecycle := Assigned, revision := revision + 1, currentAttempt := Some(a));
        Rows(rows.items[id := item], rows.attempts[a := Attempt(id, number, state, IsActive(state), None)])
    case AttemptMoved(a, _, after) =>
      if a !in rows.attempts then rows
      else
        Rows(if IsActive(after) then rows.items else Released(rows.items, rows.attempts[a].workItemId, a),
             rows.attempts[a := rows.attempts[a].(state := after, active := IsActive(after))])
  }

  /** The item no longer names an attempt that has ended. */
  function Released(items: map<ItemId, WorkItem>, id: ItemId, a: AttemptId): map<ItemId, WorkItem> {
    map i | i in items ::
      if i == id && items[i].currentAttempt == Some(a) then items[i].(currentAttempt := None) else items[i]
  }

  function Replay(h: seq<Change>): Rows {
    if h == [] then Rows(map[], map[]) else Apply(Replay(h[..|h| - 1]), h[|h| - 1])
  }

  /** The rows but for the agent run of each attempt, which is bound outside the history. */
  function Unbound(rows: Rows): Rows {
    rows.(attempts := map a | a in rows.attempts :: rows.attempts[a].(agentRun := None))
  }

  lemma ReplaySnoc(h: seq<Change>, c: Change)
    ensures Replay(h + [c]) == Apply(Replay(h), c)
  {
    assert (h + [c])[..|h|] == h;
  }

  lemma UnboundUpdate(rows: Rows, a: AttemptId, row: Attempt)
    ensures Unbound(rows.(attempts := rows.attempts[a := row])).attempts ==
      Unbound(rows).attempts[a := row.(agentRun := None)]
  {
  }

  lemma MoveIsApplied(rows: Rows, id: ItemId, expected: nat, to: Lifecycle, from: Lifecycle)
    requires CommitItem(rows, id, expected, to).Ok?
    ensures Unbound(CommitItem(rows, id, expected, to).value) == Apply(Unbound(rows), ItemMoved(id, expected, from, to))
  {
  }

  lemma StartIsApplied(rows: Rows, n: NewAttempt, expected: nat, from: Lifecycle)
    requires CommitStart(rows, n, expected).Ok?
    ensures Unbound(CommitStart(rows, n, expected).value) ==
      Apply(Unbound(rows),
            AttemptStarted(n.workItemId, expected, from, n.id, MaxNumber(rows.attempts, n.workItemId) + 1, n.state))
  {
    var number := MaxNumber(rows.attempts, n.workItemId) + 1;
    UnboundUpdate(rows, n.id, Attempt(n.workItemId, number, n.state, IsActive(n.state), None));
  }

  lemma AttemptMoveIsApplied(rows: Rows, a: AttemptId, seen: Attempt, to: AttemptState, from: AttemptState)
    requires CommitAttempt(rows, a, seen, to).Ok? && rows.attempts[a].workItemId == seen.workItemId
    ensures Unbound(CommitAttempt(rows, a, seen, to).value) == Apply(Unbound(rows), AttemptMoved(a, from, to))
  {
    UnboundUpdate(rows, a, rows.attempts[a].(state := to, active := IsActive(to)));
    assert Released(rows.items, seen.workItemId, a) == Detach(rows.items, seen.workItemId, a);
  }

  /** The step leaves rows and history alone, or its rows are what its one new change says. */
  ghost predicate Applied(s: Store, s': Store) {
    || (s'.rows == s.rows && s'.history == s.history)
    || (s'.history != [] && s'.history == s.history + [s'.history[|s'.history| - 1]]
        && Unbound(s'.rows) == Apply(Unbound(s.rows), s'.history[|s'.history| - 1]))
  }

  lemma ConcludeIsApplied(s: Store, t: TxnId, r: Result<Rows, StoreError>, c: Change)
    requires r.Ok? ==> Unbound(r.value) == Apply(Unbound(s.rows), c)
    ensures Applied(s, Conclude(s, t, r, c))
  {
  }

  lemma CommitIsApplied(s: Store, t: TxnId)
    requires Inv(s) && t in s.txns
    ensures Applied(s, CommitTxn(s, t))
  {
    match s.txns[t]
    case MovingItem(id, expected, to, _) =>
      var from := if id in s.rows.items then s.rows.items[id].lifecycle else Draft;
      var r := CommitItem(s.rows, id, expected, to);
      if r.Ok? { MoveIsApplied(s.rows, id, expected, to, from); }
      ConcludeIsApplied(s, t, r, ItemMoved(id, expected, from, to));
    case StartChecked(n, expected, _) =>
      var from := if n.workItemId in s.rows.items then s.rows.items[n.workItemId].lifecycle else Draft;
      var r := CommitStart(s.rows, n, expected);
      if r.Ok? { StartIsApplied(s.rows, n, expected, from); }
      var number := MaxNumber(s.rows.attempts, n.workItemId) + 1;
      ConcludeIsApplied(s, t, r, AttemptStarted(n.workItemId, expected, from, n.id, number, n.state));
    case MovingAttempt(a, to, seen) =>
      var from := if a in s.rows.attempts then s.rows.attempts[a].state else NotStarted;
      var r := CommitAttempt(s.rows, a, seen, to);
      assert TxnSound(s.rows, s.txns[t]);
      if r.Ok? { AttemptMoveIsApplied(s.rows, a, seen, to, from); }
      ConcludeIsApplied(s, t, r, AttemptMoved(a, from, to));
    case _ =>
  }

  lemma BindIsUnseen(rows: Rows, a: AttemptId, run: string)
    requires a in rows.attempts
    ensures Unbound(CommitBind(rows, a, run).value) == Unbound(rows)
  {
  }

  lemma StepIsApplied(s: Store, step: Step)
    requires Inv(s) && Unbound(s.rows) == Replay(s.history)
    ensures Unbound(Next(s, step).rows) == Replay(Next(s, step).history)
  {
    var s' := Next(s, step);
    match step
    case CreateItem(id, item) =>
      if s'.history != s.history { ReplaySnoc(s.history, ItemCreated(id, item)); }
    case BindRun(a, run) => if a in s.rows.attempts { BindIsUnseen(s.rows, a, run); }
    case Commit(t) =>
      if t in s.txns {
        CommitIsApplied(s, t);
        if s'.history != s.history { ReplaySnoc(s.history, s'.history[|s'.history| - 1]); }
      }
    case _ =>
  }

  lemma {:induction false} RunIsReplayed(s: Store, steps: seq<Step>)
    requires Inv(s) && Unbound(s.rows) == Replay(s.history)
    ensures Unbound(Run(s, steps).rows) == Replay(Run(s, steps).history)
    decreases |steps|
  {
    if steps != [] {
      StepIsApplied(s, steps[0]);
      NextKeepsInv(s, steps[0]);
      RunIsReplayed(Next(s, steps[0]), steps[1..]);
    }
  }

  /**
   * In every interleaving the history of committed changes gives back all rows: each item's project, lifecycle,
   * revision and current attempt, and each attempt's item, number, state and activity.
   */
  lemma HistoryGivesBackRows(steps: seq<Step>)
    ensures Unbound(Run(EMPTY, steps).rows) == Replay(Run(EMPTY, steps).history)
  {
    EmptyInv();
    RunIsReplayed(EMPTY, steps);
  }

  // ---------------------------------------------------------------- the changes form a path

  function LifecycleIn(h: seq<Change>, id: ItemId): Option<Lifecycle> {
    var rows := Replay(h);
    if id in rows.items then Some(rows.items[id].lifecycle) else None
  }

  function StateIn(h: seq<Change>, a: AttemptId): Option<AttemptState> {
    var rows := Replay(h);
    if a in rows.attempts then Some(rows.attempts[a].state) else None
  }

  /** The change starts where the changes before it have led. */
  predicate Continues(h: seq<Change>, c: Change) {
    match c
    case ItemCreated(id, _) => LifecycleIn(h, id).None?
    case ItemMoved(id, _, from, _) => LifecycleIn(h, id) == Some(from)
    case AttemptStarted(id, _, from, a, _, _) => LifecycleIn(h, id) == Some(from) && StateIn(h, a).None?
    case AttemptMoved(a, before, _) => StateIn(h, a) == Some(before)
  }

  ghost predicate IsPath(h: seq<Change>) { forall i | 0 <= i < |h| :: Continues(h[..i], h[i]) }

  lemma StepContinues(s: Store, step: Step)
    requires Inv(s) && Unbound(s.rows) == Replay(s.history)
    ensures var h := Next(s, step).history;
      || h == s.history
      || (|h| == |s.history| + 1 && h[..|s.history|] == s.history && Continues(s.history, h[|s.history|]))
  {
    if step.Commit? && step.txn in s.txns { assert TxnSound(s.rows, s.txns[step.txn]); }
  }

  lemma {:induction false} RunIsPath(s: Store, steps: seq<Step>)
    requires Inv(s) && Unbound(s.rows) == Replay(s.history) && IsPath(s.history)
    ensures IsPath(Run(s, steps).history)
    decreases |steps|
  {
    if steps != [] {
      var h := Next(s, steps[0]).history;
      StepContinues(s, steps[0]);
      forall i | 0 <= i < |h| ensures Continues(h[..i], h[i]) {
        if i < |s.history| { assert h[..i] == s.history[..i] && h[i] == s.history[i]; }
      }
      StepIsApplied(s, steps[0]);
      NextKeepsInv(s, steps[0]);
      RunIsPath(Next(s, steps[0]), steps[1..]);
    }
  }

  /**
   * In every interleaving each change starts from the very lifecycle or state that the changes before it have led to,
   * although it was checked on a read that may have been stale: no update is lost and none is applied twice.
   */
  lemma HistoryIsAPath(steps: seq<Step>)
    ensures IsPath(Run(EMPTY, steps).history)
  {
    EmptyInv();
    RunIsPath(EMPTY, steps);
  }

  // ---------------------------------------------------------------- why a transaction is rejected

  /** Exactly when a transition of an item is rejected, and why: by what was read, then by what has become of it. */
  lemma MoveItemFailsIff(rows: Rows, seen: Option<WorkItem>, id: ItemId, expected: nat, to: Lifecycle)
    ensures var r := MoveItemTxn(rows, seen, id, expected, to);
      && (r == Err(NotFound) <==> seen.None?)
      && (r == Err(InvalidWorkItemTransition) <==>
            seen.Some? && seen.value.revision == expected && to !in NextLifecycles(seen.value.lifecycle))
      && (r == Err(RevisionConflict) <==>
            seen.Some? && (seen.value.revision != expected ||
              (to in NextLifecycles(seen.value.lifecycle)
               && !(id in rows.items && rows.items[id].revision == expected))))
      && (r.Ok? <==>
            && seen.Some? && seen.value.revision == expected && to in NextLifecycles(seen.value.lifecycle)
            && id in rows.items && rows.items[id].revision == expected)
  {
  }

  /** The same for a start: before the item may be claimed there must be no active attempt, and the id must be new. */
  lemma StartFailsIff(rows: Rows, seen: Option<WorkItem>, activeSeen: bool, n: NewAttempt, expected: nat)
    ensures var r := StartTxn(rows, seen, activeSeen, n, expected);
      var assignable :=
        seen.Some? && seen.value.revision == expected && Assigned in NextLifecycles(seen.value.lifecycle);
      var current := n.workItemId in rows.items && rows.items[n.workItemId].revision == expected;
      && (r == Err(NotFound) <==> seen.None?)
      && (r == Err(InvalidWorkItemTransition) <==> !assignable && seen.Some? && seen.value.revision == expected)
      && (r == Err(ActiveAttemptExists) <==> assignable && activeSeen)
      && (r == Err(RevisionConflict) <==>
            (seen.Some? && seen.value.revision != expected) || (assignable && !activeSeen && !current))
      && (r == Err(DuplicateId) <==> assignable && !activeSeen && current && n.id in rows.attempts)
      && (r.Ok? <==> assignable && !activeSeen && current && n.id !in rows.attempts)
  {
  }

  /** The same for an attempt's transition: the attempt must still be in the state that was read. */
  lemma MoveAttemptFailsIff(rows: Rows, seen: Option<Attempt>, id: AttemptId, to: AttemptState)
    ensures var r := MoveAttemptTxn(rows, seen, id, to);
      && (r == Err(NotFound) <==> seen.None?)
      && (r == Err(InvalidAttemptTransition) <==> seen.Some? && to !in NextAttemptStates(seen.value.state))
      && (r == Err(AttemptStateConflict) <==>
            && seen.Some? && to in NextAttemptStates(seen.value.state)
            && !(id in rows.attempts && rows.attempts[id].state == seen.value.state))
      && (r.Ok? <==>
            && seen.Some? && to in NextAttemptStates(seen.value.state)
            && id in rows.attempts && rows.attempts[id].state == seen.value.state)
  {
  }
}
