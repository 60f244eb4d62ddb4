/**
 * The work store: work items and attempts as row maps, each public method as one transaction
 * whose reads may be stale by the time its conditional update runs. An update matches only
 * rows that still satisfy its WHERE clause, and a transaction's writes become visible at once.
 */
module WorkStore {
  import opened Common
  import opened WorkItems

  type ItemId = nat
  type AttemptId = nat
  type TxnId = nat

  datatype WorkItem = WorkItem(
    projectId: string, lifecycle: Lifecycle, revision: nat, currentAttempt: Option<AttemptId>)

  datatype Attempt = Attempt(
    workItemId: ItemId, number: nat, state: AttemptState, active: bool, agentRun: Option<string>)

  datatype NewAttempt = NewAttempt(id: AttemptId, workItemId: ItemId, state: AttemptState)

  datatype Rows = Rows(items: map<ItemId, WorkItem>, attempts: map<AttemptId, Attempt>)

  datatype StoreError =
    | NotFound | RevisionConflict | InvalidWorkItemTransition | ActiveAttemptExists
    | InvalidAttemptTransition | AttemptStateConflict | DuplicateId

  // ---------------------------------------------------------------- the transactions, read part and write part

  /** Checks on the work item row a transaction has read. */
  function CheckItem(seen: Option<WorkItem>, expected: nat, to: Lifecycle): Option<StoreError> {
    if seen.None? then Some(NotFound)
    else if seen.value.revision != expected then Some(RevisionConflict)
    else if !WorkItemMay(seen.value.lifecycle, to) then Some(InvalidWorkItemTransition)
    else None
  }

  function CheckAttempt(seen: Option<Attempt>, to: AttemptState): Option<StoreError> {
    if seen.None? then Some(NotFound)
    else if !AttemptMay(seen.value.state, to) then Some(InvalidAttemptTransition)
    else None
  }

  predicate HasActive(attempts: map<AttemptId, Attempt>, item: ItemId) {
    exists a | a in attempts :: attempts[a].workItemId == item && attempts[a].active
  }

  function CommitItem(rows: Rows, id: ItemId, expected: nat, to: Lifecycle): Result<Rows, StoreError> {
    if id !in rows.items || rows.items[id].revision != expected then Err(RevisionConflict)
    else Ok(rows.(items := rows.items[id := rows.items[id].(lifecycle := to, revision := expected + 1)]))
  }

  function Max(a: nat, b: nat): nat { if a < b then b else a }

  /** The largest attempt number of an item, 0 when it has none. */
  ghost function MaxNumber(attempts: map<AttemptId, Attempt>, item: ItemId): nat
    decreases |attempts|
  {
    if attempts == map[] then 0
    else
      var k :| k in attempts;
      Max(if attempts[k].workItemId == item then attempts[k].number else 0, MaxNumber(attempts - {k}, item))
  }

  lemma {:induction false} MaxNumberIsMax(attempts: map<AttemptId, Attempt>, item: ItemId)
    ensures forall a | a in attempts && attempts[a].workItemId == item ::
      attempts[a].number <= MaxNumber(attempts, item)
    ensures MaxNumber(attempts, item) == 0 ||
      exists a | a in attempts :: attempts[a].workItemId == item && attempts[a].number == MaxNumber(attempts, item)
    decreases |attempts|
  {
    if attempts != map[] {
      var k :| k in attempts && MaxNumber(attempts, item) ==
        Max(if attempts[k].workItemId == item then attempts[k].number else 0, MaxNumber(attempts - {k}, item));
      var rest := attempts - {k};
      MaxNumberIsMax(rest, item);
      var own: nat := if attempts[k].workItemId == item then attempts[k].number else 0;
      assert MaxNumber(attempts, item) == Max(own, MaxNumber(rest, item));
      forall a | a in attempts && attempts[a].workItemId == item
        ensures attempts[a].number <= MaxNumber(attempts, item)
      {
        if a != k { assert a in rest && rest[a] == attempts[a]; }
      }
      if MaxNumber(attempts, item) != 0 && MaxNumber(attempts, item) == MaxNumber(rest, item) {
        var a :| a in rest && rest[a].workItemId == item && rest[a].number == MaxNumber(rest, item);
        assert a in attempts && attempts[a] == rest[a];
      }
    }
  }

  ghost function CommitStart(rows: Rows, draft: NewAttempt, expected: nat): Result<Rows, StoreError> {
    var w := draft.workItemId;
    if w !in rows.items || rows.items[w].revision != expected then Err(RevisionConflict)
    else if draft.id in rows.attempts then Err(DuplicateId)
    else
      var item := rows.items[w].(lifecycle := Assigned, currentAttempt := Some(draft.id), revision := expected + 1);
      var attempt := Attempt(w, MaxNumber(rows.attempts, w) + 1, draft.state, IsActive(draft.state), None);
      Ok(Rows(rows.items[w := item], rows.attempts[draft.id := attempt]))
  }

  /** Clears the item's pointer only if it still names this attempt. */
  function Detach(items: map<ItemId, WorkItem>, item: ItemId, a: AttemptId): map<ItemId, WorkItem> {
    if item in items && items[item].currentAttempt == Some(a) then items[item := items[item].(currentAttempt := None)]
    else items
  }

  function CommitAttempt(rows: Rows, id: AttemptId, seen: Attempt, to: AttemptState): Result<Rows, StoreError> {
    if id !in rows.attempts || rows.attempts[id].state != seen.state then Err(AttemptStateConflict)
    else
      var moved := rows.attempts[id].(state := to, active := IsActive(to));
      Ok(Rows(if IsActive(to) then rows.items else Detach(rows.items, seen.workItemId, id), rows.attempts[id := moved]))
  }

  function CommitBind(rows: Rows, id: AttemptId, run: string): Result<Rows, StoreError> {
    if id !in rows.attempts then Err(NotFound)
    else Ok(rows.(attempts := rows.attempts[id := rows.attempts[id].(agentRun := Some(run))]))
  }

  // ---------------------------------------------------------------- interleaved transactions

  datatype Txn =
    | MovingItem(id: ItemId, expected: nat, to: Lifecycle, item: WorkItem)
    | StartRead(draft: NewAttempt, expected: nat, item: WorkItem)
    | StartChecked(draft: NewAttempt, expected: nat, item: WorkItem)
    | MovingAttempt(attempt: AttemptId, next: AttemptState, seen: Attempt)
    | Finished(error: Option<StoreError>)

  datatype Change =
    | ItemCreated(item: ItemId, row: WorkItem)
    | ItemMoved(item: ItemId, revision: nat, from: Lifecycle, to: Lifecycle)
    | AttemptStarted(
        item: ItemId, revision: nat, from: Lifecycle, attempt: AttemptId, number: nat, state: AttemptState)
    | AttemptMoved(attempt: AttemptId, before: AttemptState, after: AttemptState)

  datatype Store = Store(rows: Rows, txns: map<TxnId, Txn>, history: seq<Change>)

  datatype Step =
    | CreateItem(id: ItemId, item: WorkItem)
    | BindRun(attempt: AttemptId, run: string)
    | ReadForMove(txn: TxnId, id: ItemId, expected: nat, to: Lifecycle)
    | ReadForStart(txn: TxnId, draft: NewAttempt, expected: nat)
    | ReadActive(txn: TxnId)
    | ReadForAttempt(txn: TxnId, attempt: AttemptId, next: AttemptState)
    | Commit(txn: TxnId)

  function Read<K(==), V>(m: map<K, V>, k: K): Option<V> { if k in m then Some(m[k]) else None }

  function Begin(s: Store, t: TxnId, error: Option<StoreError>, txn: Txn): Store {
    s.(txns := s.txns[t := if error.Some? then Finished(error) else txn])
  }

  ghost function Conclude(s: Store, t: TxnId, r: Result<Rows, StoreError>, c: Change): Store {
    match r
    case Err(e) => s.(txns := s.txns[t := Finished(Some(e))])
    case Ok(rows) => Store(rows, s.txns[t := Finished(None)], s.history + [c])
  }

  ghost function CommitTxn(s: Store, t: TxnId): Store
    requires t in s.txns
  {
    match s.txns[t]
    case MovingItem(id, expected, to, _) =>
      var from := if id in s.rows.items then s.rows.items[id].lifecycle else Draft;
      Conclude(s, t, CommitItem(s.rows, id, expected, to), ItemMoved(id, expected, from, to))
    case StartChecked(n, expected, _) =>
      var from := if n.workItemId in s.rows.items then s.rows.items[n.workItemId].lifecycle else Draft;
      Conclude(s, t, CommitStart(s.rows, n, expected),
               AttemptStarted(n.workItemId, expected, from, n.id, MaxNumber(s.rows.attempts, n.workItemId) + 1,
                              n.state))
    case MovingAttempt(a, to, seen) =>
      var from := if a in s.rows.attempts then s.rows.attempts[a].state else NotStarted;
      Conclude(s, t, CommitAttempt(s.rows, a, seen, to), AttemptMoved(a, from, to))
    case _ => s
  }

  ghost function Next(s: Store, step: Step): Store {
    match step
    case CreateItem(id, item) =>
      if id in s.rows.items || item.currentAttempt.Some? then s
      else s.(rows := s.rows.(items := s.rows.items[id := item]), history := s.history + [ItemCreated(id, item)])
    case BindRun(a, run) =>
      var r := CommitBind(s.rows, a, run);
      if r.Ok? then s.(rows := r.value) else s
    case ReadForMove(t, id, expected, to) =>
      if t in s.txns then s
      else
        var seen := Read(s.rows.items, id);
        Begin(s, t, CheckItem(seen, expected, to),
              if seen.Some? then MovingItem(id, expected, to, seen.value) else Finished(None))
    case ReadForStart(t, n, expected) =>
      if t in s.txns then s
      else
        var seen := Read(s.rows.items, n.workItemId);
        Begin(s, t, CheckItem(seen, expected, Assigned),
              if seen.Some? then StartRead(n, expected, seen.value) else Finished(None))
    case ReadActive(t) =>
      if t !in s.txns || !s.txns[t].StartRead? then s
      else
        var txn := s.txns[t];
        Begin(s, t, if HasActive(s.rows.attempts, txn.draft.workItemId) then Some(ActiveAttemptExists) else None,
              StartChecked(txn.draft, txn.expected, txn.item))
    case ReadForAttempt(t, a, to) =>
      if t in s.txns then s
      else
        var seen := Read(s.rows.attempts, a);
        Begin(s, t, CheckAttempt(seen, to), if seen.Some? then MovingAttempt(a, to, seen.value) else Finished(None))
    case Commit(t) => if t in s.txns then CommitTxn(s, t) else s
  }

  ghost function Run(s: Store, steps: seq<Step>): Store
    decreases |steps|
  {
    if steps == [] then s else Run(Next(s, steps[0]), steps[1..])
  }

  const EMPTY: Store := Store(Rows(map[], map[]), map[], [])

  // ---------------------------------------------------------------- the invariant

  ghost predicate AttemptsSound(rows: Rows) {
    && (forall a | a in rows.attempts ::
          rows.attempts[a].active == IsActive(rows.attempts[a].state) && rows.attempts[a].workItemId in rows.items)
    && (forall a | a in rows.attempts && rows.attempts[a].active ::
          rows.items[rows.attempts[a].workItemId].currentAttempt == Some(a))
  }

  /** A row read earlier still describes the item, as long as the revision has not moved. */
  ghost predicate StillCurrent(rows: Rows, id: ItemId, expected: nat, seen: WorkItem) {
    && id in rows.items && expected <= rows.items[id].revision
    && (rows.items[id].revision == expected ==> rows.items[id].lifecycle == seen.lifecycle)
  }

  ghost predicate TxnSound(rows: Rows, txn: Txn) {
    match txn
    case MovingItem(id, expected, to, seen) => StillCurrent(rows, id, expected, seen) && WorkItemMay(seen.lifecycle, to)
    case StartRead(n, expected, seen) =>
      StillCurrent(rows, n.workItemId, expected, seen) && WorkItemMay(seen.lifecycle, Assigned)
    case StartChecked(n, expected, seen) =>
      && StillCurrent(rows, n.workItemId, expected, seen) && WorkItemMay(seen.lifecycle, Assigned)
      && (rows.items[n.workItemId].revision == expected ==> !HasActive(rows.attempts, n.workItemId))
    case MovingAttempt(a, to, seen) =>
      && a in rows.attempts && rows.attempts[a].workItemId == seen.workItemId && AttemptMay(seen.state, to)
    case Finished(_) => true
  }

  /** What the history says about one item's revision. */
  function RevisionAfter(h: seq<Change>, id: ItemId): nat {
    if h == [] then 0
    else match h[|h| - 1]
      case ItemCreated(i, row) => if i == id then row.revision else RevisionAfter(h[..|h| - 1], id)
      case ItemMoved(i, _, _, _) => RevisionAfter(h[..|h| - 1], id) + if i == id then 1 else 0
      case AttemptStarted(i, _, _, _, _, _) => RevisionAfter(h[..|h| - 1], id) + if i == id then 1 else 0
      case AttemptMoved(_, _, _) => RevisionAfter(h[..|h| - 1], id)
  }

  predicate Bumps(c: Change, id: ItemId) { (c.ItemMoved? || c.AttemptStarted?) && c.item == id }

  predicate LegalChange(c: Change) {
    match c
    case ItemCreated(_, _) => true
    case ItemMoved(_, _, from, to) => WorkItemMay(from, to)
    case AttemptStarted(_, _, from, _, _, _) => WorkItemMay(from, Assigned)
    case AttemptMoved(_, before, after) => AttemptMay(before, after)
  }

  ghost predicate RevisionsSound(items: map<ItemId, WorkItem>, h: seq<Change>) {
    && (forall id | id in items :: items[id].revision == RevisionAfter(h, id))
    && (forall i | 0 <= i < |h| && (h[i].ItemMoved? || h[i].AttemptStarted?) ::
          h[i].item in items && h[i].revision < items[h[i].item].revision)
    && (forall i, j, id | 0 <= i < j < |h| && Bumps(h[i], id) && Bumps(h[j], id) :: h[i].revision < h[j].revision)
  }

  ghost predicate NumbersSound(rows: Rows, h: seq<Change>) {
    && (forall i | 0 <= i < |h| && h[i].AttemptStarted? :: Recorded(rows, h[i]))
    && (forall i, j | 0 <= i < j < |h| && h[i].AttemptStarted? && h[j].AttemptStarted? && h[i].item == h[j].item ::
          h[i].number < h[j].number)
  }

  ghost predicate HistorySound(s: Store) {
    && (forall c | c in s.history :: LegalChange(c))
    && RevisionsSound(s.rows.items, s.history)
    && NumbersSound(s.rows, s.history)
  }

  ghost predicate Recorded(rows: Rows, c: Change)
    requires c.AttemptStarted?
  {
    c.attempt in rows.attempts && rows.attempts[c.attempt].workItemId == c.item
      && rows.attempts[c.attempt].number == c.number
  }

  ghost predicate TxnsSound(s: Store) { forall t | t in s.txns :: TxnSound(s.rows, s.txns[t]) }

  ghost predicate Inv(s: Store) { AttemptsSound(s.rows) && TxnsSound(s) && HistorySound(s) }

  /** What every committed change does to the rows other transactions have read. */
  ghost predicate RowsAdvance(before: Rows, after: Rows) {
    && (forall id | id in before.items ::
          && id in after.items && before.items[id].revision <= after.items[id].revision
          && (before.items[id].revision == after.items[id].revision ==>
            before.items[id].lifecycle == after.items[id].lifecycle)
          && (before.items[id].revision == after.items[id].revision && HasActive(after.attempts, id) ==>
            HasActive(before.attempts, id)))
    && (forall a | a in before.attempts ::
          && a in after.attempts && after.attempts[a].workItemId == before.attempts[a].workItemId
          && after.attempts[a].number == before.attempts[a].number)
  }

  lemma AdvanceKeepsTxns(s: Store, rows: Rows)
    requires TxnsSound(s) && RowsAdvance(s.rows, rows)
    ensures forall t | t in s.txns :: TxnSound(rows, s.txns[t])
  {}

  lemma MoveAdvances(rows: Rows, id: ItemId, expected: nat, to: Lifecycle)
    requires AttemptsSound(rows) && CommitItem(rows, id, expected, to).Ok?
    ensures var r := CommitItem(rows, id, expected, to).value; RowsAdvance(rows, r) && AttemptsSound(r)
  {}

  lemma StartAdvances(rows: Rows, n: NewAttempt, expected: nat)
    requires AttemptsSound(rows) && CommitStart(rows, n, expected).Ok? && !HasActive(rows.attempts, n.workItemId)
    ensures var r := CommitStart(rows, n, expected).value; RowsAdvance(rows, r) && AttemptsSound(r)
  {
    var r := CommitStart(rows, n, expected).value;
    forall id | id in rows.items && id != n.workItemId && HasActive(r.attempts, id)
      ensures HasActive(rows.attempts, id)
    {
      var a :| a in r.attempts && r.attempts[a].workItemId == id && r.attempts[a].active;
      assert a in rows.attempts && rows.attempts[a].active;
    }
    forall a | a in r.attempts && r.attempts[a].active
      ensures r.items[r.attempts[a].workItemId].currentAttempt == Some(a)
    {
      if a != n.id { assert rows.attempts[a].workItemId != n.workItemId; }
    }
  }

  lemma AttemptMoveAdvances(rows: Rows, a: AttemptId, seen: Attempt, to: AttemptState)
    requires AttemptsSound(rows) && CommitAttempt(rows, a, seen, to).Ok? && AttemptMay(seen.state, to)
    requires rows.attempts[a].workItemId == seen.workItemId
    ensures var r := CommitAttempt(rows, a, seen, to).value; RowsAdvance(rows, r) && AttemptsSound(r)
  {
    var r := CommitAttempt(rows, a, seen, to).value;
    TerminalAttemptsAreFinal(seen.state, to);
    forall id | id in rows.items && HasActive(r.attempts, id) ensures HasActive(rows.attempts, id) {
      var b :| b in r.attempts && r.attempts[b].workItemId == id && r.attempts[b].active;
      assert b in rows.attempts && rows.attempts[b].active;
    }
  }

  /** The rows moved on exactly as the change `c` says. */
  ghost predicate Reflects(before: Rows, after: Rows, c: Change) {
    && (forall id | id in after.items :: id in before.items || (c.ItemCreated? && c.item == id))
    && (forall id | id in before.items ::
          id in after.items && after.items[id].revision == before.items[id].revision + if Bumps(c, id) then 1 else 0)
    && (c.ItemCreated? ==>
      c.item !in before.items && c.item in after.items && after.items[c.item].revision == c.row.revision)
    && (c.ItemMoved? || c.AttemptStarted? ==> c.item in before.items && c.revision == before.items[c.item].revision)
  }

  lemma AppendKeepsRevisions(before: Rows, after: Rows, h: seq<Change>, c: Change)
    requires RevisionsSound(before.items, h) && Reflects(before, after, c)
    ensures RevisionsSound(after.items, h + [c])
  {
    assert (h + [c])[..|h|] == h;
    forall id | id in after.items ensures after.items[id].revision == RevisionAfter(h + [c], id) {}
    forall i, j, id | 0 <= i < j < |h + [c]| && Bumps((h + [c])[i], id) && Bumps((h + [c])[j], id)
      ensures (h + [c])[i].revision < (h + [c])[j].revision
    {
      assert (h + [c])[i] == h[i];
      if j < |h| { assert (h + [c])[j] == h[j]; }
    }
  }

  lemma AppendKeepsNumbers(before: Rows, after: Rows, h: seq<Change>, c: Change)
    requires NumbersSound(before, h) && RowsAdvance(before, after)
    requires c.AttemptStarted? ==> Recorded(after, c)
    requires c.AttemptStarted? ==>
      forall a | a in before.attempts && before.attempts[a].workItemId == c.item :: before.attempts[a].number < c.number
    ensures NumbersSound(after, h + [c])
  {
    forall i | 0 <= i < |h| && h[i].AttemptStarted? ensures Recorded(after, h[i]) { assert Recorded(before, h[i]); }
  }

  /** A legal change that leads from sound rows to sound rows without invalidating what others have read. */
  ghost predicate GoodChange(before: Rows, after: Rows, c: Change) {
    && RowsAdvance(before, after) && AttemptsSound(after) && LegalChange(c) && Reflects(before, after, c)
    && (c.AttemptStarted? ==>
          && Recorded(after, c)
          && forall a | a in before.attempts && before.attempts[a].workItemId == c.item ::
            before.attempts[a].number < c.number)
  }

  lemma GrowKeepsInv(s: Store, rows: Rows, c: Change)
    requires Inv(s) && GoodChange(s.rows, rows, c)
    ensures Inv(Store(rows, s.txns, s.history + [c]))
  {
    AdvanceKeepsTxns(s, rows);
    AppendKeepsRevisions(s.rows, rows, s.history, c);
    AppendKeepsNumbers(s.rows, rows, s.history, c);
  }

  lemma FinishKeepsInv(s: Store, t: TxnId, e: Option<StoreError>)
    requires Inv(s)
    ensures Inv(s.(txns := s.txns[t := Finished(e)]))
  {
  }

  lemma ConcludeKeepsInv(s: Store, t: TxnId, rows: Rows, c: Change)
    requires Inv(s) && GoodChange(s.rows, rows, c)
    ensures Inv(Conclude(s, t, Ok(rows), c))
  {
    GrowKeepsInv(s, rows, c);
    FinishKeepsInv(Store(rows, s.txns, s.history + [c]), t, None);
  }

  lemma CommitItemKeepsInv(s: Store, t: TxnId)
    requires Inv(s) && t in s.txns && s.txns[t].MovingItem?
    ensures Inv(CommitTxn(s, t))
  {
    var txn := s.txns[t];
    assert TxnSound(s.rows, txn);
    var r := CommitItem(s.rows, txn.id, txn.expected, txn.to);
    if r.Ok? {
      var c := ItemMoved(txn.id, txn.expected, s.rows.items[txn.id].lifecycle, txn.to);
      MoveAdvances(s.rows, txn.id, txn.expected, txn.to);
      ConcludeKeepsInv(s, t, r.value, c);
    }
  }

  /** A committed start records a fresh number and moves the revision of its own item only. */
  lemma StartReflects(rows: Rows, n: NewAttempt, expected: nat)
    requires CommitStart(rows, n, expected).Ok?
    ensures var number := MaxNumber(rows.attempts, n.workItemId) + 1;
      var c := AttemptStarted(n.workItemId, expected, rows.items[n.workItemId].lifecycle, n.id, number, n.state);
      var r := CommitStart(rows, n, expected).value;
      && Reflects(rows, r, c) && Recorded(r, c)
      && forall a | a in rows.attempts && rows.attempts[a].workItemId == n.workItemId ::
        rows.attempts[a].number < number
  {
    MaxNumberIsMax(rows.attempts, n.workItemId);
  }

  /** The check for an active attempt still holds when the start commits: the revision has not moved since. */
  lemma StartCheckHolds(rows: Rows, n: NewAttempt, expected: nat, seen: WorkItem)
    requires TxnSound(rows, StartChecked(n, expected, seen)) && CommitStart(rows, n, expected).Ok?
    ensures !HasActive(rows.attempts, n.workItemId) && WorkItemMay(rows.items[n.workItemId].lifecycle, Assigned)
  {
  }

  lemma StartIsGood(rows: Rows, n: NewAttempt, expected: nat, number: nat)
    requires AttemptsSound(rows) && CommitStart(rows, n, expected).Ok?
      && number == MaxNumber(rows.attempts, n.workItemId) + 1
    requires !HasActive(rows.attempts, n.workItemId) && WorkItemMay(rows.items[n.workItemId].lifecycle, Assigned)
    ensures GoodChange(
      rows, CommitStart(rows, n, expected).value,
      AttemptStarted(n.workItemId, expected, rows.items[n.workItemId].lifecycle, n.id, number, n.state))
  {
    StartAdvances(rows, n, expected);
    StartReflects(rows, n, expected);
  }

  lemma StartConcludes(s: Store, t: TxnId, n: NewAttempt, expected: nat, seen: WorkItem, number: nat)
    requires Inv(s) && TxnSound(s.rows, StartChecked(n, expected, seen))
    requires CommitStart(s.rows, n, expected).Ok? && number == MaxNumber(s.rows.attempts, n.workItemId) + 1
    ensures Inv(Conclude(
      s, t, CommitStart(s.rows, n, expected),
      AttemptStarted(n.workItemId, expected, s.rows.items[n.workItemId].lifecycle, n.id, number, n.state)))
  {
    StartCheckHolds(s.rows, n, expected, seen);
    StartIsGood(s.rows, n, expected, number);
    ConcludeKeepsInv(
      s, t, CommitStart(s.rows, n, expected).value,
      AttemptStarted(n.workItemId, expected, s.rows.items[n.workItemId].lifecycle, n.id, number, n.state));
  }

  lemma CommitStartKeepsInv(s: Store, t: TxnId)
    requires Inv(s) && t in s.txns && s.txns[t].StartChecked?
    ensures Inv(CommitTxn(s, t))
  {
    var n, expected, seen := s.txns[t].draft, s.txns[t].expected, s.txns[t].item;
    assert TxnSound(s.rows, s.txns[t]);
    var r := CommitStart(s.rows, n, expected);
    if r.Ok? {
      StartConcludes(s, t, n, expected, seen, MaxNumber(s.rows.attempts, n.workItemId) + 1);
    } else {
      FinishKeepsInv(s, t, Some(r.error));
    }
  }

  lemma CommitAttemptKeepsInv(s: Store, t: TxnId)
    requires Inv(s) && t in s.txns && s.txns[t].MovingAttempt?
    ensures Inv(CommitTxn(s, t))
  {
    var txn := s.txns[t];
    assert TxnSound(s.rows, txn);
    var r := CommitAttempt(s.rows, txn.attempt, txn.seen, txn.next);
    if r.Ok? {
      var c := AttemptMoved(txn.attempt, s.rows.attempts[txn.attempt].state, txn.next);
      AttemptMoveAdvances(s.rows, txn.attempt, txn.seen, txn.next);
      ConcludeKeepsInv(s, t, r.value, c);
    }
  }

  lemma CreateAdvances(rows: Rows, id: ItemId, item: WorkItem)
    requires AttemptsSound(rows) && id !in rows.items && item.currentAttempt.None?
    ensures var r := rows.(items := rows.items[id := item]);
      RowsAdvance(rows, r) && AttemptsSound(r) && Reflects(rows, r, ItemCreated(id, item))
  {
  }

  lemma CreateKeepsInv(s: Store, id: ItemId, item: WorkItem)
    requires Inv(s)
    ensures Inv(Next(s, CreateItem(id, item)))
  {
    if id !in s.rows.items && item.currentAttempt.None? {
      CreateAdvances(s.rows, id, item);
      GrowKeepsInv(s, s.rows.(items := s.rows.items[id := item]), ItemCreated(id, item));
    }
  }

  /** Recording the agent run touches nothing the invariant speaks about. */
  lemma BindKeepsInv(s: Store, a: AttemptId, run: string)
    requires Inv(s)
    ensures Inv(Next(s, BindRun(a, run)))
    ensures PointersExact(s.rows) ==> PointersExact(Next(s, BindRun(a, run)).rows)
  {
    var rows := Next(s, BindRun(a, run)).rows;
    forall id | HasActive(rows.attempts, id) ensures HasActive(s.rows.attempts, id) {
      var b :| b in rows.attempts && rows.attempts[b].workItemId == id && rows.attempts[b].active;
      assert b in s.rows.attempts && s.rows.attempts[b].active;
    }
    AdvanceKeepsTxns(s, rows);
    forall i | 0 <= i < |s.history| && s.history[i].AttemptStarted? ensures Recorded(rows, s.history[i]) {
      assert Recorded(s.rows, s.history[i]);
    }
  }

  lemma NextKeepsInv(s: Store, step: Step)
    requires Inv(s)
    ensures Inv(Next(s, step))
  {
    match step
    case CreateItem(id, item) => CreateKeepsInv(s, id, item);
    case BindRun(a, run) => BindKeepsInv(s, a, run);
    case Commit(t) =>
      if t in s.txns {
        match s.txns[t]
        case MovingItem(_, _, _, _) => CommitItemKeepsInv(s, t);
        case StartChecked(_, _, _) => CommitStartKeepsInv(s, t);
        case MovingAttempt(_, _, _) => CommitAttemptKeepsInv(s, t);
        case _ =>
      }
    case _ => assert Next(s, step).rows == s.rows && Next(s, step).history == s.history;
  }

  lemma {:induction false} RunKeepsInv(s: Store, steps: seq<Step>)
    requires Inv(s)
    ensures Inv(Run(s, steps))
    decreases |steps|
  {
    if steps != [] {
      NextKeepsInv(s, steps[0]);
      RunKeepsInv(Next(s, steps[0]), steps[1..]);
    }
  }

  lemma EmptyInv()
    ensures Inv(EMPTY)
  {}

  // ---------------------------------------------------------------- what every interleaving keeps

  /**
   * However stale the reads: no item ever has two active attempts, and the active one is the item's current attempt.
   */
  lemma OneActiveAttempt(steps: seq<Step>, a: AttemptId, b: AttemptId)
    requires var rows := Run(EMPTY, steps).rows;
      && a in rows.attempts && rows.attempts[a].active && b in rows.attempts && rows.attempts[b].active
      && rows.attempts[a].workItemId == rows.attempts[b].workItemId
    ensures var rows := Run(EMPTY, steps).rows;
      a == b && rows.attempts[a].workItemId in rows.items
        && rows.items[rows.attempts[a].workItemId].currentAttempt == Some(a)
  {
    EmptyInv();
    RunKeepsInv(EMPTY, steps);
  }

  /**
   * A start looks for an active attempt before its conditional update, and others commit in between; in every run,
   * if the update goes through, the item has no active attempt at that moment either, and may still be assigned.
   */
  lemma StartsOnlyWithoutActive(steps: seq<Step>, t: TxnId)
    requires var s := Run(EMPTY, steps);
      t in s.txns && s.txns[t].StartChecked? && CommitStart(s.rows, s.txns[t].draft, s.txns[t].expected).Ok?
    ensures var s := Run(EMPTY, steps); var id := s.txns[t].draft.workItemId;
      !HasActive(s.rows.attempts, id) && WorkItemMay(s.rows.items[id].lifecycle, Assigned)
  {
    EmptyInv();
    RunKeepsInv(EMPTY, steps);
    var s := Run(EMPTY, steps);
    assert TxnSound(s.rows, s.txns[t]);
    StartCheckHolds(s.rows, s.txns[t].draft, s.txns[t].expected, s.txns[t].item);
  }

  /** Every committed change is an edge of its table, although it was checked on a row that may have been stale. */
  lemma CommittedChangesAreLegal(steps: seq<Step>, c: Change)
    requires c in Run(EMPTY, steps).history
    ensures LegalChange(c)
  {
    EmptyInv();
    RunKeepsInv(EMPTY, steps);
  }

  /** Revisions count committed changes, and of all writers that expected the same revision at most one succeeded. */
  lemma RevisionsCountChanges(steps: seq<Step>, id: ItemId)
    ensures var s := Run(EMPTY, steps);
      && (id in s.rows.items ==> s.rows.items[id].revision == RevisionAfter(s.history, id))
      && forall i, j | 0 <= i < j < |s.history| && Bumps(s.history[i], id) && Bumps(s.history[j], id) ::
           s.history[i].revision != s.history[j].revision
  {
    EmptyInv();
    RunKeepsInv(EMPTY, steps);
  }

  /** Each new attempt of an item gets a number above all its earlier ones. */
  lemma AttemptNumbersIncrease(steps: seq<Step>, i: nat, j: nat)
    requires var h := Run(EMPTY, steps).history;
      i < j < |h| && h[i].AttemptStarted? && h[j].AttemptStarted? && h[i].item == h[j].item
    ensures Run(EMPTY, steps).history[i].number < Run(EMPTY, steps).history[j].number
  {
    EmptyInv();
    RunKeepsInv(EMPTY, steps);
  }

  // ---------------------------------------------------------------- the pointer is exact iff attempts start active

  ghost predicate PointersExact(rows: Rows) {
    forall id | id in rows.items && rows.items[id].currentAttempt.Some? ::
      var a := rows.items[id].currentAttempt.value;
      a in rows.attempts && rows.attempts[a].workItemId == id && rows.attempts[a].active
  }

  /** The step is the commit of a start, and it goes through. */
  ghost predicate CommitsStart(s: Store, step: Step) {
    && step.Commit? && step.txn in s.txns && s.txns[step.txn].StartChecked?
    && CommitStart(s.rows, s.txns[step.txn].draft, s.txns[step.txn].expected).Ok?
  }

  ghost predicate CommitsActive(s: Store, step: Step) {
    CommitsStart(s, step) ==> IsActive(s.txns[step.txn].draft.state)
  }

  lemma PointersAfterCommit(s: Store, t: TxnId)
    requires Inv(s) && PointersExact(s.rows) && t in s.txns && CommitsActive(s, Commit(t))
    ensures PointersExact(CommitTxn(s, t).rows)
  {
    var rows := CommitTxn(s, t).rows;
    assert TxnSound(s.rows, s.txns[t]);
    forall id | id in rows.items && rows.items[id].currentAttempt.Some?
      ensures var a := rows.items[id].currentAttempt.value;
        a in rows.attempts && rows.attempts[a].workItemId == id && rows.attempts[a].active
    {
      if id in s.rows.items && s.rows.items[id].currentAttempt.Some? {
        assert s.rows.items[id].currentAttempt.value in s.rows.attempts;
      }
    }
  }

  lemma NextKeepsExact(s: Store, step: Step)
    requires Inv(s) && PointersExact(s.rows) && CommitsActive(s, step)
    ensures PointersExact(Next(s, step).rows)
  {
    match step
    case Commit(t) => if t in s.txns { PointersAfterCommit(s, t); }
    case BindRun(a, run) => BindKeepsInv(s, a, run);
    case _ =>
  }

  /**
   * A committed start keeps the pointers exact if and only if its initial state is active; the store does not insist.
   */
  lemma StartKeepsPointersIffActive(rows: Rows, n: NewAttempt, expected: nat)
    requires AttemptsSound(rows) && PointersExact(rows) && CommitStart(rows, n, expected).Ok?
    ensures PointersExact(CommitStart(rows, n, expected).value) <==> IsActive(n.state)
  {
    var after := CommitStart(rows, n, expected).value;
    assert after.items[n.workItemId].currentAttempt == Some(n.id);
    if IsActive(n.state) {
      forall id | id in after.items && after.items[id].currentAttempt.Some?
        ensures var a := after.items[id].currentAttempt.value;
          a in after.attempts && after.attempts[a].workItemId == id && after.attempts[a].active
      {
        if id != n.workItemId { assert rows.items[id].currentAttempt.value in rows.attempts; }
      }
    }
  }

  lemma {:induction false} RunSnoc(s: Store, steps: seq<Step>, step: Step)
    ensures Run(s, steps + [step]) == Next(Run(s, steps), step)
    decreases |steps|
  {
    if steps == [] {
      assert [] + [step] == [step] && [step][1..] == [];
      assert Run(s, [step]) == Run(Next(s, step), []);
    } else {
      assert (steps + [step])[1..] == steps[1..] + [step];
      RunSnoc(Next(s, steps[0]), steps[1..], step);
    }
  }

  lemma StepOfRun(steps: seq<Step>, k: nat)
    requires k < |steps|
    ensures Run(EMPTY, steps[..k + 1]) == Next(Run(EMPTY, steps[..k]), steps[k]) && Inv(Run(EMPTY, steps[..k]))
  {
    assert steps[..k + 1] == steps[..k] + [steps[k]];
    RunSnoc(EMPTY, steps[..k], steps[k]);
    EmptyInv();
    RunKeepsInv(EMPTY, steps[..k]);
  }

  /** Every start that commits in the run does so in an active state. */
  ghost predicate StartsAreActive(steps: seq<Step>) {
    forall k | 0 <= k < |steps| :: CommitsActive(Run(EMPTY, steps[..k]), steps[k])
  }

  lemma {:induction false} ExactAllAlong(steps: seq<Step>, n: nat)
    requires StartsAreActive(steps) && n <= |steps|
    ensures PointersExact(Run(EMPTY, steps[..n]).rows)
    decreases n
  {
    if n > 0 {
      ExactAllAlong(steps, n - 1);
      StepOfRun(steps, n - 1);
      NextKeepsExact(Run(EMPTY, steps[..n - 1]), steps[n - 1]);
    }
  }

  lemma InactiveStartShows(s: Store, step: Step)
    requires Inv(s) && PointersExact(s.rows) && PointersExact(Next(s, step).rows)
    ensures CommitsActive(s, step)
  {
    if CommitsStart(s, step) {
      StartKeepsPointersIffActive(s.rows, s.txns[step.txn].draft, s.txns[step.txn].expected);
    }
  }

  /** The pointers are exact all along a run if and only if every start that commits in it is in an active state. */
  lemma PointersExactIffStartsActive(steps: seq<Step>)
    ensures (forall n | 0 <= n <= |steps| :: PointersExact(Run(EMPTY, steps[..n]).rows)) <==> StartsAreActive(steps)
  {
    if StartsAreActive(steps) {
      forall n | 0 <= n <= |steps| ensures PointersExact(Run(EMPTY, steps[..n]).rows) { ExactAllAlong(steps, n); }
    }
    if forall n | 0 <= n <= |steps| :: PointersExact(Run(EMPTY, steps[..n]).rows) {
      forall k | 0 <= k < |steps| ensures CommitsActive(Run(EMPTY, steps[..k]), steps[k]) {
        assert PointersExact(Run(EMPTY, steps[..k]).rows) && PointersExact(Run(EMPTY, steps[..k + 1]).rows);
        StepOfRun(steps, k);
        InactiveStartShows(Run(EMPTY, steps[..k]), steps[k]);
      }
    }
  }

  /** Then `currentAttemptId` is null exactly when the item has no active attempt, and otherwise names one. */
  lemma CurrentAttemptIsExact(steps: seq<Step>, id: ItemId)
    requires StartsAreActive(steps) && id in Run(EMPTY, steps).rows.items
    ensures var rows := Run(EMPTY, steps).rows;
      && (rows.items[id].currentAttempt.None? <==> !HasActive(rows.attempts, id))
      && forall a | rows.items[id].currentAttempt == Some(a) :: a in rows.attempts && rows.attempts[a].active
  {
    EmptyInv();
    RunKeepsInv(EMPTY, steps);
    assert steps[..|steps|] == steps;
    ExactAllAlong(steps, |steps|);
  }

  const READY_ITEM: WorkItem := WorkItem("p", Ready, 1, None)

  /** It does happen: an attempt started as SUCCEEDED is never detached, and the item goes on naming it. */
  lemma InactiveStartStays()
    ensures var n := NewAttempt(7, 1, Succeeded);
      var rows := Run(EMPTY, [CreateItem(1, READY_ITEM), ReadForStart(0, n, 1), ReadActive(0), Commit(0)]).rows;
      && 1 in rows.items && rows.items[1].currentAttempt == Some(7)
      && 7 in rows.attempts && !rows.attempts[7].active && !HasActive(rows.attempts, 1)
  {
    var n := NewAttempt(7, 1, Succeeded);
    var s1 := Next(EMPTY, CreateItem(1, READY_ITEM));
    var s2 := Next(s1, ReadForStart(0, n, 1));
    var s3 := Next(s2, ReadActive(0));
    assert WorkItemMay(Ready, Assigned) && !HasActive(s2.rows.attempts, 1);
    assert s3.txns[0] == StartChecked(n, 1, READY_ITEM) && s3.rows.attempts == map[];
    var s4 := Next(s3, Commit(0));
    assert Run(s3, [Commit(0)]) == Run(s4, [Commit(0)][1..]);
    assert Run(s2, [ReadActive(0), Commit(0)]) == Run(s3, [ReadActive(0), Commit(0)][1..]);
    assert Run(s1, [ReadForStart(0, n, 1), ReadActive(0), Commit(0)]) ==
      Run(s2, [ReadForStart(0, n, 1), ReadActive(0), Commit(0)][1..]);
  }

  // ---------------------------------------------------------------- the store class

  ghost function MoveItemTxn(
      rows: Rows, seen: Option<WorkItem>, id: ItemId, expected: nat, to: Lifecycle): Result<Rows, StoreError> {
    var e := CheckItem(seen, expected, to);
    if e.Some? then Err(e.value) else CommitItem(rows, id, expected, to)
  }

  ghost function StartTxn(
      rows: Rows, seen: Option<WorkItem>, activeSeen: bool, n: NewAttempt, expected: nat): Result<Rows, StoreError> {
    var e := CheckItem(seen, expected, Assigned);
    if e.Some? then Err(e.value) else if activeSeen then Err(ActiveAttemptExists) else CommitStart(rows, n, expected)
  }

  ghost function MoveAttemptTxn(
      rows: Rows, seen: Option<Attempt>, id: AttemptId, to: AttemptState): Result<Rows, StoreError> {
    var e := CheckAttempt(seen, to);
    if e.Some? then Err(e.value) else CommitAttempt(rows, id, seen.value, to)
  }

  /** Steps of other transactions. */
  predicate Foreign(steps: seq<Step>, t: TxnId) {
    forall i | 0 <= i < |steps| :: steps[i].CreateItem? || steps[i].BindRun? || steps[i].txn != t
  }

  lemma {:induction false} ForeignLeavesTxn(s: Store, steps: seq<Step>, t: TxnId)
    requires t in s.txns && Foreign(steps, t)
    ensures t in Run(s, steps).txns && Run(s, steps).txns[t] == s.txns[t]
    decreases |steps|
  {
    if steps != [] {
      assert t in Next(s, steps[0]).txns && Next(s, steps[0]).txns[t] == s.txns[t];
      ForeignLeavesTxn(Next(s, steps[0]), steps[1..], t);
    }
  }

  /** Transaction `t` has ended as `spec` says, on rows that read `before`. */
  ghost predicate Ends(s: Store, t: TxnId, before: Rows, spec: Result<Rows, StoreError>) {
    t in s.txns &&
    match spec
    case Ok(rows) => s.rows == rows && s.txns[t] == Finished(None)
    case Err(e) => s.rows == before && s.txns[t] == Finished(Some(e))
  }

  /** The read and the commit of one transaction, whatever others do in between, are one call of the method below. */
  lemma MoveItemIsTheMachine(s0: Store, t: TxnId, id: ItemId, expected: nat, to: Lifecycle, others: seq<Step>)
    requires t !in s0.txns && Foreign(others, t)
    ensures var s := Run(Next(s0, ReadForMove(t, id, expected, to)), others);
      Ends(Next(s, Commit(t)), t, s.rows, MoveItemTxn(s.rows, Read(s0.rows.items, id), id, expected, to))
  {
    ForeignLeavesTxn(Next(s0, ReadForMove(t, id, expected, to)), others, t);
  }

  lemma MoveAttemptIsTheMachine(s0: Store, t: TxnId, a: AttemptId, to: AttemptState, others: seq<Step>)
    requires t !in s0.txns && Foreign(others, t)
    ensures var s := Run(Next(s0, ReadForAttempt(t, a, to)), others);
      Ends(Next(s, Commit(t)), t, s.rows, MoveAttemptTxn(s.rows, Read(s0.rows.attempts, a), a, to))
  {
    ForeignLeavesTxn(Next(s0, ReadForAttempt(t, a, to)), others, t);
  }

  /** A start reads twice; others may run between the reads and before the commit. */
  lemma StartIsTheMachine(s0: Store, t: TxnId, n: NewAttempt, expected: nat, first: seq<Step>, second: seq<Step>)
    requires t !in s0.txns && Foreign(first, t) && Foreign(second, t)
    ensures var s1 := Run(Next(s0, ReadForStart(t, n, expected)), first);
      var s2 := Run(Next(s1, ReadActive(t)), second);
      Ends(Next(s2, Commit(t)), t, s2.rows,
           StartTxn(s2.rows, Read(s0.rows.items, n.workItemId), HasActive(s1.rows.attempts, n.workItemId), n, expected))
  {
    ForeignLeavesTxn(Next(s0, ReadForStart(t, n, expected)), first, t);
    var s1 := Run(Next(s0, ReadForStart(t, n, expected)), first);
    ForeignLeavesTxn(Next(s1, ReadActive(t)), second, t);
  }

  /** Each method takes what its reads returned; the rows it updates are the current ones. */
  class WorkStore {
    var items: map<ItemId, WorkItem>
    var attempts: map<AttemptId, Attempt>

    function View(): Rows
      reads this
    {
      Rows(items, attempts)
    }

    ghost predicate Follows(before: Rows, spec: Result<Rows, StoreError>, error: Option<StoreError>)
      reads this
    {
      match spec
      case Ok(rows) => error.None? && View() == rows
      case Err(e) => error == Some(e) && View() == before
    }

    constructor ()
      ensures View() == Rows(map[], map[])
    {
      items := map[];
      attempts := map[];
    }

    method CreateWorkItem(id: ItemId, item: WorkItem) returns (error: Option<StoreError>)
      modifies this
      ensures Follows(old(View()), if id in old(items) then Err(DuplicateId)
        else Ok(Rows(old(items)[id := item], old(attempts))), error)
    {
      if id in items { return Some(DuplicateId); }
      items := items[id := item];
      return None;
    }

    method TransitionWorkItem(id: ItemId, expected: nat, to: Lifecycle, seen: Option<WorkItem>)
      returns (error: Option<StoreError>)
      modifies this
      ensures Follows(old(View()), MoveItemTxn(old(View()), seen, id, expected, to), error)
    {
      if seen.None? { return Some(NotFound); }
      if seen.value.revision != expected { return Some(RevisionConflict); }
      if !WorkItemMay(seen.value.lifecycle, to) { return Some(InvalidWorkItemTransition); }
      if id !in items || items[id].revision != expected { return Some(RevisionConflict); }
      items := items[id := items[id].(lifecycle := to, revision := items[id].revision + 1)];
      return None;
    }

    method NextAttemptNumber(item: ItemId) returns (n: nat)
      ensures n == MaxNumber(attempts, item) + 1
    {
      var todo := attempts.Keys;
      var max := 0;
      while todo != {}
        invariant todo <= attempts.Keys
        invariant forall a | a in attempts && a !in todo && attempts[a].workItemId == item :: attempts[a].number <= max
        invariant max == 0 || exists a | a in attempts :: attempts[a].workItemId == item && attempts[a].number == max
      {
        var a :| a in todo;
        if attempts[a].workItemId == item && attempts[a].number > max { max := attempts[a].number; }
        todo := todo - {a};
      }
      MaxNumberIsMax(attempts, item);
      return max + 1;
    }

    method StartAttempt(n: NewAttempt, expected: nat, seen: Option<WorkItem>, activeSeen: bool)
      returns (error: Option<StoreError>)
      modifies this
      ensures Follows(old(View()), StartTxn(old(View()), seen, activeSeen, n, expected), error)
    {
      if seen.None? { return Some(NotFound); }
      if seen.value.revision != expected { return Some(RevisionConflict); }
      if !WorkItemMay(seen.value.lifecycle, Assigned) { return Some(InvalidWorkItemTransition); }
      if activeSeen { return Some(ActiveAttemptExists); }
      if n.workItemId !in items || items[n.workItemId].revision != expected { return Some(RevisionConflict); }
      var claimed :=
        items[n.workItemId].(lifecycle := Assigned, currentAttempt := Some(n.id), revision := expected + 1);
      var number := NextAttemptNumber(n.workItemId);
      if n.id in attempts { return Some(DuplicateId); }
      items := items[n.workItemId := claimed];
      attempts := attempts[n.id := Attempt(n.workItemId, number, n.state, IsActive(n.state), None)];
      return None;
    }

    method BindAgentRun(id: AttemptId, run: string) returns (error: Option<StoreError>)
      modifies this
      ensures Follows(old(View()), CommitBind(old(View()), id, run), error)
    {
      if id !in attempts { return Some(NotFound); }
      attempts := attempts[id := attempts[id].(agentRun := Some(run))];
      return None;
    }

    method TransitionAttempt(id: AttemptId, to: AttemptState, seen: Option<Attempt>) returns (error: Option<StoreError>)
      modifies this
      ensures Follows(old(View()), MoveAttemptTxn(old(View()), seen, id, to), error)
    {
      if seen.None? { return Some(NotFound); }
      var fromState := seen.value.state;
      if !AttemptMay(fromState, to) { return Some(InvalidAttemptTransition); }
      var active := IsActive(to);
      if id !in attempts || attempts[id].state != fromState { return Some(AttemptStateConflict); }
      attempts := attempts[id := attempts[id].(state := to, active := active)];
      if !active && seen.value.workItemId in items && items[seen.value.workItemId].currentAttempt == Some(id) {
        items := items[seen.value.workItemId := items[seen.value.workItemId].(currentAttempt := None)];
      }
      return None;
    }
  }
}
