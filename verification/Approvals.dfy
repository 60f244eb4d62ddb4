/**
 * Approvals: create, decide, expire, consume and verify as transactions over the approval rows
 * and their audit trail. A transaction reads a row, and by the time its conditional update runs
 * other transactions may have changed it; the update matches only if the status is still the one read.
 */
module Approvals {
  import opened Common
  import opened Scope

  type Id = nat
  type TxnId = nat

  datatype Status = Pending | Approved | Rejected | Used | Expired

  datatype Approval = Approval(
    projectId: string, gateKind: string, status: Status, scope: Json, requestedBy: string, expiresAt: Option<int>,
    decidedBy: Option<string>, decidedAt: Option<int>, rationale: Option<string>, consumedAt: Option<int>,
    verification: Option<Json>)

  datatype Event =
    | RequestedEvent(gateKind: string, scope: Json, expiresAt: Option<int>)
    | DecidedEvent(approved: bool, actor: string, rationale: Option<string>)
    | ExpiredEvent(expiresAt: Option<int>)
    | UsedEvent(consumedAt: int, gateKind: string, scope: Json)
    | VerifiedEvent(verification: Json)

  datatype Db = Db(rows: map<Id, Approval>, audit: seq<(Id, Event)>)

  datatype Request =
    | Decide(id: Id, projectId: string, decision: string, actor: string, rationale: Option<string>, now: int)
    | Consume(id: Id, projectId: string, gateKind: string, scope: Option<Json>, now: int)
    | Expire(id: Id)
    | Verify(id: Id, projectId: string, verification: Json)

  datatype Outcome =
    | BadDecision | NotFound | NotPending | NotApproved | HasExpired | Conflict | NotApplicable | GateKindMismatch
    | ScopeMismatch | NotUsed | WasDecided | WasUsed | WasVerified

  /** What a transaction does after its read. */
  datatype Plan = Answer(outcome: Outcome) | WriteExpiry | WriteDecision | WriteUse | WriteVerification

  predicate InThePast(expiresAt: Option<int>, now: int) { expiresAt.Some? && now >= expiresAt.value }

  /** `seen`: the row as the transaction read it, if there is one. */
  function PlanFor(text: Text, req: Request, seen: Option<Approval>): Plan {
    if req.Decide? && req.decision !in {"APPROVED", "REJECTED"} then Answer(BadDecision)
    else if seen.None? || (!req.Expire? && seen.value.projectId != req.projectId) then Answer(NotFound)
    else
      var a := seen.value;
      match req
      case Decide(_, _, _, _, _, now) =>
        if a.status in {Used, Rejected, Approved} then Answer(NotPending)
        else if InThePast(a.expiresAt, now) && a.status != Expired then WriteExpiry
        else if a.status == Expired then Answer(HasExpired)
        else WriteDecision
      case Consume(_, _, gateKind, scope, now) =>
        if a.status in {Used, Rejected} then Answer(NotApproved)
        else if InThePast(a.expiresAt, now) && a.status != Expired then WriteExpiry
        else if a.status == Expired then Answer(HasExpired)
        else if a.status != Approved then Answer(NotApproved)
        else if a.gateKind != gateKind then Answer(GateKindMismatch)
        else if scope.None? || !IsScopeEqual(text, a.scope, scope.value) then Answer(ScopeMismatch)
        else WriteUse
      case Expire(_) => if a.status in {Used, Rejected, Expired} then Answer(NotApplicable) else WriteExpiry
      case Verify(_, _, _) => if a.status != Used then Answer(NotUsed) else WriteVerification
  }

  function Put(db: Db, id: Id, row: Approval, e: Event): Db { Db(db.rows[id := row], db.audit + [(id, e)]) }

  /** The answer when an expiry finds the status changed: it depends on the row as it is now. */
  function ExpiryConflict(req: Request, now: Option<Approval>): Outcome {
    if now.None? then NotFound
    else if now.value.status == Expired then HasExpired
    else if req.Consume? && now.value.status != Approved then NotApproved
    else Conflict
  }

  function Find(db: Db, id: Id): Option<Approval> { if id in db.rows then Some(db.rows[id]) else None }

  predicate StatusIs(db: Db, id: Id, status: Status) { id in db.rows && db.rows[id].status == status }

  function Decided(row: Approval, req: Request): Approval
    requires req.Decide?
  {
    row.(
      status := if req.decision == "APPROVED" then Approved else Rejected, decidedBy := Some(req.actor),
      decidedAt := Some(req.now), rationale := req.rationale)
  }

  /** `tryExpireApproval`, and the same update inside consume. */
  function ExpiryOf(db: Db, req: Request, seen: Approval): (Db, Outcome) {
    if !StatusIs(db, req.id, seen.status) then (db, ExpiryConflict(req, Find(db, req.id)))
    else (Put(db, req.id, db.rows[req.id].(status := Expired), ExpiredEvent(seen.expiresAt)), HasExpired)
  }

  function DecisionOf(db: Db, req: Request): (Db, Outcome)
    requires req.Decide?
  {
    if !StatusIs(db, req.id, Pending) then (db, Conflict)
    else
      var e := DecidedEvent(req.decision == "APPROVED", req.actor, req.rationale);
      (Put(db, req.id, Decided(db.rows[req.id], req), e), WasDecided)
  }

  function UseOf(db: Db, req: Request): (Db, Outcome)
    requires req.Consume? && req.scope.Some?
  {
    if !StatusIs(db, req.id, Approved) then (db, Conflict)
    else
      var row := db.rows[req.id].(status := Used, consumedAt := Some(req.now));
      (Put(db, req.id, row, UsedEvent(req.now, req.gateKind, req.scope.value)), WasUsed)
  }

  function Attach(db: Db, id: Id, v: Json): Db
    requires id in db.rows
  {
    db.(rows := db.rows[id := db.rows[id].(verification := Some(v))])
  }

  /** The audit event of a verification, a write of its own. */
  function Record(db: Db, id: Id, v: Json): Db { db.(audit := db.audit + [(id, VerifiedEvent(v))]) }

  /** The write part of a transaction. Verification is no transaction: its audit event is a separate write. */
  function Commit(text: Text, db: Db, req: Request, seen: Approval): (Db, Outcome) {
    match PlanFor(text, req, Some(seen))
    case Answer(outcome) => (db, outcome)
    case WriteExpiry => ExpiryOf(db, req, seen)
    case WriteDecision => DecisionOf(db, req)
    case WriteUse => UseOf(db, req)
    case WriteVerification =>
      if req.id !in db.rows then (db, NotFound) else (Attach(db, req.id, req.verification), WasVerified)
  }

  datatype Body = Body(projectId: string, gateKind: string, scope: Json, requestedBy: string, expiresAt: Option<int>)

  datatype CreateError = ProjectMismatch | MissingFields | InvalidScope(why: GateScopeError) | DuplicateId

  predicate Falsy(j: Json) { j in {Null, Bool(false), Num(0.0), Str("")} }

  function CheckCreate(authProject: string, body: Body): Option<CreateError> {
    if body.projectId != authProject then Some(ProjectMismatch)
    else if body.projectId == "" || body.gateKind == "" || Falsy(body.scope) then Some(MissingFields)
    else
      var invalid := ValidateGateScope(body.gateKind, body.scope);
      if invalid.Some? then Some(InvalidScope(invalid.value)) else None
  }

  function Created(body: Body): Approval {
    Approval(
      body.projectId, body.gateKind, Pending, body.scope, if body.requestedBy == "" then "SYSTEM" else body.requestedBy,
      body.expiresAt, None, None, None, None, None)
  }

  function Create(db: Db, authProject: string, id: Id, body: Body): Result<Db, CreateError> {
    var error := CheckCreate(authProject, body);
    if error.Some? then Err(error.value)
    else if id in db.rows then Err(DuplicateId)
    else Ok(Put(db, id, Created(body), RequestedEvent(body.gateKind, body.scope, body.expiresAt)))
  }

  // ---------------------------------------------------------------- interleaved transactions

  datatype Txn =
    | Waiting(req: Request, seen: Approval)
    | WritingAudit(id: Id, projectId: string, verification: Json)
    | Done(req: Request, outcome: Outcome)

  datatype World = World(db: Db, txns: map<TxnId, Txn>)

  datatype Step =
    | CreateStep(authProject: string, id: Id, body: Body)
    | ReadStep(txn: TxnId, req: Request)
    | WriteStep(txn: TxnId)

  const EMPTY: World := World(Db(map[], []), map[])

  /** What the read of a handler leaves to do. */
  function AfterRead(text: Text, seen: Option<Approval>, req: Request): Txn {
    var plan := PlanFor(text, req, seen);
    if plan.Answer? then Done(req, plan.outcome)
    else if seen.None? then Done(req, NotFound)
    else Waiting(req, seen.value)
  }

  function Next(text: Text, w: World, step: Step): World {
    match step
    case CreateStep(authProject, id, body) =>
      var r := Create(w.db, authProject, id, body);
      if r.Ok? then w.(db := r.value) else w
    case ReadStep(t, req) =>
      if t in w.txns then w
      else
        w.(txns := w.txns[t := AfterRead(text, Find(w.db, req.id), req)])
    case WriteStep(t) =>
      if t !in w.txns then w else NextWrite(text, w, t)
  }

  function StillToRecord(req: Request): Txn
    requires req.Verify?
  {
    WritingAudit(req.id, req.projectId, req.verification)
  }

  function NextWrite(text: Text, w: World, t: TxnId): World
    requires t in w.txns
  {
    match w.txns[t]
    case Waiting(req, seen) =>
      var r := Commit(text, w.db, req, seen);
      World(r.0, w.txns[t := if r.1.WasVerified? then StillToRecord(req) else Done(req, r.1)])
    case WritingAudit(id, p, v) =>
      World(Record(w.db, id, v), w.txns[t := Done(Verify(id, p, v), WasVerified)])
    case Done(_, _) => w
  }

  function Run(text: Text, steps: seq<Step>): World {
    if steps == [] then EMPTY else Next(text, Run(text, steps[..|steps| - 1]), steps[|steps| - 1])
  }

  // ---------------------------------------------------------------- the audit trail of one approval

  datatype Mark = MRequested | MApproved | MRejected | MExpired | MUsed

  function EventsOf(audit: seq<(Id, Event)>, id: Id): seq<Event> {
    if audit == [] then []
    else EventsOf(audit[..|audit| - 1], id) + if audit[|audit| - 1].0 == id then [audit[|audit| - 1].1] else []
  }

  /** The events that mark status changes; verification events are left out. */
  function Life(events: seq<Event>): seq<Mark> {
    if events == [] then []
    else
      Life(events[..|events| - 1]) +
      match events[|events| - 1]
      case RequestedEvent(_, _, _) => [MRequested]
      case DecidedEvent(approved, _, _) => [if approved then MApproved else MRejected]
      case ExpiredEvent(_) => [MExpired]
      case UsedEvent(_, _, _) => [MUsed]
      case VerifiedEvent(_) => []
  }

  function Move(status: Status, m: Mark): Option<Status> {
    match (status, m)
    case (Pending, MApproved) => Some(Approved)
    case (Pending, MRejected) => Some(Rejected)
    case (Pending, MExpired) => Some(Expired)
    case (Approved, MExpired) => Some(Expired)
    case (Approved, MUsed) => Some(Used)
    case _ => None
  }

  function Replay(life: seq<Mark>): Option<Status> {
    if life == [] then None
    else if life == [MRequested] then Some(Pending)
    else
      var before := Replay(life[..|life| - 1]);
      if before.Some? then Move(before.value, life[|life| - 1]) else None
  }

  predicate LegalLife(life: seq<Mark>) {
    || life == [MRequested]
    || life == [MRequested, MRejected]
    || life == [MRequested, MExpired]
    || life == [MRequested, MApproved]
    || life == [MRequested, MApproved, MUsed]
    || life == [MRequested, MApproved, MExpired]
  }

  /** The words that replay to a status are the six legal ones. */
  lemma {:induction false} ReplaysIffLegal(life: seq<Mark>)
    ensures Replay(life).Some? <==> LegalLife(life)
    ensures Replay(life) == Some(Used) <==> life == [MRequested, MApproved, MUsed]
    ensures Replay(life) == Some(Approved) <==> life == [MRequested, MApproved]
    ensures Replay(life) == Some(Pending) <==> life == [MRequested]
  {
    if life != [] {
      var front, last := life[..|life| - 1], life[|life| - 1];
      ReplaysIffLegal(front);
      assert life == front + [last];
      if LegalLife(life) && |life| > 1 {
        assert front == [MRequested] || front == [MRequested, MApproved];
      }
    }
  }

  // ---------------------------------------------------------------- what every step keeps

  /** A row and the audit events about it tell the same story. */
  predicate RowOk(text: Text, row: Approval, events: seq<Event>) {
    && Replay(Life(events)) == Some(row.status)
    && (row.status == Used <==> row.consumedAt.Some?)
    && (row.status in {Approved, Rejected, Used} ==> row.decidedAt.Some?)
    && (row.consumedAt.Some? && row.expiresAt.Some? ==> row.consumedAt.value < row.expiresAt.value)
    && events != [] && events[0] == RequestedEvent(row.gateKind, row.scope, row.expiresAt)
    && forall e | e in events && e.UsedEvent? :: UseMatches(text, row, e)
  }

  predicate UseMatches(text: Text, row: Approval, e: Event)
    requires e.UsedEvent?
  {
    row.consumedAt == Some(e.consumedAt) && row.gateKind == e.gateKind && IsScopeEqual(text, row.scope, e.scope)
  }

  /** The status graph: where a status can get to. */
  predicate Reaches(from: Status, to: Status) {
    || from == to
    || from == Pending
    || (from == Approved && to in {Used, Expired})
  }

  /** A row read earlier: what never changes is as it was, and unless the status moved on, so is everything else. */
  predicate StillFrom(seen: Approval, row: Approval) {
    && seen.projectId == row.projectId && seen.gateKind == row.gateKind && seen.scope == row.scope
    && seen.expiresAt == row.expiresAt
    && Reaches(seen.status, row.status)
    && (seen.status == row.status && row.status != Used ==> seen == row)
  }

  ghost predicate RowsOk(text: Text, db: Db) {
    && (forall id | id in db.rows :: RowOk(text, db.rows[id], EventsOf(db.audit, id)))
    && (forall id | id !in db.rows :: EventsOf(db.audit, id) == [])
  }

  predicate TxnOk(db: Db, txn: Txn) {
    match txn
    case Waiting(req, seen) => req.id in db.rows && StillFrom(seen, db.rows[req.id])
    case WritingAudit(id, _, _) => StatusIs(db, id, Used)
    case Done(req, outcome) => outcome == WasUsed ==> StatusIs(db, req.id, Used)
  }

  predicate TxnsOk(w: World) { forall t | t in w.txns :: TxnOk(w.db, w.txns[t]) }

  /** Every verification event comes after the use of its approval. */
  predicate VerifiedAfterUse(audit: seq<(Id, Event)>) {
    forall i | 0 <= i < |audit| && audit[i].1.VerifiedEvent? ::
      exists j | 0 <= j < i :: audit[j].0 == audit[i].0 && audit[j].1.UsedEvent?
  }

  ghost predicate Inv(text: Text, w: World) {
    RowsOk(text, w.db) && TxnsOk(w) && VerifiedAfterUse(w.db.audit)
  }

  lemma EventsSnoc(audit: seq<(Id, Event)>, id: Id, e: Event, other: Id)
    ensures EventsOf(audit + [(id, e)], other) == EventsOf(audit, other) + if other == id then [e] else []
  {
    assert (audit + [(id, e)])[..|audit|] == audit;
  }

  lemma LifeSnoc(events: seq<Event>, e: Event)
    ensures Life(events + [e]) == Life(events) + Life([e])
  {
    assert (events + [e])[..|events|] == events;
    assert [e][..0] == [];
  }

  /** A change of one row along the status graph, with the event that marks it. */
  predicate GoodMove(text: Text, row: Approval, row': Approval, e: Event, m: Mark) {
    && Life([e]) == [m] && Move(row.status, m) == Some(row'.status) && StillFrom(row, row')
    && (row'.status == Used <==> row'.consumedAt.Some?)
    && (row'.status in {Approved, Rejected, Used} ==> row'.decidedAt.Some?)
    && (row'.consumedAt.Some? && row'.expiresAt.Some? ==> row'.consumedAt.value < row'.expiresAt.value)
    && (e.UsedEvent? ==> UseMatches(text, row', e))
  }

  lemma ReplaySnoc(life: seq<Mark>, status: Status, m: Mark, to: Status)
    requires Replay(life) == Some(status) && Move(status, m) == Some(to)
    ensures Replay(life + [m]) == Some(to)
  {
    assert (life + [m])[..|life|] == life;
  }

  lemma MoveKeepsRow(text: Text, row: Approval, events: seq<Event>, row': Approval, e: Event, m: Mark)
    requires RowOk(text, row, events) && GoodMove(text, row, row', e, m)
    ensures RowOk(text, row', events + [e])
  {
    LifeSnoc(events, e);
    ReplaySnoc(Life(events), row.status, m, row'.status);
    assert row.consumedAt.None?;
    forall x | x in events + [e] && x.UsedEvent? ensures UseMatches(text, row', x) { assert x !in events; }
  }

  /** The rows after one row changed along the graph and its event was appended. */
  lemma PutKeepsRows(text: Text, db: Db, id: Id, row': Approval, e: Event)
    requires RowsOk(text, db)
    requires RowOk(text, row', EventsOf(db.audit, id) + [e])
    ensures RowsOk(text, Put(db, id, row', e))
  {
    var db' := Put(db, id, row', e);
    forall other | other in db'.rows ensures RowOk(text, db'.rows[other], EventsOf(db'.audit, other)) {
      EventsSnoc(db.audit, id, e, other);
      assert other != id ==> EventsOf(db'.audit, other) == EventsOf(db.audit, other);
    }
    forall other | other !in db'.rows ensures EventsOf(db'.audit, other) == [] {
      EventsSnoc(db.audit, id, e, other);
    }
  }

  lemma PutKeepsTxns(w: World, id: Id, row': Approval, e: Event)
    requires TxnsOk(w)
    requires id in w.db.rows ==> StillFrom(w.db.rows[id], row') && w.db.rows[id].status !in {Used, row'.status}
    ensures TxnsOk(World(Put(w.db, id, row', e), w.txns))
  {
    forall t | t in w.txns ensures TxnOk(Put(w.db, id, row', e), w.txns[t]) { assert TxnOk(w.db, w.txns[t]); }
  }

  lemma SnocKeepsOrder(audit: seq<(Id, Event)>, id: Id, e: Event)
    requires VerifiedAfterUse(audit)
    requires e.VerifiedEvent? ==> exists j | 0 <= j < |audit| :: audit[j].0 == id && audit[j].1.UsedEvent?
    ensures VerifiedAfterUse(audit + [(id, e)])
  {
    var audit' := audit + [(id, e)];
    forall i | 0 <= i < |audit'| && audit'[i].1.VerifiedEvent?
      ensures exists j | 0 <= j < i :: audit'[j].0 == audit'[i].0 && audit'[j].1.UsedEvent?
    {
      var j :| 0 <= j < i && audit[j].0 == audit'[i].0 && audit[j].1.UsedEvent?;
      assert audit'[j] == audit[j];
    }
  }

  lemma {:induction false} UsedIsRecorded(audit: seq<(Id, Event)>, id: Id)
    requires MUsed in Life(EventsOf(audit, id))
    ensures exists j | 0 <= j < |audit| :: audit[j].0 == id && audit[j].1.UsedEvent?
  {
    var front, last := audit[..|audit| - 1], audit[|audit| - 1];
    assert audit == front + [last];
    EventsSnoc(front, last.0, last.1, id);
    if last.0 == id && last.1.UsedEvent? {
      assert audit[|audit| - 1].0 == id;
    } else {
      LifeSnoc(EventsOf(front, id), last.1);
      assert [last.1][..0] == [];
      assert MUsed !in Life([last.1]) || last.0 != id;
      assert last.0 != id ==> EventsOf(audit, id) == EventsOf(front, id);
      UsedIsRecorded(front, id);
      var j :| 0 <= j < |front| && front[j].0 == id && front[j].1.UsedEvent?;
      assert audit[j] == front[j];
    }
  }

  // ---------------------------------------------------------------- the steps

  lemma CreatedIsOk(text: Text, body: Body)
    ensures RowOk(text, Created(body), [RequestedEvent(body.gateKind, body.scope, body.expiresAt)])
  {
    var e := RequestedEvent(body.gateKind, body.scope, body.expiresAt);
    assert [e][..0] == [];
    assert Life([e]) == [MRequested];
  }

  lemma CreateKeepsInv(text: Text, w: World, authProject: string, id: Id, body: Body)
    requires Inv(text, w)
    ensures Inv(text, Next(text, w, CreateStep(authProject, id, body)))
  {
    if CheckCreate(authProject, body).None? && id !in w.db.rows {
      var e := RequestedEvent(body.gateKind, body.scope, body.expiresAt);
      assert EventsOf(w.db.audit, id) + [e] == [e];
      CreatedIsOk(text, body);
      PutKeepsInv(text, w, id, Created(body), e);
      assert Next(text, w, CreateStep(authProject, id, body)) == World(Put(w.db, id, Created(body), e), w.txns);
    }
  }

  lemma PutKeepsInv(text: Text, w: World, id: Id, row': Approval, e: Event)
    requires Inv(text, w) && RowOk(text, row', EventsOf(w.db.audit, id) + [e]) && !e.VerifiedEvent?
    requires id in w.db.rows ==> StillFrom(w.db.rows[id], row') && w.db.rows[id].status !in {Used, row'.status}
    ensures Inv(text, World(Put(w.db, id, row', e), w.txns))
  {
    PutKeepsRows(text, w.db, id, row', e);
    PutKeepsTxns(w, id, row', e);
    SnocKeepsOrder(w.db.audit, id, e);
  }

  lemma AnswersAreNoUse(text: Text, req: Request, seen: Option<Approval>)
    requires PlanFor(text, req, seen).Answer?
    ensures PlanFor(text, req, seen).outcome != WasUsed && PlanFor(text, req, seen).outcome != WasVerified
  {
  }

  lemma ReadKeepsInv(text: Text, w: World, t: TxnId, req: Request)
    requires Inv(text, w)
    ensures Inv(text, Next(text, w, ReadStep(t, req)))
  {
    if t !in w.txns {
      var seen := Find(w.db, req.id);
      var plan := PlanFor(text, req, seen);
      if plan.Answer? {
        AnswersAreNoUse(text, req, seen);
        TxnUpdateKeepsInv(text, w, t, Done(req, plan.outcome));
      } else if seen.None? {
        TxnUpdateKeepsInv(text, w, t, Done(req, NotFound));
      } else {
        TxnUpdateKeepsInv(text, w, t, Waiting(req, seen.value));
      }
    }
  }

  lemma TxnUpdateKeepsInv(text: Text, w: World, t: TxnId, txn: Txn)
    requires Inv(text, w) && TxnOk(w.db, txn)
    ensures Inv(text, World(w.db, w.txns[t := txn]))
  {
  }

  /** A good move that ends its transaction. */
  lemma MoveKeepsInv(text: Text, w: World, t: TxnId, req: Request, outcome: Outcome, row': Approval, e: Event, m: Mark)
    requires Inv(text, w) && req.id in w.db.rows && GoodMove(text, w.db.rows[req.id], row', e, m) && !e.VerifiedEvent?
    requires outcome == WasUsed ==> row'.status == Used
    ensures Inv(text, World(Put(w.db, req.id, row', e), w.txns[t := Done(req, outcome)]))
  {
    MoveKeepsRow(text, w.db.rows[req.id], EventsOf(w.db.audit, req.id), row', e, m);
    PutKeepsInv(text, w, req.id, row', e);
    TxnUpdateKeepsInv(text, World(Put(w.db, req.id, row', e), w.txns), t, Done(req, outcome));
  }

  /** The row a write finds and the row its transaction has read. */
  lemma WriteFinds(text: Text, w: World, t: TxnId, req: Request, seen: Approval)
    requires Inv(text, w) && t in w.txns && w.txns[t] == Waiting(req, seen)
    ensures req.id in w.db.rows && StillFrom(seen, w.db.rows[req.id])
    ensures var row := w.db.rows[req.id];
      && (row.status == Used <==> row.consumedAt.Some?)
      && (row.status in {Approved, Rejected, Used} ==> row.decidedAt.Some?)
  {
    assert TxnOk(w.db, w.txns[t]);
    assert RowOk(text, w.db.rows[req.id], EventsOf(w.db.audit, req.id));
  }

  lemma MarkOf(e: Event)
    ensures Life([e]) ==
      match e
      case RequestedEvent(_, _, _) => [MRequested]
      case DecidedEvent(approved, _, _) => [if approved then MApproved else MRejected]
      case ExpiredEvent(_) => [MExpired]
      case UsedEvent(_, _, _) => [MUsed]
      case VerifiedEvent(_) => []
  {
    assert [e][..0] == [];
  }

  lemma OnlyOpenApprovalsExpire(text: Text, req: Request, seen: Approval)
    requires PlanFor(text, req, Some(seen)).WriteExpiry?
    ensures seen.status == Pending || seen.status == Approved
  {
  }

  lemma ExpiryIsGood(text: Text, row: Approval)
    requires row.status == Pending || row.status == Approved
    requires row.consumedAt.None?
    ensures GoodMove(text, row, row.(status := Expired), ExpiredEvent(row.expiresAt), MExpired)
  {
    MarkOf(ExpiredEvent(row.expiresAt));
  }

  lemma ExpiryOfKeepsInv(text: Text, w: World, t: TxnId, req: Request, seen: Approval)
    requires Inv(text, w) && t in w.txns && w.txns[t] == Waiting(req, seen)
    requires seen.status == Pending || seen.status == Approved
    ensures var r := ExpiryOf(w.db, req, seen); r.1 != WasVerified && Inv(text, World(r.0, w.txns[t := Done(req, r.1)]))
  {
    WriteFinds(text, w, t, req, seen);
    var row := w.db.rows[req.id];
    if row.status == seen.status {
      ExpiryIsGood(text, row);
      MoveKeepsInv(text, w, t, req, HasExpired, row.(status := Expired), ExpiredEvent(row.expiresAt), MExpired);
    } else {
      TxnUpdateKeepsInv(text, w, t, Done(req, ExpiryConflict(req, Some(row))));
    }
  }

  lemma ExpiryKeepsInv(text: Text, w: World, t: TxnId, req: Request, seen: Approval)
    requires Inv(text, w) && t in w.txns && w.txns[t] == Waiting(req, seen)
      && PlanFor(text, req, Some(seen)).WriteExpiry?
    ensures Inv(text, NextWrite(text, w, t))
  {
    OnlyOpenApprovalsExpire(text, req, seen);
    ExpiryOfKeepsInv(text, w, t, req, seen);
  }

  lemma DecisionIsGood(text: Text, row: Approval, req: Request)
    requires req.Decide? && row.status == Pending && row.consumedAt.None?
    ensures GoodMove(
      text, row, Decided(row, req), DecidedEvent(req.decision == "APPROVED", req.actor, req.rationale),
      if req.decision == "APPROVED" then MApproved else MRejected)
  {
    MarkOf(DecidedEvent(req.decision == "APPROVED", req.actor, req.rationale));
  }

  lemma DecisionOfKeepsInv(text: Text, w: World, t: TxnId, req: Request, seen: Approval)
    requires Inv(text, w) && t in w.txns && w.txns[t] == Waiting(req, seen) && req.Decide?
    ensures var r := DecisionOf(w.db, req); r.1 != WasVerified && Inv(text, World(r.0, w.txns[t := Done(req, r.1)]))
  {
    WriteFinds(text, w, t, req, seen);
    var row := w.db.rows[req.id];
    if row.status == Pending {
      DecisionIsGood(text, row, req);
      MoveKeepsInv(
        text, w, t, req, WasDecided, Decided(row, req),
        DecidedEvent(req.decision == "APPROVED", req.actor, req.rationale),
        if req.decision == "APPROVED" then MApproved else MRejected);
    } else {
      TxnUpdateKeepsInv(text, w, t, Done(req, Conflict));
    }
  }

  lemma DecisionIsCommitted(text: Text, db: Db, req: Request, seen: Approval)
    requires PlanFor(text, req, Some(seen)).WriteDecision?
    ensures req.Decide? && Commit(text, db, req, seen) == DecisionOf(db, req)
  {
  }

  lemma DecisionKeepsInv(text: Text, w: World, t: TxnId, req: Request, seen: Approval)
    requires Inv(text, w) && t in w.txns && w.txns[t] == Waiting(req, seen)
      && PlanFor(text, req, Some(seen)).WriteDecision?
    ensures Inv(text, NextWrite(text, w, t))
  {
    DecisionIsCommitted(text, w.db, req, seen);
    DecisionOfKeepsInv(text, w, t, req, seen);
    WriteEnds(text, w, t, req, seen, DecisionOf(w.db, req));
  }

  /** A write that ends its transaction. */
  lemma WriteEnds(text: Text, w: World, t: TxnId, req: Request, seen: Approval, r: (Db, Outcome))
    requires t in w.txns && w.txns[t] == Waiting(req, seen) && Commit(text, w.db, req, seen) == r && r.1 != WasVerified
    ensures NextWrite(text, w, t) == World(r.0, w.txns[t := Done(req, r.1)])
  {
  }

  /** What a consume has checked on the row it read before it writes. */
  predicate UseReady(text: Text, req: Request, seen: Approval) {
    && req.Consume? && req.scope.Some? && seen.status == Approved && !InThePast(seen.expiresAt, req.now)
    && seen.gateKind == req.gateKind && IsScopeEqual(text, seen.scope, req.scope.value)
  }

  lemma UseIsReady(text: Text, req: Request, seen: Approval)
    requires PlanFor(text, req, Some(seen)).WriteUse?
    ensures UseReady(text, req, seen)
  {
  }

  lemma UseIsGood(text: Text, row: Approval, req: Request, seen: Approval)
    requires UseReady(text, req, seen) && row.status == Approved && row.decidedAt.Some? && StillFrom(seen, row)
    ensures GoodMove(
      text, row, row.(status := Used, consumedAt := Some(req.now)),
      UsedEvent(req.now, req.gateKind, req.scope.value), MUsed)
  {
    MarkOf(UsedEvent(req.now, req.gateKind, req.scope.value));
  }

  lemma UseOfKeepsInv(text: Text, w: World, t: TxnId, req: Request, seen: Approval)
    requires Inv(text, w) && t in w.txns && w.txns[t] == Waiting(req, seen) && UseReady(text, req, seen)
    ensures var r := UseOf(w.db, req); r.1 != WasVerified && Inv(text, World(r.0, w.txns[t := Done(req, r.1)]))
  {
    WriteFinds(text, w, t, req, seen);
    var row := w.db.rows[req.id];
    if row.status == Approved {
      UseIsGood(text, row, req, seen);
      MoveKeepsInv(
        text, w, t, req, WasUsed, row.(status := Used, consumedAt := Some(req.now)),
        UsedEvent(req.now, req.gateKind, req.scope.value), MUsed);
    } else {
      TxnUpdateKeepsInv(text, w, t, Done(req, Conflict));
    }
  }

  lemma UseKeepsInv(text: Text, w: World, t: TxnId, req: Request, seen: Approval)
    requires Inv(text, w) && t in w.txns && w.txns[t] == Waiting(req, seen) && PlanFor(text, req, Some(seen)).WriteUse?
    ensures Inv(text, NextWrite(text, w, t))
  {
    UseIsReady(text, req, seen);
    UseIsCommitted(text, w.db, req, seen);
    UseOfKeepsInv(text, w, t, req, seen);
    WriteEnds(text, w, t, req, seen, UseOf(w.db, req));
  }

  lemma UseIsCommitted(text: Text, db: Db, req: Request, seen: Approval)
    requires PlanFor(text, req, Some(seen)).WriteUse?
    ensures req.Consume? && req.scope.Some? && Commit(text, db, req, seen) == UseOf(db, req)
  {
  }

  /** Attaching a verification changes neither the status nor the audit trail. */
  lemma AttachKeepsInv(text: Text, w: World, id: Id, v: Json)
    requires Inv(text, w) && StatusIs(w.db, id, Used)
    ensures Inv(text, World(Attach(w.db, id, v), w.txns))
  {
    AttachKeepsRows(text, w.db, id, v);
    forall t | t in w.txns ensures TxnOk(Attach(w.db, id, v), w.txns[t]) {
      AttachKeepsTxn(text, w.db, id, v, w.txns[t]);
    }
  }

  lemma AttachKeepsRows(text: Text, db: Db, id: Id, v: Json)
    requires RowsOk(text, db) && StatusIs(db, id, Used)
    ensures RowsOk(text, Attach(db, id, v))
  {
    var db' := Attach(db, id, v);
    forall other | other in db'.rows ensures RowOk(text, db'.rows[other], EventsOf(db'.audit, other)) {
      assert RowOk(text, db.rows[other], EventsOf(db.audit, other));
    }
  }

  lemma AttachKeepsTxn(text: Text, db: Db, id: Id, v: Json, txn: Txn)
    requires StatusIs(db, id, Used) && TxnOk(db, txn)
    ensures TxnOk(Attach(db, id, v), txn)
  {
  }

  lemma VerificationNeedsUsed(text: Text, req: Request, seen: Approval)
    requires PlanFor(text, req, Some(seen)).WriteVerification?
    ensures req.Verify? && seen.status == Used
  {
  }

  lemma AttachOfKeepsInv(text: Text, w: World, t: TxnId, req: Request, seen: Approval)
    requires Inv(text, w) && t in w.txns && w.txns[t] == Waiting(req, seen) && req.Verify? && seen.status == Used
    ensures req.id in w.db.rows
    ensures Inv(text,
      World(Attach(w.db, req.id, req.verification), w.txns[t := StillToRecord(req)]))
  {
    WriteFinds(text, w, t, req, seen);
    AttachKeepsInv(text, w, req.id, req.verification);
    TxnUpdateKeepsInv(text, World(Attach(w.db, req.id, req.verification), w.txns), t,
      StillToRecord(req));
  }

  lemma VerificationKeepsInv(text: Text, w: World, t: TxnId, req: Request, seen: Approval)
    requires Inv(text, w) && t in w.txns && w.txns[t] == Waiting(req, seen)
      && PlanFor(text, req, Some(seen)).WriteVerification?
    ensures Inv(text, NextWrite(text, w, t))
  {
    VerificationNeedsUsed(text, req, seen);
    AttachOfKeepsInv(text, w, t, req, seen);
    AttachIs(text, w, t, req, seen);
  }

  lemma AttachIs(text: Text, w: World, t: TxnId, req: Request, seen: Approval)
    requires t in w.txns && w.txns[t] == Waiting(req, seen) && PlanFor(text, req, Some(seen)).WriteVerification?
    requires req.id in w.db.rows && req.Verify?
    ensures NextWrite(text, w, t) ==
      World(Attach(w.db, req.id, req.verification), w.txns[t := StillToRecord(req)])
  {
  }

  lemma VerifiedKeepsRow(text: Text, row: Approval, events: seq<Event>, v: Json)
    requires RowOk(text, row, events)
    ensures RowOk(text, row, events + [VerifiedEvent(v)])
  {
    var e := VerifiedEvent(v);
    LifeSnoc(events, e);
    MarkOf(e);
    assert Life(events) + [] == Life(events);
    assert Life(events + [e]) == Life(events);
    forall x | x in events + [e] && x.UsedEvent? ensures UseMatches(text, row, x) { assert x in events; }
  }

  lemma UsedEventExists(text: Text, db: Db, id: Id)
    requires RowsOk(text, db) && StatusIs(db, id, Used)
    ensures Life(EventsOf(db.audit, id)) == [MRequested, MApproved, MUsed]
    ensures exists j | 0 <= j < |db.audit| :: db.audit[j].0 == id && db.audit[j].1.UsedEvent?
  {
    assert RowOk(text, db.rows[id], EventsOf(db.audit, id));
    ReplaysIffLegal(Life(EventsOf(db.audit, id)));
    assert [MRequested, MApproved, MUsed][2] == MUsed;
    UsedIsRecorded(db.audit, id);
  }

  lemma AuditKeepsInv(text: Text, w: World, t: TxnId, id: Id, p: string, v: Json)
    requires Inv(text, w) && t in w.txns && w.txns[t] == WritingAudit(id, p, v)
    ensures Inv(text, NextWrite(text, w, t))
  {
    assert TxnOk(w.db, w.txns[t]);
    var db' := Put(w.db, id, w.db.rows[id], VerifiedEvent(v));
    assert db'.rows == w.db.rows;
    VerifiedKeepsRow(text, w.db.rows[id], EventsOf(w.db.audit, id), v);
    PutKeepsRows(text, w.db, id, w.db.rows[id], VerifiedEvent(v));
    UsedEventExists(text, w.db, id);
    SnocKeepsOrder(w.db.audit, id, VerifiedEvent(v));
    forall u | u in w.txns ensures TxnOk(db', w.txns[u]) { assert TxnOk(w.db, w.txns[u]); }
    TxnUpdateKeepsInv(text, World(db', w.txns), t, Done(Verify(id, p, v), WasVerified));
    assert NextWrite(text, w, t) == World(db', w.txns[t := Done(Verify(id, p, v), WasVerified)]);
  }

  lemma StepKeepsInv(text: Text, w: World, step: Step)
    requires Inv(text, w)
    ensures Inv(text, Next(text, w, step))
  {
    match step
    case CreateStep(p, id, body) => CreateKeepsInv(text, w, p, id, body);
    case ReadStep(t, req) => ReadKeepsInv(text, w, t, req);
    case WriteStep(t) => if t in w.txns { WriteKeepsInv(text, w, t); }
  }

  lemma WriteKeepsInv(text: Text, w: World, t: TxnId)
    requires Inv(text, w) && t in w.txns
    ensures Inv(text, NextWrite(text, w, t))
  {
    match w.txns[t]
    case Waiting(req, seen) =>
      match PlanFor(text, req, Some(seen)) {
        case Answer(outcome) => AnswerKeepsInv(text, w, t, req, seen);
        case WriteExpiry => ExpiryKeepsInv(text, w, t, req, seen);
        case WriteDecision => DecisionKeepsInv(text, w, t, req, seen);
        case WriteUse => UseKeepsInv(text, w, t, req, seen);
        case WriteVerification => VerificationKeepsInv(text, w, t, req, seen);
      }
    case WritingAudit(id, p, v) => AuditKeepsInv(text, w, t, id, p, v);
    case Done(_, _) =>
  }

  lemma AnswerKeepsInv(text: Text, w: World, t: TxnId, req: Request, seen: Approval)
    requires Inv(text, w) && t in w.txns && w.txns[t] == Waiting(req, seen) && PlanFor(text, req, Some(seen)).Answer?
    ensures Inv(text, NextWrite(text, w, t))
  {
    AnswersAreNoUse(text, req, Some(seen));
    TxnUpdateKeepsInv(text, w, t, Done(req, PlanFor(text, req, Some(seen)).outcome));
  }

  lemma {:induction false} RunKeepsInv(text: Text, steps: seq<Step>)
    ensures Inv(text, Run(text, steps))
  {
    if steps != [] {
      RunKeepsInv(text, steps[..|steps| - 1]);
      StepKeepsInv(text, Run(text, steps[..|steps| - 1]), steps[|steps| - 1]);
    } else {
      forall id ensures EventsOf(EMPTY.db.audit, id) == [] {}
    }
  }

  // ---------------------------------------------------------------- theorems

  /** In every interleaving each approval's status events form a legal word that replays to the stored status. */
  lemma AuditReplaysToStatus(text: Text, steps: seq<Step>, id: Id)
    ensures var db := Run(text, steps).db;
      if id in db.rows then
        LegalLife(Life(EventsOf(db.audit, id))) && Replay(Life(EventsOf(db.audit, id))) == Some(db.rows[id].status)
      else EventsOf(db.audit, id) == []
  {
    RunKeepsInv(text, steps);
    var db := Run(text, steps).db;
    if id in db.rows {
      assert RowOk(text, db.rows[id], EventsOf(db.audit, id));
      ReplaysIffLegal(Life(EventsOf(db.audit, id)));
    }
  }

  /** USED means: approved before, consumed with an equal scope for the same gate, and strictly before it expired. */
  lemma UsedMeansApprovedInTime(text: Text, steps: seq<Step>, id: Id)
    requires StatusIs(Run(text, steps).db, id, Used)
    ensures var db := Run(text, steps).db;
      var row := db.rows[id];
      && Life(EventsOf(db.audit, id)) == [MRequested, MApproved, MUsed]
      && row.decidedAt.Some? && row.consumedAt.Some?
      && (row.expiresAt.Some? ==> row.consumedAt.value < row.expiresAt.value)
      && exists e | e in EventsOf(db.audit, id) && e.UsedEvent? ::
           e.consumedAt == row.consumedAt.value && e.gateKind == row.gateKind && IsScopeEqual(text, row.scope, e.scope)
  {
    RunKeepsInv(text, steps);
    var db := Run(text, steps).db;
    var events := EventsOf(db.audit, id);
    assert RowOk(text, db.rows[id], events);
    UsedEventExists(text, db, id);
    var j :| 0 <= j < |db.audit| && db.audit[j].0 == id && db.audit[j].1.UsedEvent?;
    EventIsListed(db.audit, id, j);
    assert UseMatches(text, db.rows[id], db.audit[j].1);
  }

  lemma {:induction false} EventIsListed(audit: seq<(Id, Event)>, id: Id, j: nat)
    requires j < |audit| && audit[j].0 == id
    ensures audit[j].1 in EventsOf(audit, id)
  {
    if j < |audit| - 1 { EventIsListed(audit[..|audit| - 1], id, j); }
  }

  /** A verification event is only ever written about an approval that was used before. */
  lemma VerificationFollowsUse(text: Text, steps: seq<Step>)
    ensures VerifiedAfterUse(Run(text, steps).db.audit)
  {
    RunKeepsInv(text, steps);
  }

  /**
   * Why comparing the status alone is safe: the status graph has no cycle, so a row whose status is
   * still the one read is the row that was read.
   */
  lemma StatusCheckIsExact(text: Text, steps: seq<Step>, t: TxnId)
    requires var w := Run(text, steps); t in w.txns && w.txns[t].Waiting? && w.txns[t].seen.status != Used
    ensures var w := Run(text, steps); var txn := w.txns[t];
      StatusIs(w.db, txn.req.id, txn.seen.status) <==> Find(w.db, txn.req.id) == Some(txn.seen)
  {
    RunKeepsInv(text, steps);
    var w := Run(text, steps);
    assert TxnOk(w.db, w.txns[t]);
  }

  predicate Consumed(w: World, t: TxnId, id: Id) {
    t in w.txns && w.txns[t].Done? && w.txns[t].outcome == WasUsed && w.txns[t].req.id == id
  }

  lemma UseNeedsApproved(text: Text, w: World, step: Step, t: TxnId, id: Id)
    requires !Consumed(w, t, id) && Consumed(Next(text, w, step), t, id)
    ensures step == WriteStep(t) && StatusIs(w.db, id, Approved)
  {
  }

  /** An approval is single-use: of all consume transactions over it, in any interleaving, at most one succeeds. */
  lemma {:induction false} SingleUse(text: Text, steps: seq<Step>, t1: TxnId, t2: TxnId, id: Id)
    requires Consumed(Run(text, steps), t1, id) && Consumed(Run(text, steps), t2, id)
    ensures t1 == t2
  {
    if steps != [] {
      var w, step := Run(text, steps[..|steps| - 1]), steps[|steps| - 1];
      RunKeepsInv(text, steps[..|steps| - 1]);
      if Consumed(w, t1, id) && Consumed(w, t2, id) {
        SingleUse(text, steps[..|steps| - 1], t1, t2, id);
      } else if Consumed(w, t1, id) {
        assert TxnOk(w.db, w.txns[t1]);
        UseNeedsApproved(text, w, step, t2, id);
      } else if Consumed(w, t2, id) {
        assert TxnOk(w.db, w.txns[t2]);
        UseNeedsApproved(text, w, step, t1, id);
      } else {
        UseNeedsApproved(text, w, step, t1, id);
        UseNeedsApproved(text, w, step, t2, id);
      }
    }
  }

  // ---------------------------------------------------------------- the handlers

  /**
   * One transaction on the store as it is when its write runs; `seen` is what it read earlier.
   * It is the machine's read of `req` followed by its write.
   */
  function Transact(text: Text, db: Db, req: Request, seen: Option<Approval>): (Db, Outcome) {
    var plan := PlanFor(text, req, seen);
    if plan.Answer? then (db, plan.outcome)
    else if seen.None? then (db, NotFound)
    else Commit(text, db, req, seen.value)
  }

  class ApprovalApi {
    var rows: map<Id, Approval>
    var audit: seq<(Id, Event)>
    const text: Text

    constructor (text: Text)
      ensures View() == EMPTY.db && this.text == text
    {
      rows, audit := map[], [];
      this.text := text;
    }

    function View(): Db
      reads this
    {
      Db(rows, audit)
    }

    method CreateApproval(authProject: string, id: Id, body: Body) returns (error: Option<CreateError>)
      modifies this
      ensures match Create(old(View()), authProject, id, body)
        case Ok(db) => error.None? && View() == db
        case Err(e) => error == Some(e) && View() == old(View())
    {
      if body.projectId != authProject { return Some(ProjectMismatch); }
      if body.projectId == "" || body.gateKind == "" || Falsy(body.scope) { return Some(MissingFields); }
      var invalid := ValidateGateScope(body.gateKind, body.scope);
      if invalid.Some? { return Some(InvalidScope(invalid.value)); }
      if id in rows { return Some(DuplicateId); }
      rows := rows[id := Created(body)];
      audit := audit + [(id, RequestedEvent(body.gateKind, body.scope, body.expiresAt))];
      return None;
    }

    /** `updateMany` on id and status. */
    method UpdateStatus(id: Id, from: Status, row: Approval) returns (count: nat)
      modifies this`rows
      ensures if StatusIs(old(View()), id, from) then count == 1 && rows == old(rows)[id := row]
        else count == 0 && rows == old(rows)
    {
      if id !in rows || rows[id].status != from { return 0; }
      rows := rows[id := row];
      return 1;
    }

    method TryExpireApproval(id: Id, approval: Approval) returns (outcome: Outcome)
      modifies this
      ensures (View(), outcome) == Transact(text, old(View()), Expire(id), Some(approval))
    {
      if approval.status == Used || approval.status == Rejected || approval.status == Expired { return NotApplicable; }
      var row := if id in rows then rows[id].(status := Expired) else approval;
      var count := UpdateStatus(id, approval.status, row);
      if count == 0 {
        if id !in rows { return NotFound; }
        if rows[id].status == Expired { return HasExpired; }
        return Conflict;
      }
      audit := audit + [(id, ExpiredEvent(approval.expiresAt))];
      return HasExpired;
    }

    method DecideApproval(req: Request, seen: Option<Approval>) returns (outcome: Outcome)
      requires req.Decide?
      modifies this
      ensures (View(), outcome) == Transact(text, old(View()), req, seen)
    {
      if req.decision != "APPROVED" && req.decision != "REJECTED" { return BadDecision; }
      if seen.None? || seen.value.projectId != req.projectId { return NotFound; }
      var approval := seen.value;
      if approval.status == Used || approval.status == Rejected || approval.status == Approved { return NotPending; }
      if approval.expiresAt.Some? && req.now >= approval.expiresAt.value {
        if approval.status != Expired {
          outcome := TryExpireApproval(req.id, approval);
          return;
        }
        return HasExpired;
      }
      if approval.status == Expired { return HasExpired; }
      if approval.status != Pending { return NotPending; }
      var row := if req.id in rows then Decided(rows[req.id], req) else approval;
      var count := UpdateStatus(req.id, Pending, row);
      if count == 0 { return Conflict; }
      audit := audit + [(req.id, DecidedEvent(req.decision == "APPROVED", req.actor, req.rationale))];
      return WasDecided;
    }

    method ConsumeApproval(req: Request, seen: Option<Approval>) returns (outcome: Outcome)
      requires req.Consume?
      modifies this
      ensures (View(), outcome) == Transact(text, old(View()), req, seen)
    {
      if seen.None? || seen.value.projectId != req.projectId { return NotFound; }
      var approval := seen.value;
      if approval.status == Used || approval.status == Rejected { return NotApproved; }
      if approval.expiresAt.Some? && req.now >= approval.expiresAt.value {
        if approval.status != Expired {
          var expired := if req.id in rows then rows[req.id].(status := Expired) else approval;
          var n := UpdateStatus(req.id, approval.status, expired);
          if n == 0 {
            if req.id !in rows { return NotFound; }
            if rows[req.id].status == Expired { return HasExpired; }
            if rows[req.id].status != Approved { return NotApproved; }
            return Conflict;
          }
          audit := audit + [(req.id, ExpiredEvent(approval.expiresAt))];
          return HasExpired;
        }
        return HasExpired;
      }
      if approval.status == Expired { return HasExpired; }
      if approval.status != Approved { return NotApproved; }
      if approval.gateKind != req.gateKind { return GateKindMismatch; }
      if req.scope.None? || !IsScopeEqual(text, approval.scope, req.scope.value) { return ScopeMismatch; }
      var row := if req.id in rows then rows[req.id].(status := Used, consumedAt := Some(req.now)) else approval;
      var count := UpdateStatus(req.id, Approved, row);
      if count == 0 { return Conflict; }
      audit := audit + [(req.id, UsedEvent(req.now, req.gateKind, req.scope.value))];
      return WasUsed;
    }

    /** The update and the audit event are two separate writes; the second is `RecordVerification`. */
    method AttachVerification(req: Request, seen: Option<Approval>) returns (outcome: Outcome)
      requires req.Verify?
      modifies this
      ensures (View(), outcome) == Transact(text, old(View()), req, seen)
    {
      if seen.None? || seen.value.projectId != req.projectId { return NotFound; }
      if seen.value.status != Used { return NotUsed; }
      if req.id !in rows { return NotFound; }
      rows := rows[req.id := rows[req.id].(verification := Some(req.verification))];
      return WasVerified;
    }

    method RecordVerification(id: Id, verification: Json)
      modifies this
      ensures View() == Record(old(View()), id, verification)
    {
      audit := audit + [(id, VerifiedEvent(verification))];
    }
  }

  /** Steps of other transactions. */
  predicate Foreign(steps: seq<Step>, t: TxnId) {
    forall i | 0 <= i < |steps| :: steps[i].CreateStep? || steps[i].txn != t
  }

  lemma RunSnoc(text: Text, steps: seq<Step>, step: Step)
    ensures Run(text, steps + [step]) == Next(text, Run(text, steps), step)
  {
    assert (steps + [step])[..|steps|] == steps;
  }

  lemma {:induction false} ForeignLeavesTxn(text: Text, before: seq<Step>, others: seq<Step>, t: TxnId)
    requires t in Run(text, before).txns && Foreign(others, t)
    ensures t in Run(text, before + others).txns && Run(text, before + others).txns[t] == Run(text, before).txns[t]
  {
    if others == [] {
      assert before + others == before;
    } else {
      var n := |others| - 1;
      ForeignLeavesTxn(text, before, others[..n], t);
      RunSnoc(text, before + others[..n], others[n]);
      assert before + others == before + others[..n] + [others[n]];
    }
  }

  /**
   * A handler's read, at the end of any run, and its write, after any steps of others, are one call of `Transact` on
   * the store of the write with the row of the read; after a verification the audit write is still to come.
   */
  lemma TransactIsTheMachine(text: Text, before: seq<Step>, t: TxnId, req: Request, others: seq<Step>)
    requires t !in Run(text, before).txns && Foreign(others, t)
    ensures var w := Run(text, before + [ReadStep(t, req)] + others); var w' := Next(text, w, WriteStep(t));
      var r := Transact(text, w.db, req, Find(Run(text, before).db, req.id));
      && w'.db == r.0 && t in w'.txns
      && w'.txns[t] == if r.1.WasVerified? then StillToRecord(req) else Done(req, r.1)
  {
    RunSnoc(text, before, ReadStep(t, req));
    ForeignLeavesTxn(text, before + [ReadStep(t, req)], others, t);
    WriteIsTransact(text, Run(text, before + [ReadStep(t, req)] + others), t, req, Find(Run(text, before).db, req.id));
  }

  lemma WriteIsTransact(text: Text, w: World, t: TxnId, req: Request, seen: Option<Approval>)
    requires t in w.txns && w.txns[t] == AfterRead(text, seen, req)
    ensures var w' := Next(text, w, WriteStep(t)); var r := Transact(text, w.db, req, seen);
      && w'.db == r.0 && t in w'.txns
      && w'.txns[t] == if r.1.WasVerified? then StillToRecord(req) else Done(req, r.1)
  {
  }

  /** The audit write of a verification, after any steps of others, is one call of `RecordVerification`. */
  lemma RecordIsTheMachine(
    text: Text, before: seq<Step>, t: TxnId, id: Id, p: string, v: Json, others: seq<Step>)
    requires t in Run(text, before).txns && Run(text, before).txns[t] == WritingAudit(id, p, v) && Foreign(others, t)
    ensures var w := Run(text, before + others); Next(text, w, WriteStep(t)).db == Record(w.db, id, v)
  {
    ForeignLeavesTxn(text, before, others, t);
  }
}
