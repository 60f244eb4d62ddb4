/**
 * What an approval transaction's outcome says about the row, who may change a row, and when a request goes through:
 * over every interleaving of the transactions.
 */
module ApprovalOutcomes {
  import opened Common
  import opened Scope
  import opened Approvals

  // ---------------------------------------------------------------- what a row and a transaction remember

  /** Decided, if at all, by the request's own decision, and used after that. */
  predicate DecidedBy(row: Approval, req: Request)
    requires req.Decide?
  {
    && req.decision in {"APPROVED", "REJECTED"}
    && row.decidedBy == Some(req.actor) && row.decidedAt == Some(req.now) && row.rationale == req.rationale
    && (row.status == Rejected <==> req.decision == "REJECTED")
    && (req.decision == "APPROVED" <==> row.status in {Approved, Used, Expired})
  }

  predicate UsedBy(text: Text, row: Approval, req: Request)
    requires req.Consume?
  {
    && row.status == Used && row.consumedAt == Some(req.now) && row.gateKind == req.gateKind
    && req.scope.Some? && IsScopeEqual(text, row.scope, req.scope.value)
  }

  /** A request of the row's own project, as every request but the expiry states its project. */
  predicate OwnProject(db: Db, req: Request) {
    req.id in db.rows && (!req.Expire? ==> db.rows[req.id].projectId == req.projectId)
  }

  predicate TxnTells(text: Text, db: Db, txn: Txn) {
    match txn
    case Waiting(req, seen) =>
      && OwnProject(db, req) && !PlanFor(text, req, Some(seen)).Answer?
    case WritingAudit(id, p, v) => StatusIs(db, id, Used) && db.rows[id].projectId == p
    case Done(req, outcome) =>
      && (outcome == WasDecided ==> req.Decide? && OwnProject(db, req) && DecidedBy(db.rows[req.id], req))
      && (outcome == WasUsed ==> req.Consume? && OwnProject(db, req) && UsedBy(text, db.rows[req.id], req))
      && (outcome == WasVerified ==> req.Verify? && OwnProject(db, req) && StatusIs(db, req.id, Used))
  }

  /** Decided before it expired, verified only when used, and for a scope that fits its gate. */
  predicate RowTells(row: Approval) {
    && (row.decidedAt.Some? && row.expiresAt.Some? ==> row.decidedAt.value < row.expiresAt.value)
    && (row.status == Pending ==> row.decidedAt.None?)
    && (row.verification.Some? ==> row.status == Used)
    && row.projectId != "" && row.gateKind != "" && ValidateGateScope(row.gateKind, row.scope).None?
  }

  ghost predicate Tells(text: Text, w: World) {
    && (forall id | id in w.db.rows :: RowTells(w.db.rows[id]))
    && (forall t | t in w.txns :: TxnTells(text, w.db, w.txns[t]))
  }

  // ---------------------------------------------------------------- what every step keeps

  /** One row moved on: what others remember of it still holds. */
  predicate MovesOn(row: Approval, row': Approval) {
    && row'.projectId == row.projectId && row'.gateKind == row.gateKind && row'.scope == row.scope
    && row'.expiresAt == row.expiresAt
    && (row.status == Rejected || row.status == Used || row.status == Expired ==> row'.status == row.status)
    && (row.status == Approved ==> row'.status in {Approved, Used, Expired})
    && (row.status != Pending ==>
          && row'.decidedBy == row.decidedBy && row'.decidedAt == row.decidedAt && row'.rationale == row.rationale)
    && (row.status == Used ==> row'.consumedAt == row.consumedAt)
  }

  lemma RowMovesOn(text: Text, db: Db, id: Id, row': Approval, txn: Txn)
    requires id in db.rows && MovesOn(db.rows[id], row') && TxnTells(text, db, txn)
    ensures TxnTells(text, db.(rows := db.rows[id := row']), txn)
  {
  }

  lemma AuditTellsNothing(text: Text, db: Db, db': Db, txn: Txn)
    requires db'.rows == db.rows && TxnTells(text, db, txn)
    ensures TxnTells(text, db', txn)
  {
  }

  /** One row moved on and one transaction went with it. */
  lemma MoveTells(text: Text, w: World, db': Db, id: Id, row': Approval, t: TxnId, txn: Txn)
    requires Tells(text, w) && id in w.db.rows && MovesOn(w.db.rows[id], row') && RowTells(row')
    requires db'.rows == w.db.rows[id := row'] && TxnTells(text, db', txn)
    ensures Tells(text, World(db', w.txns[t := txn]))
  {
    forall u | u in w.txns ensures TxnTells(text, db', w.txns[u]) {
      RowMovesOn(text, w.db, id, row', w.txns[u]);
      AuditTellsNothing(text, w.db.(rows := w.db.rows[id := row']), db', w.txns[u]);
    }
  }

  lemma TxnChangeTells(text: Text, w: World, t: TxnId, txn: Txn)
    requires Tells(text, w) && TxnTells(text, w.db, txn)
    ensures Tells(text, World(w.db, w.txns[t := txn]))
  {
  }

  lemma CreatedTells(authProject: string, body: Body)
    requires CheckCreate(authProject, body).None?
    ensures RowTells(Created(body)) && Created(body).projectId == authProject
  {
  }

  lemma CreateTells(text: Text, w: World, authProject: string, id: Id, body: Body)
    requires Tells(text, w)
    ensures Tells(text, Next(text, w, CreateStep(authProject, id, body)))
  {
    if CheckCreate(authProject, body).None? && id !in w.db.rows {
      CreatedTells(authProject, body);
      var w' := Next(text, w, CreateStep(authProject, id, body));
      assert w'.db.rows == w.db.rows[id := Created(body)] && w'.txns == w.txns;
      forall t | t in w.txns ensures TxnTells(text, w'.db, w.txns[t]) { FreshRowTells(text, w.db, w'.db, w.txns[t]); }
    }
  }

  lemma FreshRowTells(text: Text, db: Db, db': Db, txn: Txn)
    requires TxnTells(text, db, txn) && forall id | id in db.rows :: id in db'.rows && db'.rows[id] == db.rows[id]
    ensures TxnTells(text, db', txn)
  {
  }

  /** What a request has checked on the row it read, when it goes on to write. */
  lemma PlanChecks(text: Text, req: Request, seen: Option<Approval>)
    ensures var plan := PlanFor(text, req, seen);
      && (plan.Answer? ==> plan.outcome !in {WasDecided, WasUsed, WasVerified})
      && (!plan.Answer? ==> seen.Some? && (!req.Expire? ==> seen.value.projectId == req.projectId))
      && (plan.WriteExpiry? ==> !req.Verify? && (seen.value.status == Pending || seen.value.status == Approved))
      && (plan.WriteDecision? ==>
            req.Decide? && req.decision in {"APPROVED", "REJECTED"} && seen.value.status == Pending
            && !InThePast(seen.value.expiresAt, req.now))
      && (plan.WriteUse? ==> UseReady(text, req, seen.value))
      && (plan.WriteVerification? ==> req.Verify? && seen.value.status == Used)
  {
  }

  lemma ReadTells(text: Text, w: World, t: TxnId, req: Request)
    requires Tells(text, w)
    ensures Tells(text, Next(text, w, ReadStep(t, req)))
  {
    if t !in w.txns {
      var seen := Find(w.db, req.id);
      PlanChecks(text, req, seen);
      TxnChangeTells(text, w, t, AfterRead(text, seen, req));
    }
  }

  /** A transaction that waits to write: the row it finds descends from the row it read. */
  predicate Writes(text: Text, w: World, t: TxnId, req: Request, seen: Approval) {
    && t in w.txns && w.txns[t] == Waiting(req, seen) && TxnTells(text, w.db, w.txns[t])
    && StillFrom(seen, w.db.rows[req.id])
  }

  lemma ExpiryTells(text: Text, w: World, t: TxnId, req: Request, seen: Approval)
    requires Tells(text, w) && Writes(text, w, t, req, seen) && (seen.status == Pending || seen.status == Approved)
    ensures var r := ExpiryOf(w.db, req, seen);
      r.1 !in {WasDecided, WasUsed, WasVerified} && Tells(text, World(r.0, w.txns[t := Done(req, r.1)]))
  {
    var r := ExpiryOf(w.db, req, seen);
    var row := w.db.rows[req.id];
    if row.status == seen.status {
      MoveTells(text, w, r.0, req.id, row.(status := Expired), t, Done(req, HasExpired));
    } else {
      TxnChangeTells(text, w, t, Done(req, r.1));
    }
  }

  lemma DecisionTells(text: Text, w: World, t: TxnId, req: Request, seen: Approval)
    requires Tells(text, w) && Writes(text, w, t, req, seen) && req.Decide? && req.decision in {"APPROVED", "REJECTED"}
    requires seen.status == Pending && !InThePast(seen.expiresAt, req.now)
    ensures var r := DecisionOf(w.db, req); r.1 != WasVerified && Tells(text, World(r.0, w.txns[t := Done(req, r.1)]))
  {
    var r := DecisionOf(w.db, req);
    var row := w.db.rows[req.id];
    if row.status == Pending {
      DecidedTells(row, req);
      assert r.0.rows == w.db.rows[req.id := Decided(row, req)];
      MoveTells(text, w, r.0, req.id, Decided(row, req), t, Done(req, WasDecided));
    } else {
      TxnChangeTells(text, w, t, Done(req, Conflict));
    }
  }

  lemma DecidedTells(row: Approval, req: Request)
    requires RowTells(row) && row.status == Pending && req.Decide? && req.decision in {"APPROVED", "REJECTED"}
    requires !InThePast(row.expiresAt, req.now)
    ensures MovesOn(row, Decided(row, req)) && RowTells(Decided(row, req)) && DecidedBy(Decided(row, req), req)
  {
  }

  lemma UseTells(text: Text, w: World, t: TxnId, req: Request, seen: Approval)
    requires Tells(text, w) && Writes(text, w, t, req, seen) && UseReady(text, req, seen)
    ensures var r := UseOf(w.db, req); r.1 != WasVerified && Tells(text, World(r.0, w.txns[t := Done(req, r.1)]))
  {
    var r := UseOf(w.db, req);
    var row := w.db.rows[req.id];
    if row.status == Approved {
      var row' := row.(status := Used, consumedAt := Some(req.now));
      assert r.0.rows == w.db.rows[req.id := row'];
      MoveTells(text, w, r.0, req.id, row', t, Done(req, WasUsed));
    } else {
      TxnChangeTells(text, w, t, Done(req, Conflict));
    }
  }

  lemma VerificationTells(text: Text, w: World, t: TxnId, req: Request, seen: Approval)
    requires Tells(text, w) && Writes(text, w, t, req, seen) && req.Verify? && seen.status == Used
    ensures req.id in w.db.rows
    ensures Tells(text, World(Attach(w.db, req.id, req.verification), w.txns[t := StillToRecord(req)]))
  {
    var row := w.db.rows[req.id];
    var row' := row.(verification := Some(req.verification));
    MoveTells(text, w, Attach(w.db, req.id, req.verification), req.id, row', t, StillToRecord(req));
  }

  lemma AuditTells(text: Text, w: World, t: TxnId, id: Id, p: string, v: Json)
    requires Tells(text, w) && t in w.txns && w.txns[t] == WritingAudit(id, p, v)
    ensures Tells(text, NextWrite(text, w, t))
  {
    var db' := Record(w.db, id, v);
    assert TxnTells(text, w.db, w.txns[t]);
    forall u | u in w.txns ensures TxnTells(text, db', w.txns[u]) { AuditTellsNothing(text, w.db, db', w.txns[u]); }
    TxnChangeTells(text, World(db', w.txns), t, Done(Verify(id, p, v), WasVerified));
  }

  lemma WriteTells(text: Text, w: World, t: TxnId, req: Request, seen: Approval)
    requires Tells(text, w) && Writes(text, w, t, req, seen)
    ensures Tells(text, NextWrite(text, w, t))
  {
    PlanChecks(text, req, Some(seen));
    match PlanFor(text, req, Some(seen)) {
      case WriteExpiry =>
        ExpiryTells(text, w, t, req, seen);
        WriteEnds(text, w, t, req, seen, ExpiryOf(w.db, req, seen));
      case WriteDecision =>
        DecisionTells(text, w, t, req, seen);
        WriteEnds(text, w, t, req, seen, DecisionOf(w.db, req));
      case WriteUse =>
        UseTells(text, w, t, req, seen);
        WriteEnds(text, w, t, req, seen, UseOf(w.db, req));
      case WriteVerification =>
        VerificationTells(text, w, t, req, seen);
        AttachIs(text, w, t, req, seen);
    }
  }

  lemma StepTells(text: Text, w: World, step: Step)
    requires Inv(text, w) && Tells(text, w)
    ensures Tells(text, Next(text, w, step))
  {
    match step
    case CreateStep(p, id, body) => CreateTells(text, w, p, id, body);
    case ReadStep(t, req) => ReadTells(text, w, t, req);
    case WriteStep(t) =>
      if t in w.txns {
        match w.txns[t] {
          case Waiting(req, seen) =>
            assert TxnOk(w.db, w.txns[t]) && TxnTells(text, w.db, w.txns[t]);
            WriteTells(text, w, t, req, seen);
          case WritingAudit(id, p, v) => AuditTells(text, w, t, id, p, v);
          case Done(_, _) =>
        }
      }
  }

  lemma {:induction false} RunTells(text: Text, steps: seq<Step>)
    ensures Tells(text, Run(text, steps))
  {
    if steps != [] {
      RunTells(text, steps[..|steps| - 1]);
      Approvals.RunKeepsInv(text, steps[..|steps| - 1]);
      StepTells(text, Run(text, steps[..|steps| - 1]), steps[|steps| - 1]);
    }
  }

  // ---------------------------------------------------------------- what outcomes say

  /**
   * In every interleaving: an approval was decided, used or verified only by a request of its own project, as the
   * request asked, and the row shows by whom and when; a rejected approval is never used.
   */
  lemma OutcomesAreTrue(text: Text, steps: seq<Step>, t: TxnId)
    requires t in Run(text, steps).txns && Run(text, steps).txns[t].Done?
    ensures var db := Run(text, steps).db; var req := Run(text, steps).txns[t].req;
      match Run(text, steps).txns[t].outcome
      case WasDecided =>
        && req.Decide? && req.id in db.rows && db.rows[req.id].projectId == req.projectId
        && DecidedBy(db.rows[req.id], req)
      case WasUsed =>
        && req.Consume? && req.id in db.rows && db.rows[req.id].projectId == req.projectId
        && UsedBy(text, db.rows[req.id], req)
      case WasVerified =>
        && req.Verify? && req.id in db.rows && db.rows[req.id].projectId == req.projectId
        && db.rows[req.id].status == Used
      case _ => true
  {
    RunTells(text, steps);
    assert TxnTells(text, Run(text, steps).db, Run(text, steps).txns[t]);
  }

  /** An audit event of a verification is only ever written for the approval's own project. */
  lemma RecordsOwnProject(text: Text, steps: seq<Step>, t: TxnId)
    requires t in Run(text, steps).txns && Run(text, steps).txns[t].WritingAudit?
    ensures var db := Run(text, steps).db; var txn := Run(text, steps).txns[t];
      StatusIs(db, txn.id, Used) && db.rows[txn.id].projectId == txn.projectId
  {
    RunTells(text, steps);
    assert TxnTells(text, Run(text, steps).db, Run(text, steps).txns[t]);
  }

  /** In every interleaving each row was decided before it expired, is verified only if used, and fits its gate. */
  lemma RowsAreTrue(text: Text, steps: seq<Step>, id: Id)
    requires id in Run(text, steps).db.rows
    ensures var row := Run(text, steps).db.rows[id];
      && (row.decidedAt.Some? && row.expiresAt.Some? ==> row.decidedAt.value < row.expiresAt.value)
      && (row.verification.Some? ==> row.status == Used)
      && ValidateGateScope(row.gateKind, row.scope).None?
  {
    RunTells(text, steps);
  }

  // ---------------------------------------------------------------- requests from elsewhere

  /** The request names a project that the row is not of. */
  predicate FromElsewhere(db: Db, req: Request) {
    !req.Expire? && req.id in db.rows && db.rows[req.id].projectId != req.projectId
  }

  /**
   * A request from another project is over with its read: it is answered NOT_FOUND, or refused for a malformed
   * decision, and its write changes nothing, whatever others do meanwhile.
   */
  lemma ElsewhereChangesNothing(text: Text, before: seq<Step>, t: TxnId, req: Request, others: seq<Step>)
    requires t !in Run(text, before).txns && FromElsewhere(Run(text, before).db, req) && Approvals.Foreign(others, t)
    ensures Run(text, before + [ReadStep(t, req)]).db == Run(text, before).db
    ensures var w := Run(text, before + [ReadStep(t, req)] + others);
      && t in w.txns && w.txns[t].Done? && w.txns[t].req == req && w.txns[t].outcome in {NotFound, BadDecision}
      && Next(text, w, WriteStep(t)) == w
  {
    RunSnoc(text, before, ReadStep(t, req));
    Approvals.ForeignLeavesTxn(text, before + [ReadStep(t, req)], others, t);
    ElsewhereIsAnswered(text, Run(text, before).db, req);
  }

  lemma ElsewhereIsAnswered(text: Text, db: Db, req: Request)
    requires FromElsewhere(db, req)
    ensures var txn := AfterRead(text, Find(db, req.id), req);
      txn.Done? && txn.req == req && txn.outcome in {NotFound, BadDecision}
  {
  }

  // ---------------------------------------------------------------- when a request goes through

  function Alone(text: Text, w: World, t: TxnId, req: Request): World {
    Next(text, Next(text, w, ReadStep(t, req)), WriteStep(t))
  }

  predicate OpenTo(db: Db, req: Request, status: Status)
    requires req.Decide? || req.Consume?
  {
    && StatusIs(db, req.id, status) && db.rows[req.id].projectId == req.projectId
    && (db.rows[req.id].expiresAt.Some? ==> req.now < db.rows[req.id].expiresAt.value)
  }

  /**
   * Undisturbed, a decision goes through exactly on a pending approval of the project that has not expired, when it is
   * one of the two decisions.
   */
  lemma DecidesIff(text: Text, w: World, t: TxnId, req: Request)
    requires t !in w.txns && req.Decide?
    ensures Alone(text, w, t, req).txns[t] == Done(req, WasDecided) <==>
      OpenTo(w.db, req, Pending) && req.decision in {"APPROVED", "REJECTED"}
  {
    var w1 := Next(text, w, ReadStep(t, req));
    if w1.txns[t].Waiting? { DecideAlone(text, w1, t, req, w.db.rows[req.id]); }
  }

  lemma DecideAlone(text: Text, w: World, t: TxnId, req: Request, row: Approval)
    requires req.Decide? && t in w.txns && w.txns[t] == Waiting(req, row) && Find(w.db, req.id) == Some(row)
    requires !PlanFor(text, req, Some(row)).Answer?
    ensures NextWrite(text, w, t).txns[t] == Done(req, WasDecided) <==> PlanFor(text, req, Some(row)).WriteDecision?
  {
  }

  /**
   * Undisturbed, an approval is used exactly when it is approved, of the project, not expired, for the same gate and
   * an equal scope.
   */
  lemma UsesIff(text: Text, w: World, t: TxnId, req: Request)
    requires t !in w.txns && req.Consume?
    ensures Alone(text, w, t, req).txns[t] == Done(req, WasUsed) <==>
      && OpenTo(w.db, req, Approved) && w.db.rows[req.id].gateKind == req.gateKind
      && req.scope.Some? && IsScopeEqual(text, w.db.rows[req.id].scope, req.scope.value)
  {
    var w1 := Next(text, w, ReadStep(t, req));
    if w1.txns[t].Waiting? { UseAlone(text, w1, t, req, w.db.rows[req.id]); }
  }

  lemma UseAlone(text: Text, w: World, t: TxnId, req: Request, row: Approval)
    requires req.Consume? && t in w.txns && w.txns[t] == Waiting(req, row) && Find(w.db, req.id) == Some(row)
    requires !PlanFor(text, req, Some(row)).Answer?
    ensures NextWrite(text, w, t).txns[t] == Done(req, WasUsed) <==> PlanFor(text, req, Some(row)).WriteUse?
  {
  }

  /** Undisturbed, a verification is attached exactly to a used approval of the project. */
  lemma VerifiesIff(text: Text, w: World, t: TxnId, req: Request)
    requires t !in w.txns && req.Verify?
    ensures var w' := Alone(text, w, t, req);
      && (w'.txns[t].WritingAudit? <==> StatusIs(w.db, req.id, Used) && w.db.rows[req.id].projectId == req.projectId)
      && (w'.txns[t].WritingAudit? ==>
            req.id in w'.db.rows && w'.db.rows[req.id].verification == Some(req.verification))
  {
  }

  // ---------------------------------------------------------------- what a refusal says

  /** What an answer claims about the row as it was read. */
  predicate Claims(text: Text, req: Request, seen: Option<Approval>, outcome: Outcome) {
    match outcome
    case BadDecision => req.Decide? && req.decision != "APPROVED" && req.decision != "REJECTED"
    case NotFound => seen.None? || (!req.Expire? && seen.value.projectId != req.projectId)
    case NotPending => req.Decide? && seen.Some? && seen.value.status in {Approved, Rejected, Used}
    case NotApproved => req.Consume? && seen.Some? && seen.value.status in {Pending, Rejected, Used}
    case HasExpired => (req.Decide? || req.Consume?) && seen.Some? && seen.value.status == Expired
    case NotApplicable => req.Expire? && seen.Some? && seen.value.status in {Rejected, Used, Expired}
    case GateKindMismatch => req.Consume? && seen.Some? && seen.value.gateKind != req.gateKind
    case ScopeMismatch =>
      req.Consume? && seen.Some? && (req.scope.None? || !IsScopeEqual(text, seen.value.scope, req.scope.value))
    case NotUsed => req.Verify? && seen.Some? && seen.value.status != Used
    case _ => false
  }

  /** Every answer given at the read is true of the row that was read. */
  lemma AnswersAreTrue(text: Text, req: Request, seen: Option<Approval>)
    requires PlanFor(text, req, seen).Answer?
    ensures Claims(text, req, seen, PlanFor(text, req, seen).outcome)
  {
  }

  /**
   * Every refusal given at the write is true of the row as it then is: an expiry has happened, or the status is no
   * longer the one that was read and nothing was written.
   */
  lemma WriteRefusalsAreTrue(text: Text, steps: seq<Step>, t: TxnId)
    requires t in Run(text, steps).txns && Run(text, steps).txns[t].Waiting?
    ensures var w := Run(text, steps); var w' := NextWrite(text, w, t); var id := w.txns[t].req.id;
      id in w.db.rows && id in w'.db.rows && t in w'.txns &&
      (w'.txns[t].Done? && w'.txns[t].outcome !in {WasDecided, WasUsed} ==>
        match w'.txns[t].outcome
        case HasExpired => w'.db.rows[id].status == Expired
        case Conflict => w'.db == w.db && w.db.rows[id].status != w.txns[t].seen.status
        case NotApproved =>
          && w'.db == w.db && w.txns[t].req.Consume? && w.db.rows[id].status != w.txns[t].seen.status
          && w.db.rows[id].status != Approved
        case _ => false)
  {
    var w := Run(text, steps);
    Approvals.RunKeepsInv(text, steps);
    RunTells(text, steps);
    assert TxnOk(w.db, w.txns[t]) && TxnTells(text, w.db, w.txns[t]);
    WriteIsTrue(text, w, t, w.txns[t].req, w.txns[t].seen);
  }

  /**
   * A request that comes when the time is over never decides or uses: it expires the approval or finds it expired, and
   * when the status has moved on meanwhile it says so.
   */
  lemma LateRequestsExpire(text: Text, steps: seq<Step>, t: TxnId)
    requires t in Run(text, steps).txns && Run(text, steps).txns[t].Waiting?
    requires var txn := Run(text, steps).txns[t];
      (txn.req.Decide? || txn.req.Consume?) && Expires(txn.req, txn.seen)
    ensures var w := Run(text, steps); var w' := NextWrite(text, w, t); var req := w.txns[t].req;
      && req.id in w.db.rows && req.id in w'.db.rows && t in w'.txns && w'.txns[t].Done?
      && (w'.txns[t].outcome == HasExpired <==> w'.db.rows[req.id].status == Expired)
      && (w'.txns[t].outcome == NotApproved <==>
            req.Consume? && w'.db.rows[req.id].status != Expired && w'.db.rows[req.id].status != Approved)
      && w'.txns[t].outcome in {HasExpired, NotApproved, Conflict}
  {
    var w := Run(text, steps);
    Approvals.RunKeepsInv(text, steps);
    RunTells(text, steps);
    assert TxnOk(w.db, w.txns[t]) && TxnTells(text, w.db, w.txns[t]);
    LateWriteExpires(text, w, t, w.txns[t].req, w.txns[t].seen);
  }

  lemma LateWriteExpires(text: Text, w: World, t: TxnId, req: Request, seen: Approval)
    requires t in w.txns && w.txns[t] == Waiting(req, seen) && req.id in w.db.rows
    requires !PlanFor(text, req, Some(seen)).Answer? && (req.Decide? || req.Consume?) && Expires(req, seen)
    ensures var w' := NextWrite(text, w, t);
      && req.id in w'.db.rows && t in w'.txns && w'.txns[t].Done?
      && (w'.txns[t].outcome == HasExpired <==> w'.db.rows[req.id].status == Expired)
      && (w'.txns[t].outcome == NotApproved <==>
            req.Consume? && w'.db.rows[req.id].status != Expired && w'.db.rows[req.id].status != Approved)
      && w'.txns[t].outcome in {HasExpired, NotApproved, Conflict}
  {
    assert PlanFor(text, req, Some(seen)).WriteExpiry?;
  }

  lemma WriteIsTrue(text: Text, w: World, t: TxnId, req: Request, seen: Approval)
    requires t in w.txns && w.txns[t] == Waiting(req, seen) && req.id in w.db.rows && StillFrom(seen, w.db.rows[req.id])
    requires !PlanFor(text, req, Some(seen)).Answer?
    ensures var w' := NextWrite(text, w, t);
      req.id in w'.db.rows && t in w'.txns &&
      (w'.txns[t].Done? && w'.txns[t].outcome !in {WasDecided, WasUsed} ==>
        match w'.txns[t].outcome
        case HasExpired => w'.db.rows[req.id].status == Expired
        case Conflict => w'.db == w.db && w.db.rows[req.id].status != seen.status
        case NotApproved =>
          && w'.db == w.db && req.Consume? && w.db.rows[req.id].status != seen.status
          && w.db.rows[req.id].status != Approved
        case _ => false)
  {
    PlanChecks(text, req, Some(seen));
  }

  // ---------------------------------------------------------------- where rows and expiries come from

  predicate Asked(steps: seq<Step>, req: Request) {
    exists k | 0 <= k < |steps| :: steps[k].ReadStep? && steps[k].req == req
  }

  /** The request expires the row: it came when the row's time was over, or asked for nothing else. */
  predicate Expires(req: Request, row: Approval) {
    req.Expire? || ((req.Decide? || req.Consume?) && row.expiresAt.Some? && req.now >= row.expiresAt.value)
  }

  predicate Due(steps: seq<Step>, id: Id, row: Approval) {
    exists k | 0 <= k < |steps| :: steps[k].ReadStep? && steps[k].req.id == id && Expires(steps[k].req, row)
  }

  /** The row was created by a caller of its own project, with the scope, gate and expiry that it has. */
  predicate CreatedFor(steps: seq<Step>, id: Id, row: Approval) {
    exists k | 0 <= k < |steps| ::
      && steps[k].CreateStep? && steps[k].id == id && steps[k].authProject == row.projectId
      && steps[k].body.scope == row.scope && steps[k].body.gateKind == row.gateKind
      && steps[k].body.expiresAt == row.expiresAt
      && row.requestedBy == (if steps[k].body.requestedBy == "" then "SYSTEM" else steps[k].body.requestedBy)
  }

  predicate SameTerms(row: Approval, row': Approval) {
    && row'.projectId == row.projectId && row'.scope == row.scope && row'.gateKind == row.gateKind
    && row'.expiresAt == row.expiresAt && row'.requestedBy == row.requestedBy
  }

  ghost predicate Grounded(w: World, steps: seq<Step>) {
    && (forall t | t in w.txns && w.txns[t].Waiting? :: Asked(steps, w.txns[t].req))
    && (forall id | id in w.db.rows ::
          CreatedFor(steps, id, w.db.rows[id]) && (w.db.rows[id].status == Expired ==> Due(steps, id, w.db.rows[id])))
  }

  lemma GroundsStay(steps: seq<Step>, step: Step, id: Id, row: Approval, row': Approval, req: Request)
    requires SameTerms(row, row')
    ensures Asked(steps, req) ==> Asked(steps + [step], req)
    ensures CreatedFor(steps, id, row) ==> CreatedFor(steps + [step], id, row')
    ensures Due(steps, id, row) ==> Due(steps + [step], id, row')
  {
    assert forall k | 0 <= k < |steps| :: (steps + [step])[k] == steps[k];
  }

  lemma CommitExpires(text: Text, db: Db, req: Request, seen: Approval, id: Id)
    requires id in db.rows && req.id in db.rows && StillFrom(seen, db.rows[req.id])
    ensures var db' := Commit(text, db, req, seen).0;
      && id in db'.rows && SameTerms(db.rows[id], db'.rows[id])
      && (db'.rows[id].status == Expired != db.rows[id].status ==> req.id == id && Expires(req, db.rows[id]))
  {
  }

  lemma RowAfterWrite(text: Text, w: World, t: TxnId, id: Id)
    requires Inv(text, w) && t in w.txns && id in NextWrite(text, w, t).db.rows
    ensures id in w.db.rows && SameTerms(w.db.rows[id], NextWrite(text, w, t).db.rows[id])
    ensures NextWrite(text, w, t).db.rows[id].status == Expired != w.db.rows[id].status ==>
      w.txns[t].Waiting? && w.txns[t].req.id == id && Expires(w.txns[t].req, NextWrite(text, w, t).db.rows[id])
  {
    assert TxnOk(w.db, w.txns[t]);
    if w.txns[t].Waiting? {
      WriteHasRows(text, w.db, w.txns[t].req, w.txns[t].seen);
      CommitExpires(text, w.db, w.txns[t].req, w.txns[t].seen, id);
    }
  }

  lemma WriteHasRows(text: Text, db: Db, req: Request, seen: Approval)
    requires req.id in db.rows
    ensures Commit(text, db, req, seen).0.rows.Keys == db.rows.Keys
  {
  }

  lemma RowAfter(text: Text, w: World, step: Step, id: Id)
    requires Inv(text, w) && id in Next(text, w, step).db.rows
    ensures var row' := Next(text, w, step).db.rows[id];
      if id in w.db.rows then
        && SameTerms(w.db.rows[id], row')
        && (row'.status == Expired != w.db.rows[id].status ==>
              && step.WriteStep? && step.txn in w.txns && w.txns[step.txn].Waiting?
              && w.txns[step.txn].req.id == id && Expires(w.txns[step.txn].req, row'))
      else
        && step.CreateStep? && step.id == id && step.authProject == row'.projectId && row' == Created(step.body)
  {
    if step.WriteStep? && step.txn in w.txns { RowAfterWrite(text, w, step.txn, id); }
  }

  lemma WaitingIsAsked(text: Text, w: World, step: Step, t: TxnId)
    requires t in Next(text, w, step).txns && Next(text, w, step).txns[t].Waiting?
    ensures (t in w.txns && w.txns[t] == Next(text, w, step).txns[t])
      || step == ReadStep(t, Next(text, w, step).txns[t].req)
  {
  }

  lemma RowIsGrounded(text: Text, w: World, steps: seq<Step>, step: Step, id: Id)
    requires Inv(text, w) && Grounded(w, steps) && id in Next(text, w, step).db.rows
    ensures var row' := Next(text, w, step).db.rows[id];
      CreatedFor(steps + [step], id, row') && (row'.status == Expired ==> Due(steps + [step], id, row'))
  {
    var row' := Next(text, w, step).db.rows[id];
    RowAfter(text, w, step, id);
    assert (steps + [step])[|steps|] == step;
    if id in w.db.rows {
      GroundsStay(steps, step, id, w.db.rows[id], row', Expire(id));
      if row'.status == Expired != w.db.rows[id].status {
        var req := w.txns[step.txn].req;
        var k :| 0 <= k < |steps| && steps[k].ReadStep? && steps[k].req == req;
        assert (steps + [step])[k] == steps[k];
      }
    }
  }

  lemma {:induction false} RunIsGrounded(text: Text, steps: seq<Step>)
    ensures Grounded(Run(text, steps), steps)
  {
    if steps != [] {
      var before, step := steps[..|steps| - 1], steps[|steps| - 1];
      var w := Run(text, before);
      RunIsGrounded(text, before);
      Approvals.RunKeepsInv(text, before);
      assert steps == before + [step];
      forall id | id in Next(text, w, step).db.rows
        ensures var row' := Next(text, w, step).db.rows[id];
          CreatedFor(steps, id, row') && (row'.status == Expired ==> Due(steps, id, row'))
      {
        RowIsGrounded(text, w, before, step, id);
      }
      forall t | t in Next(text, w, step).txns && Next(text, w, step).txns[t].Waiting?
        ensures Asked(steps, Next(text, w, step).txns[t].req)
      {
        WaitingIsAsked(text, w, step, t);
        if t in w.txns && w.txns[t] == Next(text, w, step).txns[t] {
          var k :| 0 <= k < |before| && before[k].ReadStep? && before[k].req == w.txns[t].req;
          assert steps[k] == before[k];
        }
      }
    }
  }

  /**
   * In every interleaving: each approval was created by a caller of its own project with the terms it has now, and it
   * is EXPIRED only if a request came after its time was over, or asked for nothing but the expiry.
   */
  lemma RowsAreGrounded(text: Text, steps: seq<Step>, id: Id)
    requires id in Run(text, steps).db.rows
    ensures var row := Run(text, steps).db.rows[id];
      CreatedFor(steps, id, row) && (row.status == Expired ==> Due(steps, id, row))
  {
    RunIsGrounded(text, steps);
  }
}
