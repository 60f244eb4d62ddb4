/**
 * The owner event processor: the grant state machine, gate transitions, the approved
 * file scope and the audit log, as a specification on values and as the class that
 * updates its fields in place. Events come from the trusted issuer (brands are not modelled).
 */
module OwnerEvents {
  import opened Common
  import opened Policy

  datatype AuditEvent =
    | GateInit(gate: Gate)
    | AuthorityGranted(token: Token, grant: GrantId)
    | GateTransition(from: Gate, to: Gate)
    | FileScopeSet(files: nat)
    | AuthorityRevoked(token: Token, grant: GrantId)
    | GrantUsedMulti(grant: GrantId, action: ActionId)
    | GrantReserved(grant: GrantId, action: ActionId)
    | GrantConsumed(grant: GrantId, action: ActionId)
    | GrantReleased(grant: GrantId, action: ActionId)
    | GrantReconciliation(grant: GrantId, action: ActionId)

  datatype GrantError = TaskMismatch | TransitionNotPermitted | GrantNotFound | GrantState

  datatype Authority = Authority(ctx: Context, audit: seq<AuditEvent>)

  /** The fields of a sealed owner authority event that the processor reads. */
  datatype OwnerEvent = OwnerEvent(
    eventId: GrantId, taskId: string, token: Token, boundToGate: Option<Gate>, boundToAction: ActionBinding)

  datatype Op =
    | ApplyEvent(event: OwnerEvent)
    | Transition(taskId: string, from: Gate, to: Gate)
    | SetScope(taskId: string, files: seq<string>)
    | Revoke(token: Token)
    | ReserveGrant(grant: GrantId, action: ActionId)
    | ConsumeGrant(grant: GrantId, action: ActionId)
    | ReleaseGrant(grant: GrantId, action: ActionId)
    | Reconcile(grant: GrantId, action: ActionId)

  /** GATE_TRANSITION_POLICY: the token a listed transition needs, None when the pair is not listed. */
  function TransitionRule(from: Gate, to: Gate): Option<Option<Token>> {
    match (from, to)
    case (Audit, Plan) => Some(None)
    case (Plan, OwnerPlanReview) => Some(None)
    case (OwnerPlanReview, Implementation) => Some(Some(ImplementationApproved))
    case (Implementation, Test) => Some(None)
    case (Test, OwnerPrecommit) => Some(None)
    case (OwnerPrecommit, Commit) => Some(Some(CommitApproved))
    case (Commit, Push) => Some(Some(PushApproved))
    case (Push, Deploy) => Some(Some(DeployApproved))
    case (Deploy, ProductionValidation) => Some(None)
    case (ProductionValidation, OwnerFinalClosure) => Some(None)
    case (Push, ProductionValidationReadOnly) => Some(None)
    case (ProductionValidation, ProductionValidationReadOnly) => Some(None)
    case (ProductionValidationReadOnly, OwnerFinalClosure) => Some(None)
    case _ => None
  }

  predicate HasActiveGrant(grants: map<GrantId, Grant>, t: Token) {
    exists id | id in grants :: grants[id].token == t && grants[id].status == Active
  }

  predicate Revocable(a: Grant, t: Token) {
    a.token == t && a.status in {Active, Reserved, Issued}
  }

  function FirstRevocable(grants: map<GrantId, Grant>, ids: seq<GrantId>, t: Token): Option<GrantId> {
    if ids == [] then None
    else if ids[0] in grants && Revocable(grants[ids[0]], t) then Some(ids[0])
    else FirstRevocable(grants, ids[1..], t)
  }

  function Init(taskId: string, gate: Gate): Authority {
    Authority(Context(taskId, gate, map[], [], {}), [GateInit(gate)])
  }

  function PutGrant(s: Authority, id: GrantId, a: Grant, e: AuditEvent): Authority {
    Authority(s.ctx.(grants := s.ctx.grants[id := a]), s.audit + [e])
  }

  function GrantOf(e: OwnerEvent): Grant {
    Grant(e.token, e.taskId, Active, None, e.boundToGate, e.boundToAction)
  }

  /** One call on the processor: its new state, or the error it throws with nothing changed. */
  function Perform(s: Authority, op: Op): Result<Authority, GrantError> {
    match op
    case ApplyEvent(e) =>
      if e.taskId != s.ctx.taskId then Err(TaskMismatch)
      else
        var order := if e.eventId in s.ctx.grants then s.ctx.order else s.ctx.order + [e.eventId];
        Ok(Authority(s.ctx.(grants := s.ctx.grants[e.eventId := GrantOf(e)], order := order),
                     s.audit + [AuthorityGranted(e.token, e.eventId)]))
    case Transition(taskId, from, to) =>
      var rule := TransitionRule(from, to);
      if taskId != s.ctx.taskId then Err(TaskMismatch)
      else if rule.None? || from != s.ctx.gate then Err(TransitionNotPermitted)
      else if rule.value.Some? && !HasActiveGrant(s.ctx.grants, rule.value.value) then Err(TransitionNotPermitted)
      else Ok(Authority(s.ctx.(gate := to), s.audit + [GateTransition(from, to)]))
    case SetScope(taskId, files) =>
      if taskId != s.ctx.taskId then Err(TaskMismatch)
      else Ok(Authority(s.ctx.(approvedFiles := set f | f in files), s.audit + [FileScopeSet(|files|)]))
    case Revoke(t) =>
      var id := FirstRevocable(s.ctx.grants, s.ctx.order, t);
      if id.None? || id.value !in s.ctx.grants then Ok(s)
      else Ok(PutGrant(s, id.value, s.ctx.grants[id.value].(status := Consumed), AuthorityRevoked(t, id.value)))
    case ReserveGrant(id, a) =>
      if id !in s.ctx.grants then Err(GrantNotFound)
      else
        var g := s.ctx.grants[id];
        if g.token == ImplementationApproved then Ok(s.(audit := s.audit + [GrantUsedMulti(id, a)]))
        else if g.status != Active then Err(GrantState)
        else Ok(PutGrant(s, id, g.(status := Reserved, reservedFor := Some(a)), GrantReserved(id, a)))
    case ConsumeGrant(id, a) =>
      if id !in s.ctx.grants then Err(GrantNotFound)
      else
        var g := s.ctx.grants[id];
        if g.token == ImplementationApproved then Ok(s)
        else if g.status != Reserved || g.reservedFor != Some(a) then Err(GrantState)
        else Ok(PutGrant(s, id, g.(status := Consumed), GrantConsumed(id, a)))
    case ReleaseGrant(id, a) =>
      if id !in s.ctx.grants then Err(GrantNotFound)
      else
        var g := s.ctx.grants[id];
        if g.token == ImplementationApproved then Ok(s)
        else Ok(PutGrant(s, id, g.(status := Active, reservedFor := None), GrantReleased(id, a)))
    case Reconcile(id, a) =>
      if id !in s.ctx.grants then Err(GrantNotFound)
      else
        var g := s.ctx.grants[id];
        if g.token == ImplementationApproved then Ok(s)
        else Ok(PutGrant(s, id, g.(status := ReconciliationRequired), GrantReconciliation(id, a)))
  }

  /** A call that throws leaves the processor as it was. */
  function After(s: Authority, op: Op): Authority {
    match Perform(s, op) case Ok(t) => t case Err(_) => s
  }

  // ---------------------------------------------------------------- the class

  ghost predicate Follows(before: Authority, op: Op, after: Authority, r: Result<(), GrantError>) {
    match Perform(before, op)
    case Ok(s) => r == Ok(()) && after == s
    case Err(e) => r == Err(e) && after == before
  }

  class OwnerEventProcessor {
    const taskId: string
    var gate: Gate
    var grants: map<GrantId, Grant>
    var order: seq<GrantId>
    var approvedFiles: set<string>
    var auditLog: seq<AuditEvent>

    function View(): Context
      reads this
    {
      Context(taskId, gate, grants, order, approvedFiles)
    }

    function State(): Authority
      reads this
    {
      Authority(View(), auditLog)
    }

    constructor (taskId: string, initialGate: Gate)
      ensures State() == Init(taskId, initialGate)
    {
      this.taskId := taskId;
      gate := initialGate;
      grants := map[];
      order := [];
      approvedFiles := {};
      auditLog := [GateInit(initialGate)];
    }

    method ApplyOwnerAuthorityEvent(event: OwnerEvent) returns (r: Result<(), GrantError>)
      modifies this
      ensures Follows(old(State()), ApplyEvent(event), State(), r)
    {
      if event.taskId != taskId { return Err(TaskMismatch); }
      if event.eventId !in grants { order := order + [event.eventId]; }
      grants := grants[event.eventId := GrantOf(event)];
      auditLog := auditLog + [AuthorityGranted(event.token, event.eventId)];
      return Ok(());
    }

    method TransitionGateFromEvent(eventTask: string, from: Gate, to: Gate) returns (r: Result<(), GrantError>)
      modifies this
      ensures Follows(old(State()), Transition(eventTask, from, to), State(), r)
      ensures r.Ok? <==> eventTask == taskId && from == old(gate) && MayPass(old(State()), to)
    {
      RuleIsWay(State(), to);
      if eventTask != taskId { return Err(TaskMismatch); }
      var rule := TransitionRule(from, to);
      if rule.None? { return Err(TransitionNotPermitted); }
      if from != gate { return Err(TransitionNotPermitted); }
      if rule.value.Some? && !HasActiveGrant(grants, rule.value.value) { return Err(TransitionNotPermitted); }
      var previous := gate;
      gate := to;
      auditLog := auditLog + [GateTransition(previous, gate)];
      return Ok(());
    }

    method SetApprovedScopeFromPlan(eventTask: string, files: seq<string>) returns (r: Result<(), GrantError>)
      modifies this
      ensures Follows(old(State()), SetScope(eventTask, files), State(), r)
    {
      if eventTask != taskId { return Err(TaskMismatch); }
      approvedFiles := {};
      for i := 0 to |files|
        invariant approvedFiles == set f | f in files[..i]
        invariant unchanged(`gate) && unchanged(`grants) && unchanged(`order) && unchanged(`auditLog)
      {
        approvedFiles := approvedFiles + {files[i]};
      }
      assert files[..|files|] == files;
      auditLog := auditLog + [FileScopeSet(|files|)];
      return Ok(());
    }

    method RevokeGrant(t: Token)
      modifies this
      ensures Perform(old(State()), Revoke(t)) == Ok(State())
    {
      for i := 0 to |order|
        invariant unchanged(this)
        invariant FirstRevocable(grants, order, t) == FirstRevocable(grants, order[i..], t)
      {
        var id := order[i];
        if id in grants && Revocable(grants[id], t) {
          grants := grants[id := grants[id].(status := Consumed)];
          auditLog := auditLog + [AuthorityRevoked(t, id)];
          return;
        }
      }
    }

    method Reserve(id: GrantId, action: ActionId) returns (r: Result<(), GrantError>)
      modifies this
      ensures Follows(old(State()), ReserveGrant(id, action), State(), r)
    {
      if id !in grants { return Err(GrantNotFound); }
      if grants[id].token == ImplementationApproved {
        auditLog := auditLog + [GrantUsedMulti(id, action)];
        return Ok(());
      }
      if grants[id].status != Active { return Err(GrantState); }
      grants := grants[id := grants[id].(status := Reserved, reservedFor := Some(action))];
      auditLog := auditLog + [GrantReserved(id, action)];
      return Ok(());
    }

    method Consume(id: GrantId, action: ActionId) returns (r: Result<(), GrantError>)
      modifies this
      ensures Follows(old(State()), ConsumeGrant(id, action), State(), r)
    {
      if id !in grants { return Err(GrantNotFound); }
      if grants[id].token == ImplementationApproved { return Ok(()); }
      if grants[id].status != Reserved || grants[id].reservedFor != Some(action) { return Err(GrantState); }
      grants := grants[id := grants[id].(status := Consumed)];
      auditLog := auditLog + [GrantConsumed(id, action)];
      return Ok(());
    }

    method ReleaseForRetry(id: GrantId, action: ActionId) returns (r: Result<(), GrantError>)
      modifies this
      ensures Follows(old(State()), ReleaseGrant(id, action), State(), r)
    {
      if id !in grants { return Err(GrantNotFound); }
      if grants[id].token == ImplementationApproved { return Ok(()); }
      grants := grants[id := grants[id].(status := Active, reservedFor := None)];
      auditLog := auditLog + [GrantReleased(id, action)];
      return Ok(());
    }

    method RequireReconciliation(id: GrantId, action: ActionId) returns (r: Result<(), GrantError>)
      modifies this
      ensures Follows(old(State()), Reconcile(id, action), State(), r)
    {
      if id !in grants { return Err(GrantNotFound); }
      if grants[id].token == ImplementationApproved { return Ok(()); }
      grants := grants[id := grants[id].(status := ReconciliationRequired)];
      auditLog := auditLog + [GrantReconciliation(id, action)];
      return Ok(());
    }
  }

  // ---------------------------------------------------------------- the audit log is a full record

  /** What a reader of the audit log alone can reconstruct. */
  datatype Reading = Reading(gate: Gate, statuses: map<GrantId, GrantStatus>)

  function ReadEvent(r: Reading, e: AuditEvent): Reading {
    match e
    case GateInit(g) => r.(gate := g)
    case GateTransition(_, to) => r.(gate := to)
    case AuthorityGranted(_, id) => r.(statuses := r.statuses[id := Active])
    case AuthorityRevoked(_, id) => r.(statuses := r.statuses[id := Consumed])
    case GrantReserved(id, _) => r.(statuses := r.statuses[id := Reserved])
    case GrantConsumed(id, _) => r.(statuses := r.statuses[id := Consumed])
    case GrantReleased(id, _) => r.(statuses := r.statuses[id := Active])
    case GrantReconciliation(id, _) => r.(statuses := r.statuses[id := ReconciliationRequired])
    case FileScopeSet(_) => r
    case GrantUsedMulti(_, _) => r
  }

  function ReadAudit(log: seq<AuditEvent>): Reading {
    if log == [] then Reading(Audit, map[]) else ReadEvent(ReadAudit(log[..|log| - 1]), log[|log| - 1])
  }

  function Statuses(grants: map<GrantId, Grant>): map<GrantId, GrantStatus> {
    map id | id in grants :: grants[id].status
  }

  function RunOps(s: Authority, ops: seq<Op>): Authority
    decreases |ops|
  {
    if ops == [] then s else RunOps(After(s, ops[0]), ops[1..])
  }

  ghost predicate AuditFaithful(s: Authority) {
    ReadAudit(s.audit) == Reading(s.ctx.gate, Statuses(s.ctx.grants))
  }

  /** Over every sequence of owner and gateway calls, the audit log alone yields the gate and every grant's status. */
  lemma AuditDeterminesState(taskId: string, gate: Gate, ops: seq<Op>)
    ensures AuditFaithful(RunOps(Init(taskId, gate), ops))
  {
    assert ReadAudit([GateInit(gate)]) == ReadEvent(ReadAudit([]), GateInit(gate));
    AuditStaysFaithful(Init(taskId, gate), ops);
  }

  lemma ReadAppend(log: seq<AuditEvent>, e: AuditEvent)
    ensures ReadAudit(log + [e]) == ReadEvent(ReadAudit(log), e)
  {
    assert (log + [e])[..|log|] == log;
  }

  lemma StatusesUpdate(grants: map<GrantId, Grant>, id: GrantId, a: Grant)
    ensures Statuses(grants[id := a]) == Statuses(grants)[id := a.status]
  {}

  lemma PutStaysFaithful(s: Authority, id: GrantId, a: Grant, e: AuditEvent)
    requires AuditFaithful(s)
    requires ReadEvent(ReadAudit(s.audit), e) ==
      ReadAudit(s.audit).(statuses := ReadAudit(s.audit).statuses[id := a.status])
    ensures AuditFaithful(PutGrant(s, id, a, e))
  {
    ReadAppend(s.audit, e);
    StatusesUpdate(s.ctx.grants, id, a);
  }

  lemma OwnerCallStaysFaithful(s: Authority, op: Op)
    requires AuditFaithful(s)
    requires op.ApplyEvent? || op.Transition? || op.SetScope? || op.Revoke?
    ensures AuditFaithful(After(s, op))
  {
    match op
    case ApplyEvent(v) => PutStaysFaithful(s, v.eventId, GrantOf(v), AuthorityGranted(v.token, v.eventId));
    case Transition(_, from, to) => ReadAppend(s.audit, GateTransition(from, to));
    case SetScope(_, files) => ReadAppend(s.audit, FileScopeSet(|files|));
    case Revoke(t) =>
      var id := FirstRevocable(s.ctx.grants, s.ctx.order, t);
      if id.Some? && id.value in s.ctx.grants {
        PutStaysFaithful(s, id.value, s.ctx.grants[id.value].(status := Consumed), AuthorityRevoked(t, id.value));
      }
  }

  lemma ReserveStaysFaithful(s: Authority, id: GrantId, a: ActionId)
    requires AuditFaithful(s)
    ensures AuditFaithful(After(s, ReserveGrant(id, a)))
  {
    if id in s.ctx.grants {
      ReadAppend(s.audit, GrantUsedMulti(id, a));
      PutStaysFaithful(s, id, s.ctx.grants[id].(status := Reserved, reservedFor := Some(a)), GrantReserved(id, a));
    }
  }

  lemma ConsumeStaysFaithful(s: Authority, id: GrantId, a: ActionId)
    requires AuditFaithful(s)
    ensures AuditFaithful(After(s, ConsumeGrant(id, a)))
  {
    if id in s.ctx.grants { PutStaysFaithful(s, id, s.ctx.grants[id].(status := Consumed), GrantConsumed(id, a)); }
  }

  lemma ReleaseStaysFaithful(s: Authority, id: GrantId, a: ActionId)
    requires AuditFaithful(s)
    ensures AuditFaithful(After(s, ReleaseGrant(id, a)))
  {
    if id in s.ctx.grants {
      PutStaysFaithful(s, id, s.ctx.grants[id].(status := Active, reservedFor := None), GrantReleased(id, a));
    }
  }

  lemma ReconcileStaysFaithful(s: Authority, id: GrantId, a: ActionId)
    requires AuditFaithful(s)
    ensures AuditFaithful(After(s, Reconcile(id, a)))
  {
    if id in s.ctx.grants {
      PutStaysFaithful(s, id, s.ctx.grants[id].(status := ReconciliationRequired), GrantReconciliation(id, a));
    }
  }

  lemma {:induction false} AuditStaysFaithful(s: Authority, ops: seq<Op>)
    requires AuditFaithful(s)
    ensures AuditFaithful(RunOps(s, ops))
    decreases |ops|
  {
    if ops != [] {
      match ops[0] {
        case ReserveGrant(id, a) => ReserveStaysFaithful(s, id, a);
        case ConsumeGrant(id, a) => ConsumeStaysFaithful(s, id, a);
        case ReleaseGrant(id, a) => ReleaseStaysFaithful(s, id, a);
        case Reconcile(id, a) => ReconcileStaysFaithful(s, id, a);
        case op => OwnerCallStaysFaithful(s, op);
      }
      AuditStaysFaithful(After(s, ops[0]), ops[1..]);
    }
  }

  // ---------------------------------------------------------------- the grant map and its order

  /** `order` lists exactly the granted ids, none twice, and every grant is for the context's own task. */
  ghost predicate ContextSound(ctx: Context) {
    && (forall id :: id in ctx.order <==> id in ctx.grants)
    && (forall i, j | 0 <= i < j < |ctx.order| :: ctx.order[i] != ctx.order[j])
    && (forall id | id in ctx.grants :: ctx.grants[id].taskId == ctx.taskId)
  }

  lemma CallKeepsContext(s: Authority, op: Op)
    requires ContextSound(s.ctx)
    ensures ContextSound(After(s, op).ctx) && After(s, op).ctx.taskId == s.ctx.taskId
  {
    if op.ApplyEvent? && op.event.eventId !in s.ctx.grants {
      assert forall i | 0 <= i < |s.ctx.order| :: s.ctx.order[i] in s.ctx.order;
    }
  }

  lemma {:induction false} RunKeepsContext(s: Authority, ops: seq<Op>)
    requires ContextSound(s.ctx)
    ensures ContextSound(RunOps(s, ops).ctx)
    decreases |ops|
  {
    if ops != [] {
      CallKeepsContext(s, ops[0]);
      RunKeepsContext(After(s, ops[0]), ops[1..]);
    }
  }

  /** Over every sequence of calls the insertion order covers the grant map and nothing else. */
  lemma OrderListsGrants(taskId: string, gate: Gate, ops: seq<Op>)
    ensures ContextSound(RunOps(Init(taskId, gate), ops).ctx)
  {
    RunKeepsContext(Init(taskId, gate), ops);
  }

  /** So after any calls the search along the order finds a matching grant whenever the map holds one. */
  lemma OrderHidesNoGrant(taskId: string, gate: Gate, ops: seq<Op>, reqTask: string, c: MutationClass)
    ensures var ctx := RunOps(Init(taskId, gate), ops).ctx; var t := RequiredToken(ctx.gate, c);
      HasMatchingGrant(ctx, reqTask, c) <==>
        (t.Some? ==> exists id | id in ctx.grants :: Matches(ctx.grants[id], t.value, c, ctx.gate, reqTask))
  {
    OrderListsGrants(taskId, gate, ops);
  }

  // ---------------------------------------------------------------- the way from gate to gate

  /** The processor after the first `k` calls. */
  function At(taskId: string, gate: Gate, ops: seq<Op>, k: nat): Authority
    requires k <= |ops|
  {
    RunOps(Init(taskId, gate), ops[..k])
  }

  lemma {:induction false} RunOpsSnoc(s: Authority, ops: seq<Op>, op: Op)
    ensures RunOps(s, ops + [op]) == After(RunOps(s, ops), op)
    decreases |ops|
  {
    if ops == [] {
      assert [] + [op] == [op] && [op][1..] == [];
      assert RunOps(s, [op]) == RunOps(After(s, op), []);
    } else {
      assert (ops + [op])[1..] == ops[1..] + [op];
      RunOpsSnoc(After(s, ops[0]), ops[1..], op);
    }
  }

  lemma AtNext(taskId: string, gate: Gate, ops: seq<Op>, k: nat)
    requires k < |ops|
    ensures At(taskId, gate, ops, k + 1) == After(At(taskId, gate, ops, k), ops[k])
  {
    assert ops[..k + 1] == ops[..k] + [ops[k]];
    RunOpsSnoc(Init(taskId, gate), ops[..k], ops[k]);
  }

  lemma {:induction false} TaskNeverChanges(taskId: string, gate: Gate, ops: seq<Op>, k: nat)
    requires k <= |ops|
    ensures At(taskId, gate, ops, k).ctx.taskId == taskId
    decreases k
  {
    if k > 0 {
      TaskNeverChanges(taskId, gate, ops, k - 1);
      AtNext(taskId, gate, ops, k - 1);
    }
  }

  /** A way between gates that only an owner's token opens. */
  datatype Guard = Guard(from: Gate, to: Gate, token: Token)

  const GUARDS: set<Guard> := {
    Guard(OwnerPlanReview, Implementation, ImplementationApproved), Guard(OwnerPrecommit, Commit, CommitApproved),
    Guard(Commit, Push, PushApproved), Guard(Push, Deploy, DeployApproved)
  }

  const OPEN_WAYS: set<(Gate, Gate)> := {
    (Audit, Plan), (Plan, OwnerPlanReview), (Implementation, Test), (Test, OwnerPrecommit),
    (Deploy, ProductionValidation), (ProductionValidation, OwnerFinalClosure), (Push, ProductionValidationReadOnly),
    (ProductionValidation, ProductionValidationReadOnly), (ProductionValidationReadOnly, OwnerFinalClosure)
  }

  /** An ACTIVE grant of the token, whatever gate and action it is bound to. */
  predicate Held(s: Authority, t: Token) {
    exists id | id in s.ctx.grants :: s.ctx.grants[id].token == t && s.ctx.grants[id].status == Active
  }

  /** A gate may be left for another along an open way, or along a guarded one while its token is held. */
  predicate MayPass(s: Authority, to: Gate) {
    (s.ctx.gate, to) in OPEN_WAYS || exists g | g in GUARDS :: g.from == s.ctx.gate && g.to == to && Held(s, g.token)
  }

  lemma RuleIsWay(s: Authority, to: Gate)
    ensures MayPass(s, to) <==>
      var rule := TransitionRule(s.ctx.gate, to);
      rule.Some? && (rule.value.Some? ==> HasActiveGrant(s.ctx.grants, rule.value.value))
  {
    var rule := TransitionRule(s.ctx.gate, to);
    if rule.Some? && rule.value.Some? {
      assert Guard(s.ctx.gate, to, rule.value.value) in GUARDS;
    }
  }

  lemma MoveNeedsTransition(s: Authority, op: Op)
    ensures After(s, op).ctx.gate != s.ctx.gate ==> op.Transition? && After(s, op).ctx.gate == op.to
  {
  }

  lemma NoWayLeadsBack(s: Authority)
    ensures !MayPass(s, s.ctx.gate)
  {
  }

  /**
   * At every moment of every run: the gate moves with the next call if and only if that is a transition event of this
   * task, out of the current gate, along an open way or along a guarded one whose token is held.
   */
  lemma GateMovesIff(taskId: string, gate: Gate, ops: seq<Op>, k: nat, to: Gate)
    requires k < |ops|
    ensures var s := At(taskId, gate, ops, k);
      s.ctx.gate != At(taskId, gate, ops, k + 1).ctx.gate == to <==>
        ops[k] == Transition(taskId, s.ctx.gate, to) && MayPass(s, to)
  {
    var s := At(taskId, gate, ops, k);
    AtNext(taskId, gate, ops, k);
    TaskNeverChanges(taskId, gate, ops, k);
    RuleIsWay(s, to);
    NoWayLeadsBack(s);
    MoveNeedsTransition(s, ops[k]);
  }

  /** How far along a gate lies. */
  function Rank(g: Gate): nat {
    match g
    case Audit => 0 case Plan => 1 case OwnerPlanReview => 2 case Implementation => 3 case Test => 4
    case OwnerPrecommit => 5 case Commit => 6 case Push => 7 case Deploy => 8 case ProductionValidation => 9
    case ProductionValidationReadOnly => 10 case OwnerFinalClosure => 11
  }

  lemma RankSteps(taskId: string, gate: Gate, ops: seq<Op>, k: nat)
    requires k < |ops|
    ensures var before, after := At(taskId, gate, ops, k).ctx.gate, At(taskId, gate, ops, k + 1).ctx.gate;
      before == after || Rank(before) < Rank(after)
  {
    GateMovesIff(taskId, gate, ops, k, At(taskId, gate, ops, k + 1).ctx.gate);
  }

  lemma {:induction false} RankGrows(taskId: string, gate: Gate, ops: seq<Op>, i: nat, j: nat)
    requires i <= j <= |ops|
    ensures Rank(At(taskId, gate, ops, i).ctx.gate) <= Rank(At(taskId, gate, ops, j).ctx.gate)
    decreases j - i
  {
    if i < j {
      RankSteps(taskId, gate, ops, i);
      RankGrows(taskId, gate, ops, i + 1, j);
    }
  }

  lemma RankIsInjective(g: Gate, h: Gate)
    ensures Rank(g) == Rank(h) <==> g == h
  {
    match g { case _ => match h { case _ => } }
  }

  /** A gate once left is never the current gate again. */
  lemma GateNeverReturns(taskId: string, gate: Gate, ops: seq<Op>, i: nat, j: nat, k: nat)
    requires i <= j <= k <= |ops|
    requires At(taskId, gate, ops, i).ctx.gate == At(taskId, gate, ops, k).ctx.gate
    ensures At(taskId, gate, ops, j).ctx.gate == At(taskId, gate, ops, i).ctx.gate
  {
    RankGrows(taskId, gate, ops, i, j);
    RankGrows(taskId, gate, ops, j, k);
    RankIsInjective(At(taskId, gate, ops, i).ctx.gate, At(taskId, gate, ops, j).ctx.gate);
  }

  // ---------------------------------------------------------------- where grants come from

  /** The owner event that the grant stands for is among the first `n` calls. */
  predicate IssuedBefore(taskId: string, ops: seq<Op>, n: nat, id: GrantId, g: Grant) {
    exists i | 0 <= i < n && i < |ops| ::
      ops[i].ApplyEvent? && ops[i].event == OwnerEvent(id, taskId, g.token, g.boundToGate, g.boundToAction)
  }

  lemma GrantIsOldOrApplied(s: Authority, op: Op, id: GrantId)
    requires id in After(s, op).ctx.grants
    ensures var g := After(s, op).ctx.grants[id];
      || (op.ApplyEvent? && op.event == OwnerEvent(id, s.ctx.taskId, g.token, g.boundToGate, g.boundToAction))
      || (id in s.ctx.grants && s.ctx.grants[id].token == g.token && s.ctx.grants[id].boundToGate == g.boundToGate
          && s.ctx.grants[id].boundToAction == g.boundToAction)
  {
  }

  /** No grant exists but by an owner event for this task with its token and its bindings. */
  lemma {:induction false} GrantsComeFromEvents(taskId: string, gate: Gate, ops: seq<Op>, n: nat, id: GrantId)
    requires n <= |ops| && id in At(taskId, gate, ops, n).ctx.grants
    ensures IssuedBefore(taskId, ops, n, id, At(taskId, gate, ops, n).ctx.grants[id])
    decreases n
  {
    if n > 0 {
      var s := At(taskId, gate, ops, n - 1);
      AtNext(taskId, gate, ops, n - 1);
      TaskNeverChanges(taskId, gate, ops, n - 1);
      GrantIsOldOrApplied(s, ops[n - 1], id);
      if id in s.ctx.grants { GrantsComeFromEvents(taskId, gate, ops, n - 1, id); }
    }
  }

  /** The guard lies behind the gate: every way there leads through it. */
  predicate Behind(guard: Guard, g: Gate) {
    if guard.to == Deploy then g == Deploy || g == ProductionValidation else Rank(guard.to) <= Rank(g)
  }

  /** The call at `j` passes the guard, under an owner event applied before. */
  predicate PassesAt(taskId: string, ops: seq<Op>, guard: Guard, j: nat) {
    j < |ops| && ops[j] == Transition(taskId, guard.from, guard.to)
    && exists i | 0 <= i < j :: ops[i].ApplyEvent? && ops[i].event.token == guard.token && ops[i].event.taskId == taskId
  }

  lemma CrossingPasses(taskId: string, gate: Gate, ops: seq<Op>, guard: Guard, j: nat)
    requires guard in GUARDS && j < |ops|
    requires !Behind(guard, At(taskId, gate, ops, j).ctx.gate) && Behind(guard, At(taskId, gate, ops, j + 1).ctx.gate)
    requires Rank(At(taskId, gate, ops, j).ctx.gate) < Rank(guard.to)
    ensures PassesAt(taskId, ops, guard, j)
  {
    var s, to := At(taskId, gate, ops, j), At(taskId, gate, ops, j + 1).ctx.gate;
    GateMovesIff(taskId, gate, ops, j, to);
    OnlyWayIsGuarded(s, to, guard);
    var id :| id in s.ctx.grants && s.ctx.grants[id].token == guard.token && s.ctx.grants[id].status == Active;
    GrantsComeFromEvents(taskId, gate, ops, j, id);
  }

  lemma OnlyWayIsGuarded(s: Authority, to: Gate, guard: Guard)
    requires guard in GUARDS && MayPass(s, to) && !Behind(guard, s.ctx.gate) && Behind(guard, to)
    requires Rank(s.ctx.gate) < Rank(guard.to)
    ensures guard.from == s.ctx.gate && guard.to == to && Held(s, guard.token)
  {
    if (s.ctx.gate, to) !in OPEN_WAYS {
      var g :| g in GUARDS && g.from == s.ctx.gate && g.to == to && Held(s, g.token);
      assert g == guard;
    }
  }

  lemma StillBefore(s: Authority, to: Gate, guard: Guard)
    requires guard in GUARDS && MayPass(s, to) && !Behind(guard, s.ctx.gate) && Behind(guard, to)
    ensures Rank(s.ctx.gate) < Rank(guard.to)
  {
  }

  /**
   * Whoever starts before a guarded gate and stands behind it has passed its guard, and the owner had issued the
   * guard's token for this task before.
   */
  lemma {:induction false} GuardsWerePassed(taskId: string, gate: Gate, ops: seq<Op>, n: nat, guard: Guard)
    requires guard in GUARDS && n <= |ops|
    requires Rank(gate) < Rank(guard.to) && Behind(guard, At(taskId, gate, ops, n).ctx.gate)
    ensures exists j | 0 <= j < n :: PassesAt(taskId, ops, guard, j)
    decreases n
  {
    assert At(taskId, gate, ops, 0).ctx.gate == gate;
    var s := At(taskId, gate, ops, n - 1);
    if Behind(guard, s.ctx.gate) {
      GuardsWerePassed(taskId, gate, ops, n - 1, guard);
    } else {
      GateMovesIff(taskId, gate, ops, n - 1, At(taskId, gate, ops, n).ctx.gate);
      StillBefore(s, At(taskId, gate, ops, n).ctx.gate, guard);
      CrossingPasses(taskId, gate, ops, guard, n - 1);
    }
  }

  // ---------------------------------------------------------------- the life of a grant

  predicate Applies(op: Op, taskId: string, id: GrantId) {
    op.ApplyEvent? && op.event.eventId == id && op.event.taskId == taskId
  }

  /** The owner's revocation reaches this grant: none earlier in the insertion order can be revoked instead. */
  predicate RevokedNext(s: Authority, id: GrantId, t: Token) {
    exists n | 0 <= n < |s.ctx.order| && s.ctx.order[n] == id :: FirstToRevoke(s, s.ctx.order, n, t)
  }

  predicate FirstToRevoke(s: Authority, ids: seq<GrantId>, n: nat, t: Token)
    requires n < |ids|
  {
    CanRevoke(s, ids[n], t) && forall m | 0 <= m < n :: !CanRevoke(s, ids[m], t)
  }

  predicate CanRevoke(s: Authority, id: GrantId, t: Token) {
    id in s.ctx.grants && s.ctx.grants[id].token == t
      && s.ctx.grants[id].status != Consumed && s.ctx.grants[id].status != ReconciliationRequired
  }

  lemma {:induction false} FirstRevocableIs(s: Authority, ids: seq<GrantId>, t: Token)
    ensures var r := FirstRevocable(s.ctx.grants, ids, t);
      && (r.Some? ==> exists n | 0 <= n < |ids| && ids[n] == r.value :: FirstToRevoke(s, ids, n, t))
      && (r.None? ==> forall m | 0 <= m < |ids| :: !CanRevoke(s, ids[m], t))
  {
    if ids != [] && !CanRevoke(s, ids[0], t) {
      FirstRevocableIs(s, ids[1..], t);
      var r := FirstRevocable(s.ctx.grants, ids[1..], t);
      if r.Some? {
        var n :| 0 <= n < |ids[1..]| && ids[1..][n] == r.value && FirstToRevoke(s, ids[1..], n, t);
        assert ids[n + 1] == r.value && forall m | 1 <= m < n + 1 :: ids[m] == ids[1..][m - 1];
        assert FirstToRevoke(s, ids, n + 1, t);
      } else {
        assert forall m | 1 <= m < |ids| :: ids[m] == ids[1..][m - 1];
      }
    }
  }

  lemma RevokeReaches(s: Authority, id: GrantId, t: Token)
    requires ContextSound(s.ctx) && id in s.ctx.grants
    ensures var s' := After(s, Revoke(t));
      id in s'.ctx.grants &&
      s'.ctx.grants[id] == if RevokedNext(s, id, t) then s.ctx.grants[id].(status := Consumed) else s.ctx.grants[id]
  {
    FirstRevocableIs(s, s.ctx.order, t);
    if RevokedNext(s, id, t) {
      var n :| 0 <= n < |s.ctx.order| && s.ctx.order[n] == id && FirstToRevoke(s, s.ctx.order, n, t);
      assert CanRevoke(s, s.ctx.order[n], t);
    }
  }

  /** The call moves the grant to a status it is not in. */
  predicate MovesStatus(s: Authority, op: Op, id: GrantId, to: GrantStatus)
    requires id in s.ctx.grants
  {
    var g := s.ctx.grants[id];
    var single := g.token != ImplementationApproved;
    match to
    case Issued => false
    case Active =>
      g.status != Active && (Applies(op, s.ctx.taskId, id) || (single && op.ReleaseGrant? && op.grant == id))
    case Reserved => g.status == Active && single && op.ReserveGrant? && op.grant == id
    case Consumed =>
      || (g.status == Reserved && single && g.reservedFor.Some? && op == ConsumeGrant(id, g.reservedFor.value))
      || (op.Revoke? && RevokedNext(s, id, op.token))
    case ReconciliationRequired => g.status != ReconciliationRequired && single && op.Reconcile? && op.grant == id
  }

  lemma StatusMovesIff(s: Authority, op: Op, id: GrantId, to: GrantStatus)
    requires ContextSound(s.ctx) && id in s.ctx.grants
    ensures id in After(s, op).ctx.grants
    ensures s.ctx.grants[id].status != After(s, op).ctx.grants[id].status == to <==> MovesStatus(s, op, id, to)
    ensures MovesStatus(s, op, id, Reserved) ==> After(s, op).ctx.grants[id].reservedFor == Some(op.action)
    ensures s.ctx.grants[id].status == After(s, op).ctx.grants[id].status == Reserved ==>
      After(s, op).ctx.grants[id].reservedFor == s.ctx.grants[id].reservedFor
  {
    if op.Revoke? { RevokeReaches(s, id, op.token); }
  }

  /**
   * The grant state machine at every moment of every run: exactly when a grant becomes ACTIVE, RESERVED, CONSUMED or
   * RECONCILIATION_REQUIRED with the next call. It is consumed only by the action that it is reserved for, or revoked,
   * and no grant for implementation ever leaves ACTIVE but by a revocation.
   */
  lemma GrantMovesIff(taskId: string, gate: Gate, ops: seq<Op>, k: nat, id: GrantId, to: GrantStatus)
    requires k < |ops| && id in At(taskId, gate, ops, k).ctx.grants
    ensures var s, s' := At(taskId, gate, ops, k), At(taskId, gate, ops, k + 1);
      id in s'.ctx.grants &&
      (s.ctx.grants[id].status != s'.ctx.grants[id].status == to <==> MovesStatus(s, ops[k], id, to))
  {
    AtNext(taskId, gate, ops, k);
    OrderListsGrants(taskId, gate, ops[..k]);
    StatusMovesIff(At(taskId, gate, ops, k), ops[k], id, to);
  }

  /** From `j` on, up to and including `n`, the grant is reserved for the action. */
  predicate ReservedThroughout(
    taskId: string, gate: Gate, ops: seq<Op>, id: GrantId, a: ActionId, j: nat, n: nat)
    requires n <= |ops|
  {
    forall i | j <= i <= n ::
      var s := At(taskId, gate, ops, i);
      id in s.ctx.grants && s.ctx.grants[id].status == Reserved && s.ctx.grants[id].reservedFor == Some(a)
  }

  /** A reservation was asked for by the very action, found the grant ACTIVE, and has stood ever since. */
  lemma {:induction false} ReservedSince(taskId: string, gate: Gate, ops: seq<Op>, n: nat, id: GrantId)
    requires n <= |ops| && id in At(taskId, gate, ops, n).ctx.grants
    requires At(taskId, gate, ops, n).ctx.grants[id].status == Reserved
    ensures exists j, a: ActionId | 0 <= j < n && ops[j] == ReserveGrant(id, a) ::
      ReservedThroughout(taskId, gate, ops, id, a, j + 1, n)
    decreases n
  {
    if n > 0 {
      var s := At(taskId, gate, ops, n - 1);
      AtNext(taskId, gate, ops, n - 1);
      OrderListsGrants(taskId, gate, ops[..n - 1]);
      if id !in s.ctx.grants {
        GrantIsOldOrApplied(s, ops[n - 1], id);
      } else {
        StatusMovesIff(s, ops[n - 1], id, Reserved);
        if s.ctx.grants[id].status == Reserved {
          ReservedSince(taskId, gate, ops, n - 1, id);
          var j, a: ActionId :| 0 <= j < n - 1 && ops[j] == ReserveGrant(id, a)
            && ReservedThroughout(taskId, gate, ops, id, a, j + 1, n - 1);
          assert ReservedThroughout(taskId, gate, ops, id, a, j + 1, n) by {
            assert At(taskId, gate, ops, n - 1).ctx.grants[id].reservedFor == Some(a);
          }
        } else {
          assert ReservedThroughout(taskId, gate, ops, id, ops[n - 1].action, n, n);
        }
      }
    }
  }

  /**
   * A single-use grant is used up only by the action that reserved it, and between the reservation and the use it was
   * that action's alone.
   */
  lemma UsedByItsReserver(taskId: string, gate: Gate, ops: seq<Op>, k: nat, id: GrantId, a: ActionId)
    requires k < |ops| && ops[k] == ConsumeGrant(id, a) && id in At(taskId, gate, ops, k).ctx.grants
    requires At(taskId, gate, ops, k).ctx.grants[id].status != Consumed
    requires id in At(taskId, gate, ops, k + 1).ctx.grants
      && At(taskId, gate, ops, k + 1).ctx.grants[id].status == Consumed
    ensures exists j | 0 <= j < k && ops[j] == ReserveGrant(id, a) ::
      ReservedThroughout(taskId, gate, ops, id, a, j + 1, k)
  {
    GrantMovesIff(taskId, gate, ops, k, id, Consumed);
    ReservedSince(taskId, gate, ops, k, id);
    var j, b: ActionId :| 0 <= j < k && ops[j] == ReserveGrant(id, b)
      && ReservedThroughout(taskId, gate, ops, id, b, j + 1, k);
    assert At(taskId, gate, ops, k).ctx.grants[id].reservedFor == Some(b);
  }

  // ---------------------------------------------------------------- what is logged

  /** The entry says what the call did, to which grant and for which action. */
  predicate Tells(s: Authority, op: Op, e: AuditEvent) {
    match op
    case ApplyEvent(v) => e == AuthorityGranted(v.token, v.eventId)
    case Transition(_, from, to) => e == GateTransition(from, to)
    case SetScope(_, files) => e == FileScopeSet(|files|)
    case Revoke(t) => exists id | id in s.ctx.grants && CanRevoke(s, id, t) :: e == AuthorityRevoked(t, id)
    case ReserveGrant(id, a) =>
      id in s.ctx.grants &&
      e == if s.ctx.grants[id].token == ImplementationApproved then GrantUsedMulti(id, a) else GrantReserved(id, a)
    case ConsumeGrant(id, a) => e == GrantConsumed(id, a)
    case ReleaseGrant(id, a) => e == GrantReleased(id, a)
    case Reconcile(id, a) => e == GrantReconciliation(id, a)
  }

  /** Every accepted call of these kinds leaves a trace; of the others, those that change a grant. */
  predicate AlwaysLogged(op: Op) { op.ApplyEvent? || op.Transition? || op.SetScope? || op.ReserveGrant? }

  lemma CallIsLogged(s: Authority, op: Op)
    ensures var s' := After(s, op);
      && (s'.audit == s.audit ==> s'.ctx == s.ctx && (AlwaysLogged(op) ==> Perform(s, op).Err?))
      && (s'.audit != s.audit ==>
            && Perform(s, op).Ok? && |s'.audit| == |s.audit| + 1 && s'.audit[..|s.audit|] == s.audit
            && Tells(s, op, s'.audit[|s.audit|]))
  {
    if op.Revoke? {
      FirstRevocableIs(s, s.ctx.order, op.token);
      var id := FirstRevocable(s.ctx.grants, s.ctx.order, op.token);
      if id.Some? { assert CanRevoke(s, id.value, op.token); }
    }
  }

  /**
   * At every moment of every run: the log is never rewritten, an entry tells what the call did, nothing changes without
   * one, and no event, transition, plan or reservation is accepted without one.
   */
  lemma NothingGoesUnlogged(taskId: string, gate: Gate, ops: seq<Op>, k: nat)
    requires k < |ops|
    ensures var s, s' := At(taskId, gate, ops, k), At(taskId, gate, ops, k + 1);
      && s.audit <= s'.audit && |s'.audit| <= |s.audit| + 1
      && (s'.audit == s.audit ==> s'.ctx == s.ctx && (AlwaysLogged(ops[k]) ==> Perform(s, ops[k]).Err?))
      && (s'.audit != s.audit ==> Perform(s, ops[k]).Ok? && Tells(s, ops[k], s'.audit[|s.audit|]))
  {
    AtNext(taskId, gate, ops, k);
    CallIsLogged(At(taskId, gate, ops, k), ops[k]);
  }

  // ---------------------------------------------------------------- why a call throws

  /** The task a control event is for, when the call carries one. */
  function TaskOf(op: Op): Option<string> {
    match op
    case ApplyEvent(e) => Some(e.taskId)
    case Transition(taskId, _, _) => Some(taskId)
    case SetScope(taskId, _) => Some(taskId)
    case _ => None
  }

  function GrantCalled(op: Op): Option<GrantId> {
    match op
    case ReserveGrant(id, _) => Some(id)
    case ConsumeGrant(id, _) => Some(id)
    case ReleaseGrant(id, _) => Some(id)
    case Reconcile(id, _) => Some(id)
    case _ => None
  }

  /**
   * Exactly when each error is thrown: for another task's event, for a transition that the gate and the held grants do
   * not permit, for an unknown grant, and for a grant that is not ACTIVE to reserve or not reserved for the action to
   * consume. A revocation never throws, nor does a release or a reconciliation of a known grant.
   */
  lemma ThrowsIff(s: Authority, op: Op)
    ensures Perform(s, op) == Err(TaskMismatch) <==> TaskOf(op).Some? && TaskOf(op) != Some(s.ctx.taskId)
    ensures Perform(s, op) == Err(TransitionNotPermitted) <==>
      op.Transition? && op.taskId == s.ctx.taskId && !(op.from == s.ctx.gate && MayPass(s, op.to))
    ensures Perform(s, op) == Err(GrantNotFound) <==>
      GrantCalled(op).Some? && GrantCalled(op).value !in s.ctx.grants
    ensures Perform(s, op) == Err(GrantState) <==>
      && GrantCalled(op).Some? && GrantCalled(op).value in s.ctx.grants
      && (var g := s.ctx.grants[GrantCalled(op).value];
          g.token != ImplementationApproved &&
          ((op.ReserveGrant? && g.status != Active) ||
           (op.ConsumeGrant? && !(g.status == Reserved && g.reservedFor == Some(op.action)))))
  {
    if op.Transition? { RuleIsWay(s, op.to); }
  }

  // ---------------------------------------------------------------- the approved scope

  predicate SetsScope(op: Op, taskId: string) { op.SetScope? && op.taskId == taskId }

  lemma ScopeAfter(s: Authority, op: Op)
    ensures After(s, op).ctx.approvedFiles ==
      if SetsScope(op, s.ctx.taskId) then set f | f in op.files else s.ctx.approvedFiles
  {
  }

  /** The approved files are those of the last plan approved for this task, none of an earlier one, and none without. */
  lemma {:induction false} ScopeIsTheLastPlan(taskId: string, gate: Gate, ops: seq<Op>, n: nat, f: string)
    requires n <= |ops|
    ensures f in At(taskId, gate, ops, n).ctx.approvedFiles <==>
      exists j | 0 <= j < n && SetsScope(ops[j], taskId) :: f in ops[j].files
        && forall i | j < i < n :: !SetsScope(ops[i], taskId)
    decreases n
  {
    if n > 0 {
      var s := At(taskId, gate, ops, n - 1);
      ScopeIsTheLastPlan(taskId, gate, ops, n - 1, f);
      AtNext(taskId, gate, ops, n - 1);
      TaskNeverChanges(taskId, gate, ops, n - 1);
      ScopeAfter(s, ops[n - 1]);
      if !SetsScope(ops[n - 1], taskId) && f in s.ctx.approvedFiles {
        var j :| 0 <= j < n - 1 && SetsScope(ops[j], taskId) && f in ops[j].files
          && forall i | j < i < n - 1 :: !SetsScope(ops[i], taskId);
        assert forall i | j < i < n :: !SetsScope(ops[i], taskId);
      }
    }
  }
}
