/**
 * The governed tool gateway: every `execute` call as the atomic steps between its awaits,
 * interleaved without restriction with other calls and with the owner's own operations.
 */
module Gateway {
  import opened Common
  import opened Policy
  import opened OwnerEvents

  /** How the adapter call ends. `Malformed` is a result that fails the result schema. */
  datatype Outcome = Succeeded | Cancelled | TimedOut | Failed | Denied | UnknownResult | Threw | Malformed

  datatype Reply =
    | AuditFailed | NotAllowed | ToolNotRegistered | GrantRejected | AdapterThrew | SchemaRejected
    | Reported(outcome: Outcome) | AuditLost

  datatype Phase = Proposing | Running | Recording(outcome: Outcome) | Closed(reply: Reply)

  datatype Action = Action(req: Request, decision: Decision, phase: Phase)

  datatype AdapterEvent =
    | Called(action: ActionId, grant: Option<GrantId>, classes: seq<MutationClass>)
    | Returned(action: ActionId, grant: Option<GrantId>, classes: seq<MutationClass>, outcome: Outcome)

  datatype World = World(authority: Authority, actions: map<ActionId, Action>, trace: seq<AdapterEvent>)

  datatype Step =
    | Owner(op: Op)
    | Propose(action: ActionId, req: Request)
    | ProposedRecorded(action: ActionId, ok: bool, adapterKnown: bool)
    | AdapterReturns(action: ActionId, outcome: Outcome)
    | ExecutedRecorded(action: ActionId, ok: bool)

  /** The event that issued a grant, as far as authority goes. */
  predicate IssuedBy(g: Grant, e: OwnerEvent) {
    g.token == e.token && g.boundToGate == e.boundToGate && g.boundToAction == e.boundToAction
  }

  /**
   * What the composition root may do: an issued event is applied, and applied again only while its grant
   * has neither an action in flight nor a settled one; grant calls belong to the gateway.
   */
  predicate OwnerMay(w: World, op: Op) {
    match op
    case ApplyEvent(e) =>
      e.eventId in w.authority.ctx.grants ==>
        IssuedBy(w.authority.ctx.grants[e.eventId], e) && Use(w.trace, e.eventId) == Idle
    case Transition(_, _, _) | SetScope(_, _) | Revoke(_) => true
    case _ => false
  }

  predicate InPhase(w: World, a: ActionId, p: Phase) { a in w.actions && w.actions[a].phase == p }

  function Put(w: World, a: ActionId, p: Phase): World
    requires a in w.actions
  {
    w.(actions := w.actions[a := w.actions[a].(phase := p)])
  }

  /** After a recorded proposal: deny, or reserve the named grant and call the adapter, in one uninterrupted stretch. */
  function Start(w: World, a: ActionId, adapterKnown: bool): World
    requires a in w.actions
  {
    var act := w.actions[a];
    if !act.decision.Allow? then Put(w, a, Closed(NotAllowed))
    else if !adapterKnown then Put(w, a, Closed(ToolNotRegistered))
    else
      var called := w.trace + [Called(a, act.decision.grant, act.req.classes)];
      if act.decision.grant.None? then Put(w.(trace := called), a, Running)
      else
        match Perform(w.authority, ReserveGrant(act.decision.grant.value, a))
        case Err(_) => Put(w, a, Closed(GrantRejected))
        case Ok(s) => Put(World(s, w.actions, called), a, Running)
  }

  /** The grant call made for each way the adapter can end. */
  function SettleOp(g: GrantId, a: ActionId, o: Outcome): Option<Op> {
    match o
    case Succeeded => Some(ConsumeGrant(g, a))
    case Cancelled => Some(ReleaseGrant(g, a))
    case Malformed => None
    case _ => Some(Reconcile(g, a))
  }

  function Settle(w: World, a: ActionId, o: Outcome): World
    requires a in w.actions && w.actions[a].decision.Allow?
  {
    var act := w.actions[a];
    var w' := w.(trace := w.trace + [Returned(a, act.decision.grant, act.req.classes, o)]);
    var next := if o == Threw then Closed(AdapterThrew) else if o == Malformed then Closed(SchemaRejected)
      else Recording(o);
    if act.decision.grant.None? || o == Malformed then Put(w', a, next)
    else
      match Perform(w.authority, SettleOp(act.decision.grant.value, a, o).value)
      case Err(_) => Put(w', a, Closed(GrantRejected))
      case Ok(s) => Put(w'.(authority := s), a, next)
  }

  function LoseAudit(w: World, a: ActionId): World
    requires a in w.actions && w.actions[a].decision.Allow?
  {
    var g := w.actions[a].decision.grant;
    var s := if g.Some? then After(w.authority, Reconcile(g.value, a)) else w.authority;
    Put(w.(authority := s), a, Closed(AuditLost))
  }

  /** One atomic step; a step that is not enabled changes nothing. */
  function Next(w: World, s: Step): World {
    match s
    case Owner(op) => if OwnerMay(w, op) then w.(authority := After(w.authority, op)) else w
    case Propose(a, req) =>
      if a in w.actions then w
      else w.(actions := w.actions[a := Action(req, Decide(w.authority.ctx, req), Proposing)])
    case ProposedRecorded(a, ok, known) =>
      if !InPhase(w, a, Proposing) then w
      else if !ok then Put(w, a, Closed(AuditFailed))
      else Start(w, a, known)
    case AdapterReturns(a, o) =>
      if InPhase(w, a, Running) && w.actions[a].decision.Allow? then Settle(w, a, o) else w
    case ExecutedRecorded(a, ok) =>
      if !(a in w.actions && w.actions[a].phase.Recording? && w.actions[a].decision.Allow?) then w
      else if ok then Put(w, a, Closed(Reported(w.actions[a].phase.outcome)))
      else LoseAudit(w, a)
  }

  function Run(w: World, steps: seq<Step>): World
    decreases |steps|
  {
    if steps == [] then w else Run(Next(w, steps[0]), steps[1..])
  }

  function Boot(taskId: string, gate: Gate): World { World(Init(taskId, gate), map[], []) }

  // ---------------------------------------------------------------- reading the adapter trace of one grant

  /** CALLED then RETURNED, over and over while the outcome is CANCELLED; after any other outcome, nothing. */
  datatype GrantUse = Idle | InFlight(action: ActionId) | Spent | Broken

  function UseAfter(u: GrantUse, e: AdapterEvent, g: GrantId): GrantUse {
    if e.grant != Some(g) then u
    else match e
      case Called(a, _, _) => if u == Idle then InFlight(a) else Broken
      case Returned(a, _, _, o) => if u != InFlight(a) then Broken else if o == Cancelled then Idle else Spent
  }

  function Use(trace: seq<AdapterEvent>, g: GrantId): GrantUse {
    if trace == [] then Idle else UseAfter(Use(trace[..|trace| - 1], g), trace[|trace| - 1], g)
  }

  lemma UseAppend(trace: seq<AdapterEvent>, e: AdapterEvent)
    ensures forall g :: Use(trace + [e], g) == UseAfter(Use(trace, g), e, g)
  {
    assert (trace + [e])[..|trace|] == trace;
  }

  // ---------------------------------------------------------------- the invariant

  const CONSUMING: set<MutationClass> := {GitCommit, GitPush, Deployment}

  predicate Names(act: Action, g: GrantId) { act.decision == Allow(Some(g)) }

  /** The grant an action names exists, is single-use, and is bound to every consuming class of the action. */
  ghost predicate DecisionSound(w: World, act: Action) {
    && (act.decision.Allow? ==> forall c | c in act.req.classes && c in CONSUMING :: act.decision.grant.Some?)
    && forall g | Names(act, g) ::
         && g in w.authority.ctx.grants && w.authority.ctx.grants[g].token != ImplementationApproved
         && forall c | c in act.req.classes && c in CONSUMING :: BoundTo(w.authority.ctx.grants[g], c)
  }

  /** A single-use grant that the next action could reserve. */
  predicate Reservable(w: World, g: GrantId) {
    && g in w.authority.ctx.grants
    && w.authority.ctx.grants[g].status == Active && w.authority.ctx.grants[g].token != ImplementationApproved
  }

  ghost predicate GrantsSound(w: World) {
    forall g :: && (g !in w.authority.ctx.grants ==> Use(w.trace, g) == Idle)
                && Use(w.trace, g) != Broken
                && (Reservable(w, g) ==> Use(w.trace, g) == Idle)
  }

  /** An action is unsettled under a grant exactly when the trace says it is in flight there. */
  ghost predicate FlightsSound(w: World) {
    forall a, g :: Use(w.trace, g) == InFlight(a) <==> InPhase(w, a, Running) && Names(w.actions[a], g)
  }

  ghost predicate EventSound(w: World, e: AdapterEvent) {
    forall c | c in e.classes && c in CONSUMING ::
      e.grant.Some? && e.grant.value in w.authority.ctx.grants && BoundTo(w.authority.ctx.grants[e.grant.value], c)
  }

  ghost predicate Inv(w: World) {
    && (forall a | a in w.actions :: DecisionSound(w, w.actions[a]))
    && GrantsSound(w)
    && FlightsSound(w)
    && (forall e | e in w.trace :: EventSound(w, e))
  }

  /** Token and binding of a grant never change, and no grant disappears. */
  ghost predicate GrantsPersist(s: Authority, t: Authority) {
    forall g | g in s.ctx.grants ::
      && g in t.ctx.grants && t.ctx.grants[g].token == s.ctx.grants[g].token
      && t.ctx.grants[g].boundToGate == s.ctx.grants[g].boundToGate
      && t.ctx.grants[g].boundToAction == s.ctx.grants[g].boundToAction
  }

  lemma PersistKeepsSound(w: World, w': World)
    requires GrantsPersist(w.authority, w'.authority)
    ensures forall act: Action | DecisionSound(w, act) :: DecisionSound(w', act)
    ensures forall e | EventSound(w, e) :: EventSound(w', e)
  {}

  /** An authority in which every reservable grant that was known before is idle keeps the invariant. */
  lemma AuthorityKeepsInv(w: World, s': Authority)
    requires Inv(w) && GrantsPersist(w.authority, s')
    requires forall g | Reservable(w.(authority := s'), g) && g in w.authority.ctx.grants :: Use(w.trace, g) == Idle
    ensures Inv(w.(authority := s'))
  {
    var w' := w.(authority := s');
    PersistKeepsSound(w, w');
    forall g
      ensures g !in w'.authority.ctx.grants ==> Use(w'.trace, g) == Idle
      ensures Use(w'.trace, g) != Broken
      ensures Reservable(w', g) ==> Use(w'.trace, g) == Idle
    {
      assert Use(w.trace, g) != Broken;
    }
  }

  lemma OwnerEffect(w: World, op: Op)
    requires OwnerMay(w, op)
    ensures GrantsPersist(w.authority, After(w.authority, op))
    ensures forall g | g in w.authority.ctx.grants && !(op.ApplyEvent? && op.event.eventId == g) ::
      After(w.authority, op).ctx.grants[g].status == Active ==> w.authority.ctx.grants[g].status == Active
  {
  }

  lemma OwnerKeepsInv(w: World, op: Op)
    requires Inv(w) && OwnerMay(w, op)
    ensures Inv(Next(w, Owner(op)))
  {
    var s' := After(w.authority, op);
    OwnerEffect(w, op);
    forall g | Reservable(w.(authority := s'), g) && g in w.authority.ctx.grants ensures Use(w.trace, g) == Idle {
      if !(op.ApplyEvent? && op.event.eventId == g) { assert Reservable(w, g); }
    }
    AuthorityKeepsInv(w, s');
  }

  /** A decision names only grants that exist, are single-use and are bound to every consuming class. */
  lemma DecideIsSound(w: World, req: Request)
    ensures DecisionSound(w, Action(req, Decide(w.authority.ctx, req), Proposing))
  {
    var d := Decide(w.authority.ctx, req);
    if d.Allow? {
      forall c | c in req.classes && c in CONSUMING
        ensures d.grant.Some? && d.grant.value in w.authority.ctx.grants
          && BoundTo(w.authority.ctx.grants[d.grant.value], c)
      {
        AllowNamesBoundGrant(w.authority.ctx, req, c);
      }
      if d.grant.Some? { NamedGrantHasClass(w.authority.ctx, req.taskId, req.classes); }
    }
  }

  lemma AddKeepsInv(w: World, a: ActionId, act: Action)
    requires Inv(w) && a !in w.actions && act.phase != Running && DecisionSound(w, act)
    ensures Inv(w.(actions := w.actions[a := act]))
  {
    var w' := w.(actions := w.actions[a := act]);
    assert forall x | DecisionSound(w, x) :: DecisionSound(w', x);
    assert forall g :: Reservable(w', g) == Reservable(w, g);
  }

  lemma ProposeKeepsInv(w: World, a: ActionId, req: Request)
    requires Inv(w)
    ensures Inv(Next(w, Propose(a, req)))
  {
    if a !in w.actions {
      DecideIsSound(w, req);
      AddKeepsInv(w, a, Action(req, Decide(w.authority.ctx, req), Proposing));
    }
  }

  /**
   * What a successful start and a settlement have in common: one event appended, one action moved, one grant touched.
   */
  ghost predicate Moves(w: World, w': World, a: ActionId, p: Phase, e: AdapterEvent) {
    && a in w.actions && w.actions[a].decision.Allow?
    && e.action == a && e.grant == w.actions[a].decision.grant && e.classes == w.actions[a].req.classes
    && w'.trace == w.trace + [e]
    && w'.actions == w.actions[a := w.actions[a].(phase := p)]
    && GrantsPersist(w.authority, w'.authority)
    && forall g | g in w'.authority.ctx.grants && Some(g) != e.grant ::
         g in w.authority.ctx.grants && w'.authority.ctx.grants[g] == w.authority.ctx.grants[g]
  }

  /** The move is legal for the grant it concerns: the trace accepts the event, and an unsettled grant is not ACTIVE. */
  ghost predicate LegalUse(w: World, w': World, a: ActionId, p: Phase, e: AdapterEvent)
    requires Moves(w, w', a, p, e)
  {
    e.grant.Some? ==>
      var u := Use(w.trace, e.grant.value);
      var u' := UseAfter(u, e, e.grant.value);
      && e.grant.value in w'.authority.ctx.grants
      && u' != Broken
      && (if p == Running then u' == InFlight(a) && u == Idle else !u'.InFlight? && u == InFlight(a))
      && (w'.authority.ctx.grants[e.grant.value].status == Active ==> u' == Idle)
  }

  lemma MoveKeepsGrants(w: World, w': World, a: ActionId, p: Phase, e: AdapterEvent)
    requires GrantsSound(w) && Moves(w, w', a, p, e) && LegalUse(w, w', a, p, e)
    ensures GrantsSound(w')
  {
    UseAppend(w.trace, e);
    forall g
      ensures g !in w'.authority.ctx.grants ==> Use(w'.trace, g) == Idle
      ensures Use(w'.trace, g) != Broken
      ensures Reservable(w', g) ==> Use(w'.trace, g) == Idle
    {
      assert Use(w'.trace, g) == UseAfter(Use(w.trace, g), e, g);
      assert Use(w.trace, g) != Broken;
      if e.grant != Some(g) && Reservable(w', g) { assert Reservable(w, g); }
    }
  }

  lemma MoveKeepsFlights(w: World, w': World, a: ActionId, p: Phase, e: AdapterEvent)
    requires FlightsSound(w) && Moves(w, w', a, p, e) && LegalUse(w, w', a, p, e)
    requires e.grant.None? ==> InPhase(w, a, Running) || p == Running
    ensures FlightsSound(w')
  {
    UseAppend(w.trace, e);
    forall b, g ensures Use(w'.trace, g) == InFlight(b) <==> InPhase(w', b, Running) && Names(w'.actions[b], g) {
      assert Use(w'.trace, g) == UseAfter(Use(w.trace, g), e, g);
      assert Use(w.trace, g) == InFlight(b) <==> InPhase(w, b, Running) && Names(w.actions[b], g);
    }
  }

  lemma MoveKeepsRecords(w: World, w': World, a: ActionId, p: Phase, e: AdapterEvent)
    requires Inv(w) && Moves(w, w', a, p, e)
    ensures forall b | b in w'.actions :: DecisionSound(w', w'.actions[b])
    ensures forall x | x in w'.trace :: EventSound(w', x)
  {
    PersistKeepsSound(w, w');
    assert DecisionSound(w, w.actions[a]);
    if e.grant.Some? { assert Names(w.actions[a], e.grant.value); }
    assert EventSound(w, e);
    forall b | b in w'.actions ensures DecisionSound(w', w'.actions[b]) {
      assert DecisionSound(w, w.actions[b]);
    }
  }

  lemma StartIsLegal(w: World, a: ActionId, known: bool)
    requires Inv(w) && InPhase(w, a, Proposing) && Start(w, a, known).trace != w.trace
    ensures var e := Called(a, w.actions[a].decision.grant, w.actions[a].req.classes);
      Moves(w, Start(w, a, known), a, Running, e) && LegalUse(w, Start(w, a, known), a, Running, e)
  {
    var act := w.actions[a];
    assert DecisionSound(w, act);
    if act.decision.grant.Some? { assert Names(act, act.decision.grant.value); }
  }

  lemma StartKeepsInv(w: World, a: ActionId, known: bool)
    requires Inv(w) && InPhase(w, a, Proposing)
    ensures Inv(Start(w, a, known))
  {
    var w' := Start(w, a, known);
    if w'.trace != w.trace {
      StartIsLegal(w, a, known);
      var e := Called(a, w.actions[a].decision.grant, w.actions[a].req.classes);
      MoveKeepsGrants(w, w', a, Running, e);
      MoveKeepsFlights(w, w', a, Running, e);
      MoveKeepsRecords(w, w', a, Running, e);
    } else {
      CloseKeepsInv(w, a, w'.actions[a].phase);
    }
  }

  /** Moving an action that is not running to a phase other than Running touches nothing the invariant reads. */
  lemma CloseKeepsInv(w: World, a: ActionId, p: Phase)
    requires Inv(w) && a in w.actions && w.actions[a].phase != Running && p != Running
    ensures Inv(Put(w, a, p))
  {
    var w' := Put(w, a, p);
    assert DecisionSound(w, w.actions[a]);
    assert forall x | DecisionSound(w, x) :: DecisionSound(w', x);
    assert forall g :: Reservable(w', g) == Reservable(w, g);
  }

  /** A settlement releases the grant only for CANCELLED, and touches no other grant. */
  lemma SettledGrant(w: World, a: ActionId, o: Outcome, g: GrantId)
    requires a in w.actions && w.actions[a].decision == Allow(Some(g)) && g in w.authority.ctx.grants
    ensures var w' := Settle(w, a, o);
      && GrantsPersist(w.authority, w'.authority)
      && w'.authority.ctx.grants.Keys == w.authority.ctx.grants.Keys
      && (forall x | x in w.authority.ctx.grants && x != g :: w'.authority.ctx.grants[x] == w.authority.ctx.grants[x])
      && (w'.authority.ctx.grants[g].status == Active ==> o == Cancelled || w.authority.ctx.grants[g].status == Active)
  {
  }

  /** What a settlement does besides the grant: one event, one action moved out of Running. */
  lemma SettledAction(w: World, a: ActionId, o: Outcome)
    requires a in w.actions && w.actions[a].decision.Allow?
    ensures var w' := Settle(w, a, o);
      && a in w'.actions && w'.actions[a].phase != Running
      && w'.trace == w.trace + [Returned(a, w.actions[a].decision.grant, w.actions[a].req.classes, o)]
      && w'.actions == w.actions[a := w.actions[a].(phase := w'.actions[a].phase)]
      && (w.actions[a].decision.grant.None? ==> w'.authority == w.authority)
  {
  }

  lemma SettleMoves(w: World, a: ActionId, o: Outcome)
    requires Inv(w) && InPhase(w, a, Running) && w.actions[a].decision.Allow?
    ensures var w' := Settle(w, a, o);
      && w'.actions[a].phase != Running
      && Moves(w, w', a, w'.actions[a].phase, Returned(a, w.actions[a].decision.grant, w.actions[a].req.classes, o))
  {
    assert DecisionSound(w, w.actions[a]);
    SettledAction(w, a, o);
    if w.actions[a].decision.grant.Some? {
      assert Names(w.actions[a], w.actions[a].decision.grant.value);
      SettledGrant(w, a, o, w.actions[a].decision.grant.value);
    }
  }

  lemma SettleIsLegal(w: World, a: ActionId, o: Outcome)
    requires Inv(w) && InPhase(w, a, Running) && w.actions[a].decision.Allow?
    ensures var w' := Settle(w, a, o);
      var e := Returned(a, w.actions[a].decision.grant, w.actions[a].req.classes, o);
      Moves(w, w', a, w'.actions[a].phase, e) && LegalUse(w, w', a, w'.actions[a].phase, e)
  {
    var act := w.actions[a];
    SettleMoves(w, a, o);
    if act.decision.grant.Some? {
      var g := act.decision.grant.value;
      assert DecisionSound(w, act) && Names(act, g);
      assert Use(w.trace, g) == InFlight(a);
      assert !Reservable(w, g);
      SettledGrant(w, a, o, g);
    }
  }

  lemma SettleKeepsInv(w: World, a: ActionId, o: Outcome)
    requires Inv(w) && InPhase(w, a, Running) && w.actions[a].decision.Allow?
    ensures Inv(Settle(w, a, o))
  {
    var e := Returned(a, w.actions[a].decision.grant, w.actions[a].req.classes, o);
    var w' := Settle(w, a, o);
    var p := w'.actions[a].phase;
    SettleIsLegal(w, a, o);
    MoveKeepsGrants(w, w', a, p, e);
    MoveKeepsFlights(w, w', a, p, e);
    MoveKeepsRecords(w, w', a, p, e);
  }

  /** A late reconciliation makes no grant ACTIVE. */
  lemma LateReconcile(s: Authority, g: GrantId, a: ActionId)
    ensures GrantsPersist(s, After(s, Reconcile(g, a)))
    ensures forall x | x in s.ctx.grants :: After(s, Reconcile(g, a)).ctx.grants[x].status == Active ==>
      s.ctx.grants[x].status == Active
  {
  }

  lemma LoseAuditKeepsInv(w: World, a: ActionId)
    requires Inv(w) && a in w.actions && w.actions[a].phase.Recording? && w.actions[a].decision.Allow?
    ensures Inv(LoseAudit(w, a))
  {
    var grant := w.actions[a].decision.grant;
    var s' := if grant.Some? then After(w.authority, Reconcile(grant.value, a)) else w.authority;
    if grant.Some? { LateReconcile(w.authority, grant.value, a); }
    forall g | Reservable(w.(authority := s'), g) && g in w.authority.ctx.grants ensures Use(w.trace, g) == Idle {
      assert Reservable(w, g);
    }
    AuthorityKeepsInv(w, s');
    CloseKeepsInv(w.(authority := s'), a, Closed(AuditLost));
  }

  lemma NextKeepsInv(w: World, s: Step)
    requires Inv(w)
    ensures Inv(Next(w, s))
  {
    match s
    case Owner(op) => if OwnerMay(w, op) { OwnerKeepsInv(w, op); }
    case Propose(a, req) => ProposeKeepsInv(w, a, req);
    case ProposedRecorded(a, ok, known) =>
      if InPhase(w, a, Proposing) {
        if ok { StartKeepsInv(w, a, known); } else { CloseKeepsInv(w, a, Closed(AuditFailed)); }
      }
    case AdapterReturns(a, o) =>
      if InPhase(w, a, Running) && w.actions[a].decision.Allow? { SettleKeepsInv(w, a, o); }
    case ExecutedRecorded(a, ok) =>
      if a in w.actions && w.actions[a].phase.Recording? && w.actions[a].decision.Allow? {
        if ok { CloseKeepsInv(w, a, Closed(Reported(w.actions[a].phase.outcome))); } else { LoseAuditKeepsInv(w, a); }
      }
  }

  lemma {:induction false} RunKeepsInv(w: World, steps: seq<Step>)
    requires Inv(w)
    ensures Inv(Run(w, steps))
    decreases |steps|
  {
    if steps != [] {
      NextKeepsInv(w, steps[0]);
      RunKeepsInv(Next(w, steps[0]), steps[1..]);
    }
  }

  lemma BootInv(taskId: string, gate: Gate)
    ensures Inv(Boot(taskId, gate))
  {}

  lemma RunConcat(w: World, s: seq<Step>, t: seq<Step>)
    ensures Run(w, s + t) == Run(Run(w, s), t)
    decreases |s|
  {
    if s == [] {
      assert s + t == t;
    } else {
      assert (s + t)[1..] == s[1..] + t;
      RunConcat(Next(w, s[0]), s[1..], t);
    }
  }

  // ---------------------------------------------------------------- at most once under ambiguous failure

  /**
   * Over every interleaving: once some adapter outcome under a grant is not CANCELLED, there is no further
   * adapter call and no further outcome under that grant. Outcomes are CANCELLED* and at most one other.
   */
  lemma AtMostOnce(taskId: string, gate: Gate, steps: seq<Step>, g: GrantId, i: nat, j: nat)
    requires var t := Run(Boot(taskId, gate), steps).trace;
      i < j < |t| && t[i].Returned? && t[i].grant == Some(g) && t[i].outcome != Cancelled
    ensures Run(Boot(taskId, gate), steps).trace[j].grant != Some(g)
  {
    var w := Run(Boot(taskId, gate), steps);
    BootInv(taskId, gate);
    RunKeepsInv(Boot(taskId, gate), steps);
    assert Use(w.trace, g) != Broken;
    SpentIsFinal(w.trace, g, i, j);
  }

  lemma {:induction false} SpentIsFinal(t: seq<AdapterEvent>, g: GrantId, i: nat, j: nat)
    requires Use(t, g) != Broken && i < j < |t|
    requires t[i].Returned? && t[i].grant == Some(g) && t[i].outcome != Cancelled
    ensures t[j].grant != Some(g)
  {
    PrefixUnbroken(t, g, j + 1);
    PrefixUnbroken(t, g, j);
    SpentSince(t[..j], g, i);
    assert t[..j + 1][..j] == t[..j];
  }

  lemma {:induction false} PrefixUnbroken(t: seq<AdapterEvent>, g: GrantId, n: nat)
    requires Use(t, g) != Broken && n <= |t|
    ensures Use(t[..n], g) != Broken
  {
    if n == |t| {
      assert t[..n] == t;
    } else {
      PrefixUnbroken(t[..|t| - 1], g, n);
      assert t[..|t| - 1][..n] == t[..n];
    }
  }

  lemma {:induction false} SpentSince(t: seq<AdapterEvent>, g: GrantId, i: nat)
    requires Use(t, g) != Broken && i < |t|
    requires t[i].Returned? && t[i].grant == Some(g) && t[i].outcome != Cancelled
    ensures Use(t, g) == Spent
  {
    if i < |t| - 1 { SpentSince(t[..|t| - 1], g, i); }
  }

  /** At every moment at most one action is unsettled under a single-use grant, and then the grant is not ACTIVE. */
  lemma OneUnsettledAction(taskId: string, gate: Gate, steps: seq<Step>, g: GrantId, a: ActionId, b: ActionId)
    requires var w := Run(Boot(taskId, gate), steps);
      InPhase(w, a, Running) && Names(w.actions[a], g) && InPhase(w, b, Running) && Names(w.actions[b], g)
    ensures a == b && !Reservable(Run(Boot(taskId, gate), steps), g)
  {
    var w := Run(Boot(taskId, gate), steps);
    BootInv(taskId, gate);
    RunKeepsInv(Boot(taskId, gate), steps);
    assert Use(w.trace, g) == InFlight(a) && Use(w.trace, g) == InFlight(b);
  }

  /** No run ever invokes the adapter for an action that was not allowed, nor twice for the same action. */
  lemma AdapterOnlyWhenAllowed(taskId: string, gate: Gate, steps: seq<Step>)
    ensures CallsAllowed(Run(Boot(taskId, gate), steps))
  {
    CallsStayAllowed(Boot(taskId, gate), steps);
  }

  ghost predicate CallersAllowed(w: World) {
    forall i | 0 <= i < |w.trace| && w.trace[i].Called? ::
      var a := w.trace[i].action; a in w.actions && w.actions[a].decision.Allow? && w.actions[a].phase != Proposing
  }

  ghost predicate CallersDistinct(w: World) {
    forall i, j | 0 <= i < j < |w.trace| && w.trace[i].Called? && w.trace[j].Called? ::
      w.trace[i].action != w.trace[j].action
  }

  ghost predicate CallsAllowed(w: World) { CallersAllowed(w) && CallersDistinct(w) }

  /** Actions are never forgotten, their requests and decisions never change, and none returns to Proposing. */
  predicate ActionsAdvance(w: World, w': World) {
    forall a | a in w.actions ::
      && a in w'.actions && w'.actions[a].decision == w.actions[a].decision && w'.actions[a].req == w.actions[a].req
      && (w.actions[a].phase != Proposing ==> w'.actions[a].phase != Proposing)
  }

  lemma NextAdvances(w: World, s: Step)
    ensures ActionsAdvance(w, Next(w, s))
  {
  }

  /** A step extends the trace by at most one event; a call belongs to an allowed action that was still proposing. */
  lemma NextTrace(w: World, s: Step)
    ensures Next(w, s).trace == w.trace
      || (|Next(w, s).trace| == |w.trace| + 1 && Next(w, s).trace[..|w.trace|] == w.trace)
    ensures var w' := Next(w, s);
      w'.trace != w.trace && w'.trace[|w.trace|].Called? ==>
        var a := w'.trace[|w.trace|].action;
        InPhase(w, a, Proposing) && InPhase(w', a, Running) && w'.actions[a].decision.Allow?
  {
  }

  lemma TraceIsExtended(w: World, s: Step)
    ensures |w.trace| <= |Next(w, s).trace| <= |w.trace| + 1
    ensures forall i | 0 <= i < |w.trace| :: Next(w, s).trace[i] == w.trace[i]
  {
    NextTrace(w, s);
    var t := Next(w, s).trace;
    assert forall i | 0 <= i < |w.trace| :: t[..|w.trace|][i] == t[i];
  }

  lemma CallersStayAllowed(w: World, s: Step)
    requires CallersAllowed(w)
    ensures CallersAllowed(Next(w, s))
  {
    NextAdvances(w, s);
    NextTrace(w, s);
    TraceIsExtended(w, s);
  }

  lemma CallersStayDistinct(w: World, s: Step)
    requires CallsAllowed(w)
    ensures CallersDistinct(Next(w, s))
  {
    NextTrace(w, s);
    TraceIsExtended(w, s);
  }

  lemma CallsAllowedAfter(w: World, s: Step)
    requires CallsAllowed(w)
    ensures CallsAllowed(Next(w, s))
  {
    CallersStayAllowed(w, s);
    CallersStayDistinct(w, s);
  }

  lemma {:induction false} CallsStayAllowed(w: World, steps: seq<Step>)
    requires CallsAllowed(w)
    ensures CallsAllowed(Run(w, steps))
    decreases |steps|
  {
    if steps != [] {
      CallsAllowedAfter(w, steps[0]);
      CallsStayAllowed(Next(w, steps[0]), steps[1..]);
    }
  }

  // ---------------------------------------------------------------- between the decision and the call

  lemma GrantCallPersists(s: Authority, op: Op)
    requires !op.ApplyEvent?
    ensures GrantsPersist(s, After(s, op))
  {
  }

  lemma NextAuthority(w: World, s: Step)
    requires ContextSound(w.authority.ctx)
    ensures var c := Next(w, s).authority.ctx;
      GrantsPersist(w.authority, Next(w, s).authority) && ContextSound(c) && c.taskId == w.authority.ctx.taskId
  {
    var op := OpOf(w, s);
    OpIsTheEffect(w, s);
    if op.Some? {
      CallKeepsContext(w.authority, op.value);
      if op.value.ApplyEvent? { OwnerEffect(w, op.value); } else { GrantCallPersists(w.authority, op.value); }
    }
  }

  lemma OpIsTheEffect(w: World, s: Step)
    ensures var op := OpOf(w, s);
      && Next(w, s).authority == (if op.Some? then After(w.authority, op.value) else w.authority)
      && (op.Some? && op.value.ApplyEvent? ==> OwnerMay(w, op.value))
  {
  }

  /** The one call a step makes on the owner event processor, if it makes one. */
  function OpOf(w: World, s: Step): Option<Op> {
    match s
    case Owner(op) => if OwnerMay(w, op) then Some(op) else None
    case ProposedRecorded(a, ok, known) =>
      if InPhase(w, a, Proposing) && ok && known && w.actions[a].decision.Allow?
        && w.actions[a].decision.grant.Some? then
        Some(ReserveGrant(w.actions[a].decision.grant.value, a))
      else None
    case AdapterReturns(a, o) =>
      if InPhase(w, a, Running) && w.actions[a].decision.Allow? && w.actions[a].decision.grant.Some? then
        SettleOp(w.actions[a].decision.grant.value, a, o)
      else None
    case ExecutedRecorded(a, ok) =>
      if a in w.actions && w.actions[a].phase.Recording? && !ok && w.actions[a].decision.Allow?
        && w.actions[a].decision.grant.Some? then
        Some(Reconcile(w.actions[a].decision.grant.value, a))
      else None
    case Propose(_, _) => None
  }

  lemma {:induction false} RunAuthority(w: World, steps: seq<Step>)
    requires ContextSound(w.authority.ctx)
    ensures var c := Run(w, steps).authority.ctx;
      && GrantsPersist(w.authority, Run(w, steps).authority) && ContextSound(c) && c.taskId == w.authority.ctx.taskId
    ensures ActionsAdvance(w, Run(w, steps))
    decreases |steps|
  {
    if steps != [] {
      NextAuthority(w, steps[0]);
      NextAdvances(w, steps[0]);
      RunAuthority(Next(w, steps[0]), steps[1..]);
    }
  }

  predicate TargetsApproved(ctx: Context, req: Request) {
    EnforcesFileScope(ctx.gate) ==> forall f | f in req.targetFilePaths :: f in ctx.approvedFiles
  }

  /** The grant a decision names matches every class of the request that needs a token, while it is ACTIVE. */
  lemma NamedGrantMatchesAll(ctx: Context, req: Request, g: GrantId)
    requires Decide(ctx, req) == Allow(Some(g))
    ensures g in ctx.grants && ctx.grants[g].taskId == req.taskId
    ensures exists c | c in req.classes && c in CONSUMING :: ctx.gate == HomeGate(c) && BoundTo(ctx.grants[g], c)
  {
    NamedGrantHasClass(ctx, req.taskId, req.classes);
    var c :| c in req.classes && c in CONSUMING && BoundTo(ctx.grants[g], c);
    AllowNamesBoundGrant(ctx, req, c);
    assert c in AllowedClasses(ctx.gate);
    NamedGrantIsBound(ctx, req.taskId, req.classes, c);
  }

  /**
   * A decision taken again later, with the named grant still ACTIVE, asks for the same gate and approved targets only.
   */
  lemma AllowedAgainIff(before: Context, ctx: Context, req: Request, g: GrantId)
    requires Decide(before, req) == Allow(Some(g)) && ContextSound(before) && ContextSound(ctx)
    requires before.taskId == ctx.taskId && g in ctx.grants && ctx.grants[g].status == Active
    requires g in before.grants && ctx.grants[g].token == before.grants[g].token
    requires ctx.grants[g].boundToGate == before.grants[g].boundToGate
      && ctx.grants[g].boundToAction == before.grants[g].boundToAction
    ensures Decide(ctx, req).Allow? <==> ctx.gate == before.gate && TargetsApproved(ctx, req)
  {
    NamedGrantMatchesAll(before, req, g);
    var c :| c in req.classes && c in CONSUMING && before.gate == HomeGate(c) && BoundTo(before.grants[g], c);
    AllowExactly(before, req);
    AllowExactly(ctx, req);
    if Decide(ctx, req).Allow? { AllowNamesBoundGrant(ctx, req, c); }
    if ctx.gate == before.gate {
      forall x | x in req.classes ensures HasMatchingGrant(ctx, req.taskId, x) { StillMatches(before, ctx, c, x, g); }
    }
  }

  lemma StillMatches(before: Context, ctx: Context, c: MutationClass, x: MutationClass, g: GrantId)
    requires c in CONSUMING && ctx.gate == before.gate == HomeGate(c) && x in AllowedClasses(ctx.gate)
    requires ContextSound(ctx) && g in ctx.grants && ctx.grants[g].status == Active && BoundTo(ctx.grants[g], c)
    ensures HasMatchingGrant(ctx, ctx.grants[g].taskId, x)
  {
    var t := RequiredToken(ctx.gate, x);
    if t.Some? { assert Matches(ctx.grants[g], t.value, x, ctx.gate, ctx.grants[g].taskId); }
  }

  /**
   * The proposal is recorded between the decision and the call, and the reservation checks the grant again but not
   * the rest. In every run the policy would allow a commit, push or deployment again at the moment of its call if and
   * only if the gate is the one it was decided at and its targets are still approved.
   */
  lemma CallStillAllowedIff(w: World, a: ActionId, req: Request, others: seq<Step>)
    requires ContextSound(w.authority.ctx) && a !in w.actions
    requires Decide(w.authority.ctx, req).Allow? && Decide(w.authority.ctx, req).grant.Some?
    requires var now := Run(Next(w, Propose(a, req)), others);
      InPhase(now, a, Proposing) && Next(now, ProposedRecorded(a, true, true)).trace != now.trace
    ensures var now := Run(Next(w, Propose(a, req)), others).authority.ctx;
      Decide(now, req).Allow? <==> now.gate == w.authority.ctx.gate && TargetsApproved(now, req)
  {
    var proposed := Next(w, Propose(a, req));
    var now := Run(proposed, others);
    var g := Decide(w.authority.ctx, req).grant.value;
    RunAuthority(proposed, others);
    assert now.actions[a].decision == Allow(Some(g)) && now.actions[a].req == req;
    NamedGrantMatchesAll(w.authority.ctx, req, g);
    CallNeedsActive(now, a, g);
    AllowedAgainIff(w.authority.ctx, now.authority.ctx, req, g);
  }

  lemma CallNeedsActive(w: World, a: ActionId, g: GrantId)
    requires InPhase(w, a, Proposing) && Names(w.actions[a], g) && Start(w, a, true).trace != w.trace
    requires g in w.authority.ctx.grants && w.authority.ctx.grants[g].token != ImplementationApproved
    ensures w.authority.ctx.grants[g].status == Active
  {
  }

  // ---------------------------------------------------------------- conservation of authority

  /** Non-CANCELLED adapter outcomes of actions classified `c`. */
  function Executions(t: seq<AdapterEvent>, c: MutationClass): nat {
    if t == [] then 0
    else
      var e := t[|t| - 1];
      Executions(t[..|t| - 1], c) + if e.Returned? && e.outcome != Cancelled && c in e.classes then 1 else 0
  }

  /** The distinct owner events among the steps that grant exactly class `c` at its gate with its token. */
  function GrantsIssued(steps: seq<Step>, c: MutationClass): set<GrantId>
    requires c in CONSUMING
  {
    if steps == [] then {} else Grants(steps[0], c) + GrantsIssued(steps[1..], c)
  }

  function Grants(s: Step, c: MutationClass): set<GrantId>
    requires c in CONSUMING
  {
    match s
    case Owner(ApplyEvent(e)) => if BoundTo(GrantOf(e), c) then {e.eventId} else {}
    case _ => {}
  }

  ghost function Bound(w: World, c: MutationClass): set<GrantId>
    requires c in CONSUMING
  {
    set g | g in w.authority.ctx.grants && BoundTo(w.authority.ctx.grants[g], c)
  }

  /** In every run, commits (pushes, deployments) never outnumber the distinct owner grants issued for exactly that. */
  lemma AuthorityConserved(taskId: string, gate: Gate, steps: seq<Step>, c: MutationClass)
    requires c in CONSUMING
    ensures Executions(Run(Boot(taskId, gate), steps).trace, c) <= |GrantsIssued(steps, c)|
  {
    var w := Run(Boot(taskId, gate), steps);
    BootInv(taskId, gate);
    RunKeepsInv(Boot(taskId, gate), steps);
    ExecutionsWithinSpent(w.trace, Bound(w, c), c);
    BoundWithinIssued(Boot(taskId, gate), steps, c);
    assert Bound(Boot(taskId, gate), c) == {};
    SubsetSize(Bound(w, c), GrantsIssued(steps, c));
  }

  ghost function SpentOf(t: seq<AdapterEvent>, grants: set<GrantId>): set<GrantId> {
    set g | g in grants && Use(t, g) == Spent
  }

  lemma {:induction false} ExecutionsWithinSpent(t: seq<AdapterEvent>, grants: set<GrantId>, c: MutationClass)
    requires forall g | g in grants :: Use(t, g) != Broken
    requires forall e | e in t && c in e.classes :: e.grant.Some? && e.grant.value in grants
    ensures Executions(t, c) <= |SpentOf(t, grants)| <= |grants|
  {
    SubsetSize(SpentOf(t, grants), grants);
    if t != [] {
      var r, e := t[..|t| - 1], t[|t| - 1];
      ExecutionsWithinSpent(r, grants, c);
      if e.Returned? && e.outcome != Cancelled && c in e.classes {
        assert SpentOf(t, grants) == SpentOf(r, grants) + {e.grant.value};
        assert e.grant.value !in SpentOf(r, grants);
      } else {
        SubsetSize(SpentOf(r, grants), SpentOf(t, grants));
      }
    }
  }

  lemma SubsetSize<T>(a: set<T>, b: set<T>)
    requires a <= b
    ensures |a| <= |b|
  {
    assert b == a + (b - a);
  }

  ghost predicate SameGrants(s: Authority, t: Authority) {
    t.ctx.grants.Keys == s.ctx.grants.Keys && GrantsPersist(s, t)
  }

  lemma OnlyEventsGrant(s: Authority, op: Op)
    requires !op.ApplyEvent?
    ensures SameGrants(s, After(s, op))
  {}

  /** Only an applied owner event adds a grant or sets a binding. */
  lemma GatewayStepsGrantNothing(w: World, s: Step)
    requires !s.Owner?
    ensures SameGrants(w.authority, Next(w, s).authority)
  {
    match s {
      case ProposedRecorded(a, ok, known) =>
        if InPhase(w, a, Proposing) && w.actions[a].decision.Allow? && w.actions[a].decision.grant.Some? {
          OnlyEventsGrant(w.authority, ReserveGrant(w.actions[a].decision.grant.value, a));
        }
      case AdapterReturns(a, o) =>
        if InPhase(w, a, Running) && w.actions[a].decision.Allow? && w.actions[a].decision.grant.Some?
          && o != Malformed {
          OnlyEventsGrant(w.authority, SettleOp(w.actions[a].decision.grant.value, a, o).value);
        }
      case ExecutedRecorded(a, ok) =>
        if a in w.actions && w.actions[a].decision.Allow? && w.actions[a].decision.grant.Some? {
          OnlyEventsGrant(w.authority, Reconcile(w.actions[a].decision.grant.value, a));
        }
      case _ =>
    }
  }

  lemma BoundGrowth(w: World, s: Step, c: MutationClass)
    requires c in CONSUMING
    ensures Bound(Next(w, s), c) <= Bound(w, c) + Grants(s, c)
  {
    match s {
      case Owner(ApplyEvent(e)) =>
      case Owner(op) => OnlyEventsGrant(w.authority, op);
      case _ => GatewayStepsGrantNothing(w, s);
    }
  }

  lemma {:induction false} BoundWithinIssued(w: World, steps: seq<Step>, c: MutationClass)
    requires c in CONSUMING
    ensures Bound(Run(w, steps), c) <= Bound(w, c) + GrantsIssued(steps, c)
    decreases |steps|
  {
    if steps != [] {
      BoundGrowth(w, steps[0], c);
      BoundWithinIssued(Next(w, steps[0]), steps[1..], c);
    }
  }

  // ---------------------------------------------------------------- when is a grant out of circulation for good?

  /** Neither reservable nor in flight. */
  ghost predicate Retired(w: World, g: GrantId) {
    g in w.authority.ctx.grants && !Reservable(w, g) && !Use(w.trace, g).InFlight?
  }

  ghost predicate OutOfUse(w: World, g: GrantId) {
    Retired(w, g) && w.authority.ctx.grants[g].token != ImplementationApproved
  }

  lemma StartNeedsActive(w: World, a: ActionId, known: bool, g: GrantId)
    requires a in w.actions && w.actions[a].decision == Allow(Some(g)) && Start(w, a, known).trace != w.trace
    ensures g in w.authority.ctx.grants
    ensures w.authority.ctx.grants[g].token == ImplementationApproved || w.authority.ctx.grants[g].status == Active
  {
  }

  lemma RetiredThroughStart(w: World, a: ActionId, known: bool, g: GrantId)
    requires Inv(w) && OutOfUse(w, g) && InPhase(w, a, Proposing)
    ensures OutOfUse(Start(w, a, known), g)
  {
    var w' := Start(w, a, known);
    if w'.trace != w.trace {
      StartIsLegal(w, a, known);
      if Names(w.actions[a], g) { StartNeedsActive(w, a, known, g); }
      UseAppend(w.trace, Called(a, w.actions[a].decision.grant, w.actions[a].req.classes));
      assert Use(w'.trace, g) == Use(w.trace, g);
    } else {
      assert w'.authority == w.authority;
    }
  }

  lemma RetiredThroughSettle(w: World, a: ActionId, o: Outcome, g: GrantId)
    requires Inv(w) && OutOfUse(w, g) && InPhase(w, a, Running) && w.actions[a].decision.Allow?
    ensures OutOfUse(Settle(w, a, o), g)
  {
    UseAppend(w.trace, Returned(a, w.actions[a].decision.grant, w.actions[a].req.classes, o));
    assert !Names(w.actions[a], g) by {
      assert Use(w.trace, g) == InFlight(a) <==> InPhase(w, a, Running) && Names(w.actions[a], g);
    }
  }

  predicate Reapplies(s: Step, g: GrantId) { s.Owner? && s.op.ApplyEvent? && s.op.event.eventId == g }

  /** Runs in which the grant's own event is not applied again. */
  predicate NotReapplied(steps: seq<Step>, g: GrantId) { forall s | s in steps :: !Reapplies(s, g) }

  lemma RetiredStaysRetired(w: World, s: Step, g: GrantId)
    requires Inv(w) && OutOfUse(w, g) && !Reapplies(s, g)
    ensures OutOfUse(Next(w, s), g)
  {
    match s
    case ProposedRecorded(a, ok, known) =>
      if InPhase(w, a, Proposing) && ok { RetiredThroughStart(w, a, known, g); }
    case AdapterReturns(a, o) =>
      if InPhase(w, a, Running) && w.actions[a].decision.Allow? { RetiredThroughSettle(w, a, o, g); }
    case _ =>
  }

  lemma {:induction false} RetiredForGood(w: World, steps: seq<Step>, g: GrantId)
    requires Inv(w) && OutOfUse(w, g) && NotReapplied(steps, g)
    ensures OutOfUse(Run(w, steps), g)
    decreases |steps|
  {
    if steps != [] {
      assert steps[0] in steps;
      RetiredStaysRetired(w, steps[0], g);
      NextKeepsInv(w, steps[0]);
      RetiredForGood(Next(w, steps[0]), steps[1..], g);
    }
  }

  lemma CancelledReleases(w: World, a: ActionId, g: GrantId)
    requires InPhase(w, a, Running) && Names(w.actions[a], g) && g in w.authority.ctx.grants
    requires w.authority.ctx.grants[g].token != ImplementationApproved
    ensures Reservable(Next(w, AdapterReturns(a, Cancelled)), g)
  {
  }

  lemma NeverReservable(w: World, g: GrantId)
    requires Inv(w) && OutOfUse(w, g)
    ensures forall steps | NotReapplied(steps, g) :: !Reservable(Run(w, steps), g)
  {
    forall steps | NotReapplied(steps, g) ensures !Reservable(Run(w, steps), g) { RetiredForGood(w, steps, g); }
  }

  lemma CancellationReopens(w: World, g: GrantId)
    requires Inv(w) && g in w.authority.ctx.grants && w.authority.ctx.grants[g].token != ImplementationApproved
    requires Use(w.trace, g).InFlight?
    ensures exists steps :: NotReapplied(steps, g) && Reservable(Run(w, steps), g)
  {
    var a := Use(w.trace, g).action;
    assert InPhase(w, a, Running) && Names(w.actions[a], g);
    CancelledReleases(w, a, g);
    var steps := [AdapterReturns(a, Cancelled)];
    assert Run(w, steps) == Run(Next(w, steps[0]), []);
    assert NotReapplied(steps, g);
  }

  /**
   * Unless its event is applied again, a revoked (or otherwise inactive) single-use grant can become ACTIVE
   * exactly when an action is still in flight under it: its CANCELLED result releases the grant unconditionally.
   */
  lemma RevocationUndoneIffInFlight(w: World, g: GrantId)
    requires Inv(w) && g in w.authority.ctx.grants && w.authority.ctx.grants[g].token != ImplementationApproved
    requires w.authority.ctx.grants[g].status != Active
    ensures Use(w.trace, g).InFlight? <==> exists steps :: NotReapplied(steps, g) && Reservable(Run(w, steps), g)
  {
    if Use(w.trace, g).InFlight? { CancellationReopens(w, g); } else { NeverReservable(w, g); }
  }

  lemma SpentStaysSpent(w: World, s: Step, g: GrantId)
    requires Inv(w) && Use(w.trace, g) == Spent
    ensures Use(Next(w, s).trace, g) == Spent
  {
    var w' := Next(w, s);
    NextKeepsInv(w, s);
    NextTrace(w, s);
    if w'.trace != w.trace {
      assert w'.trace == w.trace + [w'.trace[|w.trace|]];
      UseAppend(w.trace, w'.trace[|w.trace|]);
      assert Use(w'.trace, g) != Broken;
    }
  }

  lemma {:induction false} SpentForGood(w: World, steps: seq<Step>, g: GrantId)
    requires Inv(w) && Use(w.trace, g) == Spent
    ensures Use(Run(w, steps).trace, g) == Spent && !Reservable(Run(w, steps), g)
    decreases |steps|
  {
    if steps != [] {
      SpentStaysSpent(w, steps[0], g);
      NextKeepsInv(w, steps[0]);
      SpentForGood(Next(w, steps[0]), steps[1..], g);
    }
  }

  // ---------------------------------------------------------------- applying an event again

  lemma ReapplicationActivates(w: World, e: OwnerEvent)
    requires e.taskId == w.authority.ctx.taskId && e.eventId in w.authority.ctx.grants
    requires IssuedBy(w.authority.ctx.grants[e.eventId], e) && e.token != ImplementationApproved
    ensures var w' := w.(authority := After(w.authority, ApplyEvent(e)));
      && Reservable(w', e.eventId) && GrantsPersist(w.authority, w'.authority)
      && forall g | Reservable(w', g) && g != e.eventId :: Reservable(w, g)
  {
  }

  /**
   * Applying the event of a single-use grant again is safe exactly while nothing but CANCELLED outcomes
   * stands under the grant: then, and only then, the invariant survives.
   */
  lemma ReapplicationSafeIffIdle(w: World, e: OwnerEvent)
    requires Inv(w) && e.taskId == w.authority.ctx.taskId && e.eventId in w.authority.ctx.grants
    requires IssuedBy(w.authority.ctx.grants[e.eventId], e) && e.token != ImplementationApproved
    ensures Inv(w.(authority := After(w.authority, ApplyEvent(e)))) <==> Use(w.trace, e.eventId) == Idle
  {
    var w' := w.(authority := After(w.authority, ApplyEvent(e)));
    ReapplicationActivates(w, e);
    if Use(w.trace, e.eventId) == Idle { AuthorityKeepsInv(w, w'.authority); }
    if Inv(w') { assert Use(w'.trace, e.eventId) == Idle; }
  }

  /**
   * Otherwise an action allowed under the grant gets a second adapter call, after a settled one or beside one in
   * flight.
   */
  lemma ReappliedEventBreaksSingleUse(w: World, e: OwnerEvent, a: ActionId, req: Request)
    requires Inv(w) && Use(w.trace, e.eventId) != Idle && e.token != ImplementationApproved
    requires e.taskId == w.authority.ctx.taskId && a !in w.actions
    requires Decide(After(w.authority, ApplyEvent(e)).ctx, req) == Allow(Some(e.eventId))
    ensures var again := w.(authority := After(w.authority, ApplyEvent(e)));
      Use(Run(again, [Propose(a, req), ProposedRecorded(a, true, true)]).trace, e.eventId) == Broken
  {
    var again := w.(authority := After(w.authority, ApplyEvent(e)));
    RunTwo(again, Propose(a, req), ProposedRecorded(a, true, true));
    UseAppend(w.trace, Called(a, Some(e.eventId), req.classes));
  }

  /**
   * Over whole runs: where some request would be allowed under the grant applied again, single use survives every
   * continuation exactly when the grant was idle.
   */
  lemma SingleUseSurvivesIffIdle(w: World, e: OwnerEvent, a: ActionId, req: Request)
    requires Inv(w) && e.taskId == w.authority.ctx.taskId && e.eventId in w.authority.ctx.grants
    requires IssuedBy(w.authority.ctx.grants[e.eventId], e) && e.token != ImplementationApproved && a !in w.actions
    requires Decide(After(w.authority, ApplyEvent(e)).ctx, req) == Allow(Some(e.eventId))
    ensures var again := w.(authority := After(w.authority, ApplyEvent(e)));
      (forall steps :: Use(Run(again, steps).trace, e.eventId) != Broken) <==> Use(w.trace, e.eventId) == Idle
  {
    var again := w.(authority := After(w.authority, ApplyEvent(e)));
    ReapplicationSafeIffIdle(w, e);
    if Use(w.trace, e.eventId) == Idle {
      forall steps ensures Use(Run(again, steps).trace, e.eventId) != Broken { RunKeepsInv(again, steps); }
    } else {
      ReappliedEventBreaksSingleUse(w, e, a, req);
    }
  }

  function CommitEvent(taskId: string): OwnerEvent {
    OwnerEvent(1, taskId, CommitApproved, Some(Commit), Only(GitCommit))
  }

  function CommitRequest(taskId: string): Request { Request(taskId, [], [GitCommit], "", [], []) }

  /**
   * At the commit gate, with the owner's commit grant ACTIVE and first in order, a plain commit is allowed under it.
   */
  lemma CommitIsAllowed(ctx: Context)
    requires ctx.gate == Commit && ctx.order != [] && ctx.order[0] == 1
    requires 1 in ctx.grants && ctx.grants[1] == GrantOf(CommitEvent(ctx.taskId))
    ensures Decide(ctx, CommitRequest(ctx.taskId)) == Allow(Some(1))
  {
    assert Matches(ctx.grants[1], CommitApproved, GitCommit, Commit, ctx.taskId);
    assert FirstMatching(ctx, ctx.order, CommitApproved, GitCommit, ctx.taskId) == Some(1);
    var classes := [GitCommit];
    assert classes[1..] == [] && classes[..0] == [];
    assert GitCommit in AllowedClasses(Commit) && GitCommit !in DeniedClasses(Commit);
  }

  function OneCommit(taskId: string): seq<Step> {
    [Owner(ApplyEvent(CommitEvent(taskId))), Propose(1, CommitRequest(taskId)), ProposedRecorded(1, true, true),
     AdapterReturns(1, Succeeded)]
  }

  /** The owner's one commit grant is ACTIVE and nothing has been proposed yet. */
  predicate Granted(w: World, taskId: string) {
    && w.trace == [] && w.actions == map[] && w.authority.ctx.gate == Commit && w.authority.ctx.taskId == taskId
    && w.authority.ctx.order == [1] && w.authority.ctx.grants == map[1 := GrantOf(CommitEvent(taskId))]
  }

  lemma GrantIsActive(taskId: string)
    ensures Granted(Next(Boot(taskId, Commit), Owner(ApplyEvent(CommitEvent(taskId)))), taskId)
  {
  }

  lemma CommitStarts(w: World, taskId: string)
    requires Granted(w, taskId)
    ensures var r := CommitRequest(taskId);
      var w' := Next(Next(w, Propose(1, r)), ProposedRecorded(1, true, true));
      && w'.trace == [Called(1, Some(1), r.classes)] && w'.actions == map[1 := Action(r, Allow(Some(1)), Running)]
      && w'.authority.ctx ==
        w.authority.ctx.(grants := map[1 := GrantOf(CommitEvent(taskId)).(status := Reserved, reservedFor := Some(1))])
  {
    CommitIsAllowed(w.authority.ctx);
  }

  /** A run that spends the grant: applied, reserved, executed. */
  lemma OneCommitSpends(taskId: string)
    ensures var w := Run(Boot(taskId, Commit), OneCommit(taskId));
      && Use(w.trace, 1) == Spent && 2 !in w.actions
      && w.authority.ctx.taskId == taskId && w.authority.ctx.gate == Commit && w.authority.ctx.order == [1]
      && 1 in w.authority.ctx.grants
  {
    var apply, propose := Owner(ApplyEvent(CommitEvent(taskId))), Propose(1, CommitRequest(taskId));
    RunFour(Boot(taskId, Commit), apply, propose, ProposedRecorded(1, true, true), AdapterReturns(1, Succeeded));
    var w1 := Next(Boot(taskId, Commit), apply);
    GrantIsActive(taskId);
    CommitStarts(w1, taskId);
    CommitSettles(Next(Next(w1, propose), ProposedRecorded(1, true, true)), taskId);
  }

  lemma CommitSettles(w: World, taskId: string)
    requires w.trace == [Called(1, Some(1), [GitCommit])]
    requires w.actions == map[1 := Action(CommitRequest(taskId), Allow(Some(1)), Running)]
    requires 1 in w.authority.ctx.grants
    ensures var w' := Next(w, AdapterReturns(1, Succeeded));
      && Use(w'.trace, 1) == Spent && 2 !in w'.actions && 1 in w'.authority.ctx.grants
      && w'.authority.ctx == w.authority.ctx.(grants := w'.authority.ctx.grants)
  {
    SettledAction(w, 1, Succeeded);
    CommitTraceIsSpent(w.trace);
  }

  lemma CommitTraceIsSpent(trace: seq<AdapterEvent>)
    requires trace == [Called(1, Some(1), [GitCommit])]
    ensures Use(trace + [Returned(1, Some(1), [GitCommit], Succeeded)], 1) == Spent
  {
    assert trace == [] + [trace[0]];
    UseAppend([], trace[0]);
    UseAppend(trace, Returned(1, Some(1), [GitCommit], Succeeded));
  }

  /**
   * A whole run of it: one grant, one committed action, the same event once more, and a second call under the grant.
   */
  lemma ReappliedCommitRunsTwice(taskId: string)
    ensures var first := Run(Boot(taskId, Commit), OneCommit(taskId));
      var again := first.(authority := After(first.authority, ApplyEvent(CommitEvent(taskId))));
      && Use(first.trace, 1) == Spent
      && Use(Run(again, [Propose(2, CommitRequest(taskId)), ProposedRecorded(2, true, true)]).trace, 1) == Broken
  {
    var first := Run(Boot(taskId, Commit), OneCommit(taskId));
    BootInv(taskId, Commit);
    RunKeepsInv(Boot(taskId, Commit), OneCommit(taskId));
    OneCommitSpends(taskId);
    CommitIsAllowed(After(first.authority, ApplyEvent(CommitEvent(taskId))).ctx);
    ReappliedEventBreaksSingleUse(first, CommitEvent(taskId), 2, CommitRequest(taskId));
  }

  function RevokedInFlight(taskId: string): seq<Step> {
    [Owner(ApplyEvent(CommitEvent(taskId))), Propose(1, CommitRequest(taskId)), ProposedRecorded(1, true, true),
     Owner(Revoke(CommitApproved))]
  }

  lemma RevokeWhileRunning(w: World, taskId: string)
    requires w.actions == map[1 := Action(CommitRequest(taskId), Allow(Some(1)), Running)]
    requires w.authority.ctx.order == [1] && 1 in w.authority.ctx.grants
    requires w.authority.ctx.grants[1].token == CommitApproved && w.authority.ctx.grants[1].status == Reserved
    ensures var w' := Next(w, Owner(Revoke(CommitApproved)));
      && 1 in w'.authority.ctx.grants && w'.authority.ctx.grants[1].status == Consumed
      && w'.authority.ctx.grants[1].token == CommitApproved && w'.actions == w.actions
  {
    assert FirstRevocable(w.authority.ctx.grants, [1], CommitApproved) == Some(1);
  }

  /** A whole run of an undone revocation: granted, called, revoked, cancelled, ACTIVE again. */
  lemma RevokedGrantComesBack(taskId: string)
    ensures var w := Run(Boot(taskId, Commit), RevokedInFlight(taskId));
      && 1 in w.authority.ctx.grants && w.authority.ctx.grants[1].status == Consumed
      && Reservable(Next(w, AdapterReturns(1, Cancelled)), 1)
  {
    var apply, propose := Owner(ApplyEvent(CommitEvent(taskId))), Propose(1, CommitRequest(taskId));
    RunFour(Boot(taskId, Commit), apply, propose, ProposedRecorded(1, true, true), Owner(Revoke(CommitApproved)));
    var w1 := Next(Boot(taskId, Commit), apply);
    GrantIsActive(taskId);
    CommitStarts(w1, taskId);
    var w3 := Next(Next(w1, propose), ProposedRecorded(1, true, true));
    RevokeWhileRunning(w3, taskId);
    CancelledReleases(Next(w3, Owner(Revoke(CommitApproved))), 1, 1);
  }

  function PushEvent(taskId: string): OwnerEvent { OwnerEvent(2, taskId, PushApproved, Some(Push), Only(GitPush)) }

  /** Owner grants, a commit is proposed, the owner moves on to the push gate. */
  function MovedBeforeCall(taskId: string): seq<Step> {
    [Owner(ApplyEvent(CommitEvent(taskId))), Owner(ApplyEvent(PushEvent(taskId))), Propose(1, CommitRequest(taskId)),
     Owner(Transition(taskId, Commit, Push))]
  }

  lemma TwoGrants(taskId: string)
    ensures var steps := MovedBeforeCall(taskId);
      var w := Next(Next(Boot(taskId, Commit), steps[0]), steps[1]);
      && w.actions == map[] && w.trace == [] && w.authority.ctx.taskId == taskId && w.authority.ctx.gate == Commit
      && w.authority.ctx.order == [1, 2]
      && w.authority.ctx.grants == map[1 := GrantOf(CommitEvent(taskId)), 2 := GrantOf(PushEvent(taskId))]
  {
  }

  lemma CommitRefusedAtPush(ctx: Context, taskId: string)
    requires ctx.gate == Push
    ensures !Decide(ctx, CommitRequest(taskId)).Allow?
  {
    AllowExactly(ctx, CommitRequest(taskId));
    assert GitCommit in CommitRequest(taskId).classes && GitCommit !in AllowedClasses(Push);
  }

  lemma GateMoves(w: World, taskId: string)
    requires w.authority.ctx.taskId == taskId && w.authority.ctx.gate == Commit
    requires 2 in w.authority.ctx.grants && w.authority.ctx.grants[2] == GrantOf(PushEvent(taskId))
    ensures var w' := Next(w, Owner(Transition(taskId, Commit, Push)));
      w'.actions == w.actions && w'.trace == w.trace && w'.authority.ctx == w.authority.ctx.(gate := Push)
  {
    assert HasActiveGrant(w.authority.ctx.grants, PushApproved) by {
      assert w.authority.ctx.grants[2].token == PushApproved && w.authority.ctx.grants[2].status == Active;
    }
  }

  /** The commit is proposed and the grants are as issued. */
  predicate CommitProposed(w: World, taskId: string) {
    && w.actions == map[1 := Action(CommitRequest(taskId), Allow(Some(1)), Proposing)] && w.trace == []
    && w.authority.ctx.grants == map[1 := GrantOf(CommitEvent(taskId)), 2 := GrantOf(PushEvent(taskId))]
  }

  lemma ProposedWithTwoGrants(taskId: string)
    ensures var steps := MovedBeforeCall(taskId);
      var w := Next(Next(Next(Boot(taskId, Commit), steps[0]), steps[1]), steps[2]);
      CommitProposed(w, taskId) && w.authority.ctx.taskId == taskId && w.authority.ctx.gate == Commit
  {
    var steps := MovedBeforeCall(taskId);
    TwoGrants(taskId);
    CommitIsAllowed(Next(Next(Boot(taskId, Commit), steps[0]), steps[1]).authority.ctx);
  }

  lemma ProposedIsCalled(w: World, taskId: string)
    requires CommitProposed(w, taskId)
    ensures Next(w, ProposedRecorded(1, true, true)).trace == [Called(1, Some(1), [GitCommit])]
  {
  }

  /**
   * A whole run of it: the commit decided at the commit gate is called at the push gate, where the policy refuses it.
   */
  lemma CommitIsCalledAtPush(taskId: string)
    ensures var w := Run(Boot(taskId, Commit), MovedBeforeCall(taskId));
      && w.authority.ctx.gate == Push && !Decide(w.authority.ctx, CommitRequest(taskId)).Allow?
      && Next(w, ProposedRecorded(1, true, true)).trace == [Called(1, Some(1), [GitCommit])]
  {
    var steps := MovedBeforeCall(taskId);
    RunFour(Boot(taskId, Commit), steps[0], steps[1], steps[2], steps[3]);
    ProposedWithTwoGrants(taskId);
    var w3 := Next(Next(Next(Boot(taskId, Commit), steps[0]), steps[1]), steps[2]);
    GateMoves(w3, taskId);
    var w := Next(w3, steps[3]);
    ProposedIsCalled(w, taskId);
    CommitRefusedAtPush(w.authority.ctx, taskId);
  }

  lemma RunTwo(w: World, s: Step, t: Step)
    ensures Run(w, [s, t]) == Next(Next(w, s), t)
  {
    assert [s, t][1..] == [t] && [t][1..] == [];
    assert Run(Next(w, s), [t]) == Run(Next(Next(w, s), t), []);
  }

  lemma RunFour(w: World, a: Step, b: Step, c: Step, d: Step)
    ensures Run(w, [a, b, c, d]) == Next(Next(Next(Next(w, a), b), c), d)
  {
    assert [a, b, c, d] == [a, b] + [c, d];
    RunConcat(w, [a, b], [c, d]);
    RunTwo(w, a, b);
    RunTwo(Next(Next(w, a), b), c, d);
  }

  // ---------------------------------------------------------------- the gateway class

  /** What happens around one `execute`: the steps others take while it awaits, and how each of its own calls ends. */
  datatype Surroundings = Surroundings(
    whileProposing: seq<Step>, proposedOk: bool, adapterKnown: bool,
    whileRunning: seq<Step>, outcome: Outcome,
    whileRecording: seq<Step>, executedOk: bool)

  function Script(a: ActionId, req: Request, env: Surroundings): seq<Step> {
    [Propose(a, req)] + env.whileProposing + [ProposedRecorded(a, env.proposedOk, env.adapterKnown)] +
    env.whileRunning + [AdapterReturns(a, env.outcome)] + env.whileRecording + [ExecutedRecorded(a, env.executedOk)]
  }

  /** Steps of other calls and of the owner: they never settle promises that belong to action `a`. */
  predicate Foreign(steps: seq<Step>, a: ActionId) {
    forall s | s in steps :: s.Owner? || s.action != a
  }

  lemma {:induction false} ForeignLeavesAction(w: World, steps: seq<Step>, a: ActionId)
    requires Foreign(steps, a) && a in w.actions
    ensures a in Run(w, steps).actions && Run(w, steps).actions[a] == w.actions[a]
    decreases |steps|
  {
    if steps != [] {
      assert steps[0] in steps;
      ForeignLeavesAction(Next(w, steps[0]), steps[1..], a);
    }
  }

  lemma RunOne(w: World, steps: seq<Step>, s: Step)
    ensures Run(w, steps + [s]) == Next(Run(w, steps), s)
  {
    RunConcat(w, steps, [s]);
    assert Run(Run(w, steps), [s]) == Run(Next(Run(w, steps), s), []);
  }

  class GovernedToolGateway {
    const processor: OwnerEventProcessor
    var actions: map<ActionId, Action>
    var trace: seq<AdapterEvent>

    function View(): World
      reads this, processor
    {
      World(processor.State(), actions, trace)
    }

    constructor (processor: OwnerEventProcessor)
      ensures this.processor == processor && View() == World(processor.State(), map[], [])
    {
      this.processor := processor;
      actions := map[];
      trace := [];
    }

    method Mark(a: ActionId, p: Phase)
      requires a in actions
      modifies this
      ensures View() == Put(old(View()), a, p)
    {
      actions := actions[a := actions[a].(phase := p)];
    }

    /** The owner's operations, run by the composition root. */
    method OwnerActs(op: Op)
      modifies processor
      ensures View() == Next(old(View()), Owner(op))
    {
      match op
      case ApplyEvent(e) =>
        if OwnerMay(View(), op) { var _ := processor.ApplyOwnerAuthorityEvent(e); }
      case Transition(t, from, to) => var _ := processor.TransitionGateFromEvent(t, from, to);
      case SetScope(t, files) => var _ := processor.SetApprovedScopeFromPlan(t, files);
      case Revoke(t) => processor.RevokeGrant(t);
      case _ =>
    }

    /** `execute` up to its first await: evaluate against the current context. */
    method Evaluated(a: ActionId, req: Request)
      modifies this
      ensures View() == Next(old(View()), Propose(a, req))
    {
      if a !in actions {
        var d := Evaluate(processor.View(), req);
        actions := actions[a := Action(req, d, Proposing)];
      }
    }

    /** From the proposal's audit reply to the adapter call. */
    method ProposalRecorded(a: ActionId, ok: bool, adapterKnown: bool)
      modifies this, processor
      ensures View() == Next(old(View()), ProposedRecorded(a, ok, adapterKnown))
    {
      if a !in actions || actions[a].phase != Proposing { return; }
      if !ok { Mark(a, Closed(AuditFailed)); return; }
      var d := actions[a].decision;
      if !d.Allow? { Mark(a, Closed(NotAllowed)); return; }
      if !adapterKnown { Mark(a, Closed(ToolNotRegistered)); return; }
      if d.grant.Some? {
        var reserved := processor.Reserve(d.grant.value, a);
        if reserved.Err? { Mark(a, Closed(GrantRejected)); return; }
      }
      trace := trace + [Called(a, d.grant, actions[a].req.classes)];
      Mark(a, Running);
    }

    /** From the adapter's reply (or throw) to the call that records it. */
    method AdapterReturned(a: ActionId, o: Outcome)
      modifies this, processor
      ensures View() == Next(old(View()), AdapterReturns(a, o))
    {
      if a !in actions || actions[a].phase != Running || !actions[a].decision.Allow? { return; }
      var g := actions[a].decision.grant;
      trace := trace + [Returned(a, g, actions[a].req.classes, o)];
      if o == Malformed { Mark(a, Closed(SchemaRejected)); return; }
      if g.Some? {
        var r: Result<(), GrantError>;
        if o == Succeeded {
          r := processor.Consume(g.value, a);
        } else if o == Cancelled {
          r := processor.ReleaseForRetry(g.value, a);
        } else {
          r := processor.RequireReconciliation(g.value, a);
        }
        if r.Err? { Mark(a, Closed(GrantRejected)); return; }
      }
      Mark(a, if o == Threw then Closed(AdapterThrew) else Recording(o));
    }

    /** The audit reply for the executed action; a lost record forces reconciliation after the fact. */
    method ExecutionRecorded(a: ActionId, ok: bool)
      modifies this, processor
      ensures View() == Next(old(View()), ExecutedRecorded(a, ok))
    {
      if a !in actions || !actions[a].phase.Recording? || !actions[a].decision.Allow? { return; }
      if ok { Mark(a, Closed(Reported(actions[a].phase.outcome))); return; }
      var g := actions[a].decision.grant;
      if g.Some? { var _ := processor.RequireReconciliation(g.value, a); }
      Mark(a, Closed(AuditLost));
    }

    /** Everyone else, while this call awaits. */
    method Others(steps: seq<Step>)
      modifies this, processor
      ensures View() == Run(old(View()), steps)
    {
      for i := 0 to |steps|
        invariant View() == Run(old(View()), steps[..i])
      {
        assert steps[..i + 1] == steps[..i] + [steps[i]];
        RunOne(old(View()), steps[..i], steps[i]);
        match steps[i]
        case Owner(op) => OwnerActs(op);
        case Propose(a, req) => Evaluated(a, req);
        case ProposedRecorded(a, ok, known) => ProposalRecorded(a, ok, known);
        case AdapterReturns(a, o) => AdapterReturned(a, o);
        case ExecutedRecorded(a, ok) => ExecutionRecorded(a, ok);
      }
      assert steps[..|steps|] == steps;
    }

    /** An await of action `a`: others run, `a` itself stays where it is. */
    method Await(ghost start: World, ghost ran: seq<Step>, a: ActionId, steps: seq<Step>)
      requires Foreign(steps, a) && a in actions && View() == Run(start, ran)
      modifies this, processor
      ensures View() == Run(start, ran + steps)
      ensures a in actions && actions[a] == old(actions[a])
    {
      ForeignLeavesAction(View(), steps, a);
      RunConcat(start, ran, steps);
      Others(steps);
    }

    /** The part of `execute` after the adapter call was started. */
    method Finish(ghost start: World, ghost before: seq<Step>, a: ActionId, env: Surroundings)
      returns (reply: Reply, ghost ran: seq<Step>)
      requires Foreign(env.whileRunning, a) && Foreign(env.whileRecording, a)
      requires View() == Run(start, before) && InPhase(View(), a, Running) && actions[a].decision.Allow?
      modifies this, processor
      ensures before <= ran
      ensures ran <= before + env.whileRunning + [AdapterReturns(a, env.outcome)] + env.whileRecording
        + [ExecutedRecorded(a, env.executedOk)]
      ensures View() == Run(start, ran) && InPhase(View(), a, Closed(reply))
    {
      Await(start, before, a, env.whileRunning);
      ran := before + env.whileRunning;
      RunOne(start, ran, AdapterReturns(a, env.outcome));
      AdapterReturned(a, env.outcome);
      ran := ran + [AdapterReturns(a, env.outcome)];
      if actions[a].phase.Closed? { return actions[a].phase.reply, ran; }

      Await(start, ran, a, env.whileRecording);
      ran := ran + env.whileRecording;
      RunOne(start, ran, ExecutedRecorded(a, env.executedOk));
      ExecutionRecorded(a, env.executedOk);
      ran := ran + [ExecutedRecorded(a, env.executedOk)];
      return actions[a].phase.reply, ran;
    }

    /**
     * One whole `execute`, everyone else acting at each of its awaits. Whatever they do, the call is a run of
     * the step machine: a prefix of its script, ended by the reply it gives.
     */
    method Execute(a: ActionId, req: Request, env: Surroundings) returns (reply: Reply, ghost ran: seq<Step>)
      requires a !in actions
      requires Foreign(env.whileProposing, a) && Foreign(env.whileRunning, a) && Foreign(env.whileRecording, a)
      modifies this, processor
      ensures ran <= Script(a, req, env)
      ensures View() == Run(old(View()), ran)
      ensures InPhase(View(), a, Closed(reply))
    {
      ghost var start := View();
      Evaluated(a, req);
      RunOne(start, [], Propose(a, req));
      assert [] + [Propose(a, req)] == [Propose(a, req)];
      Await(start, [Propose(a, req)], a, env.whileProposing);
      ran := [Propose(a, req)] + env.whileProposing;

      RunOne(start, ran, ProposedRecorded(a, env.proposedOk, env.adapterKnown));
      ProposalRecorded(a, env.proposedOk, env.adapterKnown);
      ran := ran + [ProposedRecorded(a, env.proposedOk, env.adapterKnown)];
      if actions[a].phase.Closed? {
        reply := actions[a].phase.reply;
      } else {
        reply, ran := Finish(start, ran, a, env);
      }
    }
  }
}
