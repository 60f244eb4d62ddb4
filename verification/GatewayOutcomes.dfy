/**
 * What the gateway leaves behind: the status of a grant after each outcome and how long it stays so, and what the
 * reply of a call says about what was recorded, called and returned.
 */
module GatewayOutcomes {
  import opened Common
  import opened Policy
  import opened OwnerEvents
  import opened Gateway

  predicate InFlightUnder(w: World, a: ActionId, g: GrantId) { InPhase(w, a, Running) && Names(w.actions[a], g) }

  /** A reserved grant of an action in flight is reserved for that action, and every grant is past ISSUED. */
  ghost predicate FlightsReserved(w: World) {
    && (forall g | g in w.authority.ctx.grants :: w.authority.ctx.grants[g].status != GrantStatus.Issued)
    && (forall a, g | InFlightUnder(w, a, g) :: ReservedFor(w, a, g))
  }

  predicate ReservedFor(w: World, a: ActionId, g: GrantId) {
    g in w.authority.ctx.grants && w.authority.ctx.grants[g].status == Reserved ==>
      w.authority.ctx.grants[g].reservedFor == Some(a)
  }

  /** What one call on the processor leaves of a grant. */
  lemma GrantAfterCall(s: Authority, op: Op, g: GrantId)
    requires g in After(s, op).ctx.grants
    ensures var a := After(s, op).ctx.grants[g];
      && (a.status == GrantStatus.Issued ==> g in s.ctx.grants && s.ctx.grants[g].status == GrantStatus.Issued)
      && (a.status == Reserved ==>
            || (op.ReserveGrant? && op.grant == g && a.reservedFor == Some(op.action))
            || (g in s.ctx.grants && s.ctx.grants[g].status == Reserved
                && a.reservedFor == s.ctx.grants[g].reservedFor))
  {
  }

  /** A step takes an action to RUNNING only by reserving the grant it names for it, and no other step reserves. */
  lemma ReserverRuns(w: World, s: Step)
    ensures var op := OpOf(w, s);
      forall g, a :: op == Some(ReserveGrant(g, a)) && !s.Owner? ==>
        s.ProposedRecorded? && s.action == a && a in w.actions && Names(w.actions[a], g)
    ensures s.Owner? ==> var op := OpOf(w, s); op.Some? ==> !op.value.ReserveGrant?
  {
  }

  lemma FlightIsOldOrStarted(w: World, s: Step, a: ActionId, g: GrantId)
    requires InFlightUnder(Next(w, s), a, g)
    ensures InFlightUnder(w, a, g)
      || (s.ProposedRecorded? && s.action == a && InPhase(w, a, Proposing) && Names(w.actions[a], g)
          && OpOf(w, s) == Some(ReserveGrant(g, a)))
  {
  }

  lemma StartedIsReserved(w: World, s: Step, a: ActionId, g: GrantId)
    requires Inv(w) && InFlightUnder(Next(w, s), a, g) && !InFlightUnder(w, a, g)
    ensures ReservedFor(Next(w, s), a, g)
  {
    FlightIsOldOrStarted(w, s, a, g);
    OpIsTheEffect(w, s);
    assert DecisionSound(w, w.actions[a]);
  }

  lemma FlyingStaysReserved(w: World, s: Step, a: ActionId, g: GrantId)
    requires Inv(w) && InFlightUnder(Next(w, s), a, g) && InFlightUnder(w, a, g) && ReservedFor(w, a, g)
    ensures ReservedFor(Next(w, s), a, g)
  {
    var op, w' := OpOf(w, s), Next(w, s);
    OpIsTheEffect(w, s);
    assert DecisionSound(w, w.actions[a]);
    assert Use(w.trace, g) == InFlight(a);
    if op.Some? && g in w'.authority.ctx.grants {
      GrantAfterCall(w.authority, op.value, g);
      ReserverRuns(w, s);
      if op.value.ReserveGrant? && op.value.grant == g { assert !Reservable(w, g); }
    }
  }

  lemma NextKeepsReserved(w: World, s: Step)
    requires Inv(w) && FlightsReserved(w)
    ensures FlightsReserved(Next(w, s))
  {
    var w' := Next(w, s);
    OpIsTheEffect(w, s);
    forall g | g in w'.authority.ctx.grants ensures w'.authority.ctx.grants[g].status != GrantStatus.Issued {
      if OpOf(w, s).Some? { GrantAfterCall(w.authority, OpOf(w, s).value, g); }
    }
    forall a, g | InFlightUnder(w', a, g) ensures ReservedFor(w', a, g) {
      if InFlightUnder(w, a, g) { FlyingStaysReserved(w, s, a, g); } else { StartedIsReserved(w, s, a, g); }
    }
  }

  lemma {:induction false} RunKeepsReserved(w: World, steps: seq<Step>)
    requires Inv(w) && FlightsReserved(w)
    ensures Inv(Gateway.Run(w, steps)) && FlightsReserved(Gateway.Run(w, steps))
    decreases |steps|
  {
    if steps != [] {
      NextKeepsInv(w, steps[0]);
      NextKeepsReserved(w, steps[0]);
      RunKeepsReserved(Next(w, steps[0]), steps[1..]);
    }
  }

  function Reached(taskId: string, gate: Gate, steps: seq<Step>): World { Gateway.Run(Boot(taskId, gate), steps) }

  lemma ReachedIsSound(taskId: string, gate: Gate, steps: seq<Step>)
    ensures Inv(Reached(taskId, gate, steps)) && FlightsReserved(Reached(taskId, gate, steps))
  {
    BootInv(taskId, gate);
    RunKeepsReserved(Boot(taskId, gate), steps);
  }

  // ---------------------------------------------------------------- what an outcome leaves of the grant

  predicate Ambiguous(o: Outcome) { o in {TimedOut, Failed, Denied, UnknownResult, Threw} }

  function StatusOf(w: World, g: GrantId): Option<GrantStatus> {
    if g in w.authority.ctx.grants then Some(w.authority.ctx.grants[g].status) else None
  }

  /**
   * In every run, when the adapter comes back to an action in flight under a single-use grant: a success leaves the
   * grant CONSUMED unless a lost audit had already sent it to reconciliation, a proven non-execution leaves it ACTIVE,
   * every ambiguous outcome leaves it RECONCILIATION_REQUIRED, and a result that fails its schema leaves it alone.
   */
  lemma OutcomeSettlesGrant(taskId: string, gate: Gate, steps: seq<Step>, a: ActionId, g: GrantId, o: Outcome)
    requires InFlightUnder(Reached(taskId, gate, steps), a, g)
    ensures var w := Reached(taskId, gate, steps); var w' := Next(w, AdapterReturns(a, o));
      && StatusOf(w, g) in {Some(Reserved), Some(Consumed), Some(ReconciliationRequired)}
      && StatusOf(w', g) == (match o
           case Succeeded => if StatusOf(w, g) == Some(ReconciliationRequired) then StatusOf(w, g) else Some(Consumed)
           case Cancelled => Some(Active)
           case Malformed => StatusOf(w, g)
           case _ => Some(ReconciliationRequired))
      && (o == Succeeded && StatusOf(w, g) != Some(Reserved) ==> w'.actions[a].phase == Closed(GrantRejected))
      && (o != Cancelled && o != Malformed ==> Use(w'.trace, g) == Spent)
  {
    var w := Reached(taskId, gate, steps);
    ReachedIsSound(taskId, gate, steps);
    assert DecisionSound(w, w.actions[a]) && Names(w.actions[a], g);
    assert Use(w.trace, g) == InFlight(a);
    assert !Reservable(w, g) && ReservedFor(w, a, g);
    SettledStatus(w, a, g, o);
  }

  lemma SettledStatus(w: World, a: ActionId, g: GrantId, o: Outcome)
    requires InFlightUnder(w, a, g) && Use(w.trace, g) == InFlight(a) && ReservedFor(w, a, g)
    requires g in w.authority.ctx.grants && w.authority.ctx.grants[g].token != ImplementationApproved
    requires w.authority.ctx.grants[g].status !in {GrantStatus.Issued, Active}
    ensures var w' := Next(w, AdapterReturns(a, o));
      && StatusOf(w', g) == (match o
           case Succeeded => if StatusOf(w, g) == Some(ReconciliationRequired) then StatusOf(w, g) else Some(Consumed)
           case Cancelled => Some(Active)
           case Malformed => StatusOf(w, g)
           case _ => Some(ReconciliationRequired))
      && (o == Succeeded && StatusOf(w, g) != Some(Reserved) ==> w'.actions[a].phase == Closed(GrantRejected))
      && (o != Cancelled && o != Malformed ==> Use(w'.trace, g) == Spent)
  {
    UseAppend(w.trace, Returned(a, Some(g), w.actions[a].req.classes, o));
  }

  /** A lost execution audit sends the grant to reconciliation, whatever the outcome was. */
  lemma LostAuditNeedsReconciliation(taskId: string, gate: Gate, steps: seq<Step>, a: ActionId, g: GrantId)
    requires var w := Reached(taskId, gate, steps);
      a in w.actions && w.actions[a].phase.Recording? && Names(w.actions[a], g)
    ensures var w' := Next(Reached(taskId, gate, steps), ExecutedRecorded(a, false));
      StatusOf(w', g) == Some(ReconciliationRequired) && w'.actions[a].phase == Closed(AuditLost)
  {
    var w := Reached(taskId, gate, steps);
    ReachedIsSound(taskId, gate, steps);
    assert DecisionSound(w, w.actions[a]);
  }

  predicate Settled(w: World, g: GrantId) {
    Use(w.trace, g) == Spent && StatusOf(w, g) in {Some(Consumed), Some(ReconciliationRequired)}
  }

  predicate LosesAuditUnder(w: World, s: Step, g: GrantId) {
    s.ExecutedRecorded? && !s.ok && s.action in w.actions && Names(w.actions[s.action], g)
  }

  lemma SettledAfterCall(s: Authority, op: Op, g: GrantId)
    requires g in s.ctx.grants && s.ctx.grants[g].status in {Consumed, ReconciliationRequired}
    requires !(op.ApplyEvent? && op.event.eventId == g) && !(op.ReleaseGrant? && op.grant == g)
    ensures g in After(s, op).ctx.grants
    ensures After(s, op).ctx.grants[g].status == s.ctx.grants[g].status
      || (op.Reconcile? && op.grant == g && After(s, op).ctx.grants[g].status == ReconciliationRequired)
  {
    if op.Revoke? { FirstRevocableIs(s, s.ctx.order, op.token); }
  }

  lemma SettledThrough(w: World, s: Step, g: GrantId)
    requires Inv(w) && Settled(w, g)
    ensures StatusOf(Next(w, s), g) == StatusOf(w, g)
      || (LosesAuditUnder(w, s, g) && StatusOf(Next(w, s), g) == Some(ReconciliationRequired))
  {
    var op := OpOf(w, s);
    OpIsTheEffect(w, s);
    forall a ensures !InFlightUnder(w, a, g) {
      assert Use(w.trace, g) == InFlight(a) <==> InFlightUnder(w, a, g);
    }
    if op.Some? { SettledAfterCall(w.authority, op.value, g); }
  }

  /**
   * And so it stays: in every run that follows, a spent grant that needs reconciliation goes on needing it, and a
   * consumed one leaves CONSUMED only for reconciliation, when the audit of an action under it is lost.
   */
  lemma {:induction false} SettledForGood(w: World, steps: seq<Step>, g: GrantId)
    requires Inv(w) && Settled(w, g)
    ensures Settled(Gateway.Run(w, steps), g)
    ensures StatusOf(w, g) == Some(ReconciliationRequired) ==>
      StatusOf(Gateway.Run(w, steps), g) == Some(ReconciliationRequired)
    ensures StatusOf(Gateway.Run(w, steps), g) != StatusOf(w, g) ==>
      exists k | 0 <= k < |steps| :: LosesAuditUnder(Gateway.Run(w, steps[..k]), steps[k], g)
    decreases |steps|
  {
    if steps != [] {
      var w' := Next(w, steps[0]);
      SettledThrough(w, steps[0], g);
      SpentStaysSpent(w, steps[0], g);
      NextKeepsInv(w, steps[0]);
      SettledForGood(w', steps[1..], g);
      if LosesAuditUnder(w, steps[0], g) {
        assert LosesAuditUnder(Gateway.Run(w, steps[..0]), steps[0], g);
      } else if StatusOf(Gateway.Run(w, steps), g) != StatusOf(w, g) {
        var k :| 0 <= k < |steps[1..]| && LosesAuditUnder(Gateway.Run(w', steps[1..][..k]), steps[1..][k], g);
        assert steps[..k + 1][1..] == steps[1..][..k] && steps[..k + 1][0] == steps[0];
        assert LosesAuditUnder(Gateway.Run(w, steps[..k + 1]), steps[k + 1], g);
      }
    }
  }

  // ---------------------------------------------------------------- what a reply says

  predicate WasCalled(w: World, a: ActionId) {
    exists i | 0 <= i < |w.trace| :: w.trace[i].Called? && w.trace[i].action == a
  }

  predicate CameBack(w: World, a: ActionId) {
    exists i | 0 <= i < |w.trace| :: w.trace[i].Returned? && w.trace[i].action == a
  }

  predicate CameBackWith(w: World, a: ActionId, o: Outcome) {
    exists i | 0 <= i < |w.trace| :: w.trace[i].Returned? && w.trace[i].action == a && w.trace[i].outcome == o
  }

  /** What the phase of an action says about what happened, `done` being the steps so far. */
  predicate PhaseIsTrue(w: World, done: seq<Step>, a: ActionId)
    requires a in w.actions
  {
    match w.actions[a].phase
    case Proposing => !WasCalled(w, a) && !CameBack(w, a)
    case Running => WasCalled(w, a) && !CameBack(w, a)
    case Recording(o) => CameBackWith(w, a, o) && o != Threw && o != Malformed
    case Closed(AuditFailed) => ProposedRecordedAs(done, a, false) && !WasCalled(w, a)
    case Closed(NotAllowed) => !w.actions[a].decision.Allow? && !WasCalled(w, a)
    case Closed(ToolNotRegistered) => ProposedRecorded(a, true, false) in done && !WasCalled(w, a)
    case Closed(GrantRejected) => w.actions[a].decision.Allow? && w.actions[a].decision.grant.Some?
    case Closed(AdapterThrew) => CameBackWith(w, a, Threw)
    case Closed(SchemaRejected) => CameBackWith(w, a, Malformed)
    case Closed(Reported(o)) =>
      CameBackWith(w, a, o) && o != Threw && o != Malformed && ExecutedRecorded(a, true) in done
    case Closed(AuditLost) => CameBack(w, a) && ExecutedRecorded(a, false) in done
  }

  predicate ProposedRecordedAs(done: seq<Step>, a: ActionId, ok: bool) {
    exists known :: ProposedRecorded(a, ok, known) in done
  }

  ghost predicate Truthful(w: World, done: seq<Step>) {
    && (forall a | a in w.actions :: PhaseIsTrue(w, done, a))
    && (forall i | 0 <= i < |w.trace| && w.trace[i].Called? :: ProposedRecorded(w.trace[i].action, true, true) in done)
    && (forall i | 0 <= i < |w.trace| :: w.trace[i].action in w.actions)
  }

  /** What one step adds to the trace: at most one event, about its own action. */
  lemma EventOfStep(w: World, s: Step)
    ensures var w' := Next(w, s);
      w'.trace == w.trace ||
      (!s.Owner? && s.action in w.actions && |w'.trace| == |w.trace| + 1 &&
       var e := w'.trace[|w.trace|];
       && w'.trace == w.trace + [e] && e.action == s.action
       && (if e.Called? then s == ProposedRecorded(s.action, true, true) && InPhase(w, s.action, Proposing)
           else s == AdapterReturns(s.action, e.outcome) && InPhase(w, s.action, Running)))
  {
  }

  lemma SeenAfter(w: World, s: Step, a: ActionId, o: Outcome)
    ensures var w' := Next(w, s); var e := if w'.trace == w.trace then None else Some(w'.trace[|w'.trace| - 1]);
      && (WasCalled(w', a) <==> WasCalled(w, a) || (e.Some? && e.value.Called? && e.value.action == a))
      && (CameBack(w', a) <==> CameBack(w, a) || (e.Some? && e.value.Returned? && e.value.action == a))
      && (CameBackWith(w', a, o) <==>
            CameBackWith(w, a, o) || (e.Some? && e.value.Returned? && e.value.action == a && e.value.outcome == o))
  {
    var w' := Next(w, s);
    EventOfStep(w, s);
    forall i | 0 <= i < |w.trace| ensures w'.trace[i] == w.trace[i] {}
  }

  lemma OthersKeepPhase(w: World, s: Step, a: ActionId)
    requires a in w.actions && (s.Owner? || s.action != a)
    ensures a in Next(w, s).actions && Next(w, s).actions[a] == w.actions[a]
  {
  }

  lemma OthersStayTrue(w: World, done: seq<Step>, s: Step, a: ActionId)
    requires a in w.actions && (s.Owner? || s.action != a) && PhaseIsTrue(w, done, a)
    ensures a in Next(w, s).actions && PhaseIsTrue(Next(w, s), done + [s], a)
  {
    var phase := w.actions[a].phase;
    OthersKeepPhase(w, s, a);
    EventOfStep(w, s);
    SeenAfter(w, s, a, match phase case Recording(o) => o case Closed(Reported(o)) => o
      case Closed(AdapterThrew) => Threw case _ => Malformed);
    if phase == Closed(AuditFailed) {
      var known :| ProposedRecorded(a, false, known) in done;
      assert ProposedRecorded(a, false, known) in done + [s];
    }
  }

  lemma ProposedIsTrue(w: World, done: seq<Step>, a: ActionId, ok: bool, known: bool)
    requires InPhase(w, a, Proposing) && PhaseIsTrue(w, done, a)
    ensures var s := ProposedRecorded(a, ok, known);
      a in Next(w, s).actions && PhaseIsTrue(Next(w, s), done + [s], a)
  {
    var s := ProposedRecorded(a, ok, known);
    var w' := Next(w, s);
    EventOfStep(w, s);
    SeenAfter(w, s, a, Malformed);
    assert s in done + [s];
    if w'.trace != w.trace { StartsRunning(w, a, known); }
  }

  lemma StartsRunning(w: World, a: ActionId, known: bool)
    requires a in w.actions && Start(w, a, known).trace != w.trace
    ensures InPhase(Start(w, a, known), a, Running)
  {
  }

  lemma ReturnedIsTrue(w: World, done: seq<Step>, a: ActionId, o: Outcome)
    requires InPhase(w, a, Running) && w.actions[a].decision.Allow?
    ensures var s := AdapterReturns(a, o); a in Next(w, s).actions && PhaseIsTrue(Next(w, s), done + [s], a)
  {
    var s := AdapterReturns(a, o);
    EventOfStep(w, s);
    SettledAction(w, a, o);
    SeenAfter(w, s, a, o);
  }

  lemma RecordedIsTrue(w: World, done: seq<Step>, a: ActionId, ok: bool)
    requires a in w.actions && w.actions[a].phase.Recording? && w.actions[a].decision.Allow?
    requires PhaseIsTrue(w, done, a)
    ensures var s := ExecutedRecorded(a, ok); a in Next(w, s).actions && PhaseIsTrue(Next(w, s), done + [s], a)
  {
    var s := ExecutedRecorded(a, ok);
    EventOfStep(w, s);
    SeenAfter(w, s, a, w.actions[a].phase.outcome);
    assert s in done + [s];
  }

  lemma OwnStaysTrue(w: World, done: seq<Step>, s: Step)
    requires !s.Owner? && s.action in w.actions && PhaseIsTrue(w, done, s.action)
    ensures s.action in Next(w, s).actions && PhaseIsTrue(Next(w, s), done + [s], s.action)
  {
    var a := s.action;
    if Next(w, s) == w {
      TruthKeeps(w, done, s, a);
    } else {
      match s
      case ProposedRecorded(_, ok, known) => ProposedIsTrue(w, done, a, ok, known);
      case AdapterReturns(_, o) => ReturnedIsTrue(w, done, a, o);
      case ExecutedRecorded(_, ok) => RecordedIsTrue(w, done, a, ok);
      case Propose(_, _) =>
    }
  }

  lemma TruthKeeps(w: World, done: seq<Step>, s: Step, a: ActionId)
    requires a in w.actions && PhaseIsTrue(w, done, a)
    ensures PhaseIsTrue(w, done + [s], a)
  {
    if w.actions[a].phase == Closed(AuditFailed) {
      var known :| ProposedRecorded(a, false, known) in done;
      assert ProposedRecorded(a, false, known) in done + [s];
    }
  }

  lemma NextIsTruthful(w: World, done: seq<Step>, s: Step)
    requires Truthful(w, done)
    ensures Truthful(Next(w, s), done + [s])
  {
    var w' := Next(w, s);
    EventOfStep(w, s);
    NextAdvances(w, s);
    forall a | a in w'.actions ensures PhaseIsTrue(w', done + [s], a) {
      if a !in w.actions {
        ProposedAnew(w, s, a);
        NeverSeen(w, a);
      } else if s.Owner? || s.action != a {
        OthersStayTrue(w, done, s, a);
      } else {
        OwnStaysTrue(w, done, s);
      }
    }
    forall i | 0 <= i < |w'.trace| && w'.trace[i].Called?
      ensures ProposedRecorded(w'.trace[i].action, true, true) in done + [s]
    {
      if i < |w.trace| { assert w'.trace[i] == w.trace[i]; }
    }
    forall i | 0 <= i < |w'.trace| ensures w'.trace[i].action in w'.actions {
      if i < |w.trace| { assert w'.trace[i] == w.trace[i]; }
    }
  }

  lemma ProposedAnew(w: World, s: Step, a: ActionId)
    requires a !in w.actions && a in Next(w, s).actions
    ensures Next(w, s).actions[a].phase == Proposing && Next(w, s).trace == w.trace
  {
  }

  lemma NeverSeen(w: World, a: ActionId)
    requires a !in w.actions && forall i | 0 <= i < |w.trace| :: w.trace[i].action in w.actions
    ensures !WasCalled(w, a) && !CameBack(w, a)
  {
  }

  lemma {:induction false} RunIsTruthful(taskId: string, gate: Gate, steps: seq<Step>)
    ensures Truthful(Reached(taskId, gate, steps), steps)
    decreases |steps|
  {
    if steps != [] {
      var n := |steps| - 1;
      RunIsTruthful(taskId, gate, steps[..n]);
      NextIsTruthful(Reached(taskId, gate, steps[..n]), steps[..n], steps[n]);
      assert steps == steps[..n] + [steps[n]];
      RunOne(Boot(taskId, gate), steps[..n], steps[n]);
    }
  }

  /** In every run: no adapter is called before its action was recorded as proposed, with the tool known. */
  lemma RecordedBeforeCalled(taskId: string, gate: Gate, steps: seq<Step>, i: nat)
    requires i < |Reached(taskId, gate, steps).trace| && Reached(taskId, gate, steps).trace[i].Called?
    ensures ProposedRecorded(Reached(taskId, gate, steps).trace[i].action, true, true) in steps
  {
    RunIsTruthful(taskId, gate, steps);
  }

  /**
   * In every run: a call that was refused or could not be recorded never reached an adapter, and one that reports an
   * outcome got that very outcome from its adapter and has it recorded.
   */
  lemma RepliesAreTrue(taskId: string, gate: Gate, steps: seq<Step>, a: ActionId)
    requires a in Reached(taskId, gate, steps).actions && Reached(taskId, gate, steps).actions[a].phase.Closed?
    ensures var w := Reached(taskId, gate, steps); var reply := w.actions[a].phase.reply;
      && (reply in {AuditFailed, NotAllowed, ToolNotRegistered} ==> !WasCalled(w, a))
      && (reply == NotAllowed ==> !w.actions[a].decision.Allow?)
      && (reply.Reported? ==>
            && CameBackWith(w, a, reply.outcome) && reply.outcome != Threw && reply.outcome != Malformed
            && ExecutedRecorded(a, true) in steps)
      && (reply == AdapterThrew ==> CameBackWith(w, a, Threw))
      && (reply == SchemaRejected ==> CameBackWith(w, a, Malformed))
      && (reply == AuditLost ==> CameBack(w, a) && ExecutedRecorded(a, false) in steps)
  {
    RunIsTruthful(taskId, gate, steps);
    assert PhaseIsTrue(Reached(taskId, gate, steps), steps, a);
  }
}
