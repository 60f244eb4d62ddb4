/**
 * The run coordinator: an event-sourced loop over dispatch, review and repair, the two ways a
 * suspended run is resumed from its ledger, and the two replay folds that do it.
 */
module RunCoordinator {
  import opened Common

  datatype RunState = Starting | Running | Evaluating | Repairing | WaitingForOwner | Reconciling | Closed | Blocked

  datatype AgentStatus =
    | Created | Queued | AgentStarting | AgentRunning | WaitingForTool | WaitingForInput | Cancelling
    | Completed | Failed | Cancelled | Interrupted | Unknown

  datatype StatusClass = NonTerminal | Terminal | Ambiguous

  function ClassifyStatus(s: AgentStatus): StatusClass {
    match s
    case Completed | Failed | Cancelled | Interrupted => Terminal
    case Unknown => Ambiguous
    case _ => NonTerminal
  }

  /** The fields the coordinator reads or rewrites; the others are carried along unchanged. */
  datatype WorkPackage = WorkPackage(id: nat, objective: string)

  datatype Pending = Pending(action: Option<string>, gate: Option<string>, authority: Option<string>)

  const NOTHING_PENDING := Pending(None, None, None)

  datatype Verdict =
    | Pass(nextAction: Option<string>)
    | FailRepairable(findings: seq<string>, constraints: Option<string>)
    | NeedsEvidence(findings: seq<string>)
    | AmbiguousSideEffect
    | OwnerDecisionRequired(pending: Pending)
    | Complete
    | VerdictBlocked

  datatype Body =
    | RunStarted(attempt: nat, wp: WorkPackage, pending: Pending)
    | RunRepairStarted(attempt: nat, wp: WorkPackage, pending: Pending)
    | RunDispatched(attempt: nat, runId: string)
    | RunCompleted(attempt: nat)
    | EvaluationFailedRepairable(attempt: nat, repairAttempts: nat)
    | EvaluationNeedsEvidence(attempt: nat, repairAttempts: nat)
    | EvaluationAmbiguous(attempt: nat)
    | EvaluationOwnerDecision(attempt: nat, pending: Pending)
    | EvaluationPassed(attempt: nat, nextAction: Option<string>)
    | RunClosed(attempt: nat)
    | RunBlocked(attempt: nat, reason: string)
    | RunResumed(attempt: nat, authority: string)
    | ReconciliationOutcome(attempt: nat, safeToRetry: bool)

  datatype Event = Event(revision: nat, body: Body)

  /**
   * What the bridge, the reviewer and the ledger store do in one round. `status` is the first poll, `polls` the later
   * ones until the time limit. An append may fail as well: losing RUN_DISPATCHED ends a round like DispatchThrows,
   * losing RUN_COMPLETED like StatusThrows, and VerdictLost is the round whose verdict is not recorded.
   */
  datatype Round =
    | DispatchThrows
    | StatusThrows(runId: string)
    | VerdictLost(runId: string)
    | Judged(runId: string, status: AgentStatus, polls: seq<AgentStatus>, result: Option<AgentStatus>,
      review: Option<Verdict>)

  // ---------------------------------------------------------------- one round, as a specification

  /** The status the polling loop stops at: the first that is not NON_TERMINAL, else the last before the time limit. */
  function Settled(first: AgentStatus, later: seq<AgentStatus>): AgentStatus
    decreases |later|
  {
    if ClassifyStatus(first) != NonTerminal || later == [] then first else Settled(later[0], later[1..])
  }

  function VerdictOf(settled: AgentStatus, result: Option<AgentStatus>, review: Option<Verdict>): Verdict {
    if ClassifyStatus(settled) != Terminal || result.None? then AmbiguousSideEffect
    else match result.value
      case Cancelled | Interrupted => AmbiguousSideEffect
      case Failed => FailRepairable(["Run failed naturally, repairing."], None)
      case _ => if review.Some? then review.value else AmbiguousSideEffect
  }

  function Join(parts: seq<string>): string {
    if parts == [] then "" else if |parts| == 1 then parts[0] else parts[0] + ";" + Join(parts[1..])
  }

  function RepairObjective(findings: seq<string>, constraints: Option<string>, original: string): string {
    "Repair feedback: " + Join(findings) + "\nOriginal: " + original +
    if constraints.Some? then "\nRepair Constraints: " + constraints.value else ""
  }

  function EvidenceObjective(findings: seq<string>, original: string): string {
    "Needs evidence: " + Join(findings) + "\nOriginal: " + original
  }

  predicate Present(s: Option<string>) { s.Some? && s.value != "" }

  /** The loop's locals. `nextId` is the supply of fresh identifiers. */
  datatype Loop = Loop(state: RunState, wp: WorkPackage, attempt: nat, pending: Pending, repairs: nat, nextId: nat)

  /** How an iteration, or the whole loop, leaves: on to the next round, a normal return, or a throw. */
  datatype Flow = Continue | Returned | Threw

  datatype Leg = Leg(bodies: seq<Body>, loop: Loop, flow: Flow)

  const MAX_REPAIRS := "MAX_REPAIR_ATTEMPTS_EXCEEDED"

  /** What a verdict appends to the ledger and does to the locals. */
  function Judge(max: nat, l: Loop, v: Verdict): Leg {
    match v
    case FailRepairable(findings, constraints) =>
      if l.repairs >= max then Leg([RunBlocked(l.attempt, MAX_REPAIRS)], l.(state := Blocked), Returned)
      else Leg([EvaluationFailedRepairable(l.nextId, l.repairs + 1)],
               l.(state := Repairing, repairs := l.repairs + 1, attempt := l.nextId, nextId := l.nextId + 2,
                  wp := WorkPackage(l.nextId + 1, RepairObjective(findings, constraints, l.wp.objective))), Continue)
    case NeedsEvidence(findings) =>
      if l.repairs >= max then Leg([RunBlocked(l.attempt, MAX_REPAIRS)], l.(state := Blocked), Returned)
      else Leg([EvaluationNeedsEvidence(l.nextId, l.repairs + 1)],
               l.(state := Repairing, repairs := l.repairs + 1, attempt := l.nextId, nextId := l.nextId + 2,
                  wp := WorkPackage(l.nextId + 1, EvidenceObjective(findings, l.wp.objective))), Continue)
    case AmbiguousSideEffect => Leg([EvaluationAmbiguous(l.attempt)], l.(state := Reconciling), Returned)
    case OwnerDecisionRequired(p) =>
      Leg([EvaluationOwnerDecision(l.attempt, p)], l.(state := WaitingForOwner, pending := p), Returned)
    case Pass(next) =>
      if !Present(next) then Leg([EvaluationPassed(l.attempt, next)], l, Threw)
      else Leg([EvaluationPassed(l.attempt, next)],
               l.(state := Starting, attempt := l.nextId + 1, nextId := l.nextId + 2,
                  wp := WorkPackage(l.nextId, next.value)), Continue)
    case Complete => Leg([RunClosed(l.attempt)], l.(state := Closed), Returned)
    case VerdictBlocked => Leg([RunBlocked(l.attempt, "BLOCKED")], l.(state := Blocked), Returned)
  }

  function Opening(l: Loop): Body {
    if l.state == Starting then RunStarted(l.attempt, l.wp, l.pending) else RunRepairStarted(l.attempt, l.wp, l.pending)
  }

  function OneRound(max: nat, l: Loop, r: Round): Leg {
    match r
    case DispatchThrows => Leg([Opening(l)], l.(state := Running), Threw)
    case StatusThrows(runId) => Leg([Opening(l), RunDispatched(l.attempt, runId)], l.(state := Running), Threw)
    case VerdictLost(runId) =>
      Leg([Opening(l), RunDispatched(l.attempt, runId), RunCompleted(l.attempt)], l.(state := Evaluating), Threw)
    case Judged(runId, status, polls, result, review) =>
      var j := Judge(max, l.(state := Evaluating), VerdictOf(Settled(status, polls), result, review));
      Leg([Opening(l), RunDispatched(l.attempt, runId), RunCompleted(l.attempt)] + j.bodies, j.loop, j.flow)
  }

  /** The loop over its rounds; when the rounds run out the process stopped there. */
  function Rounds(max: nat, l: Loop, rounds: seq<Round>): Leg
    decreases |rounds|
  {
    if rounds == [] then Leg([], l, Threw)
    else
      var first := OneRound(max, l, rounds[0]);
      if first.flow != Continue then first
      else
        var rest := Rounds(max, first.loop, rounds[1..]);
        Leg(first.bodies + rest.bodies, rest.loop, rest.flow)
  }

  function Stamp(revision: nat, bodies: seq<Body>): (es: seq<Event>)
    ensures |es| == |bodies|
    ensures forall i | 0 <= i < |es| :: es[i] == Event(revision + i, bodies[i])
  {
    seq(|bodies|, i requires 0 <= i < |bodies| => Event(revision + i, bodies[i]))
  }

  // ---------------------------------------------------------------- the replay folds

  datatype Replay = Replay(
    wp: Option<WorkPackage>, attempt: Option<nat>, state: RunState, pending: Pending, repairs: nat)

  /** One event of the fold in `resumeWithAuthority`. */
  function Fold(p: Replay, b: Body): Replay {
    match b
    case RunStarted(a, wp, pend) => p.(wp := Some(wp), attempt := Some(a), pending := pend, state := Running)
    case RunRepairStarted(a, wp, pend) => p.(wp := Some(wp), attempt := Some(a), pending := pend, state := Running)
    case RunDispatched(_, _) => p.(state := Running)
    case RunCompleted(_) => p.(state := Evaluating)
    case EvaluationFailedRepairable(_, k) => p.(repairs := k, state := Repairing)
    case EvaluationAmbiguous(_) => p.(state := Reconciling)
    case EvaluationOwnerDecision(_, pend) => p.(state := WaitingForOwner, pending := pend)
    case RunClosed(_) => p.(state := Closed)
    case RunBlocked(_, _) => p.(state := Blocked)
    case EvaluationPassed(_, _) | EvaluationNeedsEvidence(_, _) | RunResumed(_, _) | ReconciliationOutcome(_, _) => p
  }

  const UNREAD := Replay(None, None, Starting, NOTHING_PENDING, 0)

  function ReplayOf(h: seq<Body>): Replay {
    if h == [] then UNREAD else Fold(ReplayOf(h[..|h| - 1]), h[|h| - 1])
  }

  function Bodies(es: seq<Event>): (bs: seq<Body>)
    ensures |bs| == |es|
    ensures forall i | 0 <= i < |es| :: bs[i] == es[i].body
  {
    seq(|es|, i requires 0 <= i < |es| => es[i].body)
  }

  /** Evidence rounds the folds do not see: since the last counted repair, or since the session was resumed. */
  function Uncounted(h: seq<Body>): nat {
    if h == [] then 0
    else match h[|h| - 1]
      case EvaluationNeedsEvidence(_, _) => Uncounted(h[..|h| - 1]) + 1
      case EvaluationFailedRepairable(_, _) => 0
      case RunResumed(_, _) | ReconciliationOutcome(_, _) => 0
      case _ => Uncounted(h[..|h| - 1])
  }

  // ---------------------------------------------------------------- the language of ledgers

  predicate Starts(b: Body) { b.RunStarted? || b.RunRepairStarted? }

  function StartedAttempts(h: seq<Body>): set<nat> { set i | 0 <= i < |h| && Starts(h[i]) :: h[i].attempt }

  predicate Resumable(p: Pending) { Present(p.action) && Present(p.gate) && p.authority.Some? }

  predicate SameObjective(wp: WorkPackage, h: seq<Body>) {
    ReplayOf(h).wp.Some? && wp.objective == ReplayOf(h).wp.value.objective
  }

  predicate StandsAt(part: string, text: string, i: nat) { i + |part| <= |text| && text[i..i + |part|] == part }

  /** The text contains the part as it stands. */
  predicate Contained(part: string, text: string) { exists i | 0 <= i <= |text| - |part| :: StandsAt(part, text, i) }

  /** The work package asks for everything that the one before it asked for. */
  predicate Carries(wp: WorkPackage, h: seq<Body>) {
    ReplayOf(h).wp.Some? && Contained(ReplayOf(h).wp.value.objective, wp.objective)
  }

  /** May `b` be appended to a ledger that reads `h`? */
  predicate MayFollow(max: nat, h: seq<Body>, b: Body) {
    if h == [] then b.RunStarted? && b.pending == NOTHING_PENDING
    else
      var last := h[|h| - 1];
      match b
      case RunStarted(a, wp, p) =>
        && a !in StartedAttempts(h)
        && ((last.EvaluationPassed? && last.nextAction == Some(wp.objective) && wp.objective != "") ||
            (last.RunResumed? && SameObjective(wp, h) && p == ReplayOf(h).pending))
      case RunRepairStarted(a, wp, p) =>
        && a !in StartedAttempts(h)
        && (last.EvaluationFailedRepairable? || last.EvaluationNeedsEvidence? ||
            (last == ReconciliationOutcome(last.attempt, true) && SameObjective(wp, h) && p == NOTHING_PENDING))
        && (last.EvaluationFailedRepairable? || last.EvaluationNeedsEvidence? ==> last.attempt == a && Carries(wp, h))
      case RunDispatched(a, _) => Starts(last) && last.attempt == a
      case RunCompleted(a) => last.RunDispatched? && last.attempt == a
      case EvaluationFailedRepairable(a, k) => last.RunCompleted? && ReplayOf(h).repairs < k <= max
      case EvaluationNeedsEvidence(a, k) => last.RunCompleted? && ReplayOf(h).repairs < k <= max
      case EvaluationAmbiguous(a) => last == RunCompleted(a)
      case EvaluationOwnerDecision(a, _) => last == RunCompleted(a)
      case EvaluationPassed(a, _) => last == RunCompleted(a)
      case RunClosed(a) => last == RunCompleted(a)
      case RunBlocked(a, _) => last == RunCompleted(a) || last == ReconciliationOutcome(a, false)
      case RunResumed(a, t) =>
        && (last.EvaluationOwnerDecision? || last.RunResumed?)
        && Resumable(ReplayOf(h).pending) && ReplayOf(h).pending.authority == Some(t) && ReplayOf(h).attempt == Some(a)
      case ReconciliationOutcome(a, _) =>
        (last.EvaluationAmbiguous? || last.ReconciliationOutcome?) && ReplayOf(h).attempt == Some(a)
  }

  ghost predicate InLanguage(max: nat, h: seq<Body>) {
    forall i | 0 <= i < |h| :: MayFollow(max, h[..i], h[i])
  }

  lemma Extend(max: nat, h: seq<Body>, b: Body)
    requires InLanguage(max, h) && MayFollow(max, h, b)
    ensures InLanguage(max, h + [b])
    ensures ReplayOf(h + [b]) == Fold(ReplayOf(h), b)
    ensures Uncounted(h + [b]) == match b
      case EvaluationNeedsEvidence(_, _) => Uncounted(h) + 1
      case EvaluationFailedRepairable(_, _) => 0
      case RunResumed(_, _) | ReconciliationOutcome(_, _) => 0
      case _ => Uncounted(h)
    ensures StartedAttempts(h + [b]) == StartedAttempts(h) + if Starts(b) then {b.attempt} else {}
  {
    var g := h + [b];
    assert g[..|h|] == h;
    forall i | 0 <= i < |g| ensures MayFollow(max, g[..i], g[i]) {
      if i < |h| { assert g[..i] == h[..i]; }
    }
    assert g[|h|] == b;
    forall x | x in StartedAttempts(h) ensures x in StartedAttempts(g) {
      var i :| 0 <= i < |h| && Starts(h[i]) && h[i].attempt == x;
      assert g[i] == h[i];
    }
    forall x | x in StartedAttempts(g) ensures x in StartedAttempts(h) + if Starts(b) then {b.attempt} else {} {
      var i :| 0 <= i < |g| && Starts(g[i]) && g[i].attempt == x;
      if i < |h| { assert h[i] == g[i]; }
    }
  }

  /** The loop is at its head, about to open a round on a ledger that reads `h`. */
  ghost predicate AtHead(max: nat, h: seq<Body>, l: Loop) {
    && InLanguage(max, h)
    && (l.state == Starting || l.state == Repairing)
    && MayFollow(max, h, Opening(l))
    && (forall a | a in StartedAttempts(h) :: a < l.nextId) && l.attempt < l.nextId
    && l.repairs == ReplayOf(h).repairs + Uncounted(h)
  }

  /** The round is over and the ledger reads `h`: replay and locals agree. */
  ghost predicate Agrees(h: seq<Body>, l: Loop) {
    && ReplayOf(h) == Replay(Some(l.wp), Some(l.attempt), l.state, l.pending, ReplayOf(h).repairs)
    && l.repairs == ReplayOf(h).repairs + Uncounted(h)
  }

  ghost predicate FreshIds(h: seq<Body>, nextId: nat) { forall a | a in StartedAttempts(h) :: a < nextId }

  /** Start, dispatch and completion of a round, up to the verdict. */
  lemma RoundOpens(max: nat, h: seq<Body>, l: Loop, runId: string)
    requires AtHead(max, h, l)
    ensures var g1 := h + [Opening(l)];
      var g2 := g1 + [RunDispatched(l.attempt, runId)]; var g := g2 + [RunCompleted(l.attempt)];
      && InLanguage(max, g1) && InLanguage(max, g2) && InLanguage(max, g)
      && FreshIds(g1, l.nextId) && FreshIds(g2, l.nextId) && FreshIds(g, l.nextId)
      && ReplayOf(g) == Replay(Some(l.wp), Some(l.attempt), Evaluating, l.pending, ReplayOf(h).repairs)
      && Uncounted(g) == Uncounted(h)
  {
    var g1 := h + [Opening(l)];
    var g2 := g1 + [RunDispatched(l.attempt, runId)];
    Extend(max, h, Opening(l));
    Extend(max, g1, RunDispatched(l.attempt, runId));
    Extend(max, g2, RunCompleted(l.attempt));
  }

  /** A verdict appends one event, and the ledger allows it. */
  lemma JudgeFollows(max: nat, g: seq<Body>, l: Loop, v: Verdict)
    requires InLanguage(max, g) && g != [] && g[|g| - 1] == RunCompleted(l.attempt)
    requires FreshIds(g, l.nextId) && l.attempt < l.nextId && Agrees(g, l)
    ensures var j := Judge(max, l, v);
      && j.bodies == [j.bodies[0]] && MayFollow(max, g, j.bodies[0])
      && InLanguage(max, g + j.bodies) && FreshIds(g + j.bodies, j.loop.nextId) && j.loop.attempt < j.loop.nextId
  {
    var j := Judge(max, l, v);
    Extend(max, g, j.bodies[0]);
    assert j.bodies == [j.bodies[0]];
  }

  /** What folding the verdict's event does, against what the loop's locals become. */
  lemma VerdictFolds(max: nat, l: Loop, v: Verdict, r: Replay)
    requires r == Replay(Some(l.wp), Some(l.attempt), l.state, l.pending, r.repairs)
    ensures var j := Judge(max, l, v); var f := Fold(r, j.bodies[0]);
      && (j.flow == Returned ==>
        f == Replay(Some(j.loop.wp), Some(j.loop.attempt), j.loop.state, j.loop.pending, r.repairs))
      && (v.FailRepairable? && j.flow == Continue ==> f.repairs == l.repairs + 1)
      && (!(v.FailRepairable? && j.flow == Continue) ==> f.repairs == r.repairs)
  {
  }

  lemma JudgeAgrees(max: nat, g: seq<Body>, l: Loop, v: Verdict)
    requires InLanguage(max, g) && MayFollow(max, g, Judge(max, l, v).bodies[0]) && Agrees(g, l)
    requires Judge(max, l, v).bodies == [Judge(max, l, v).bodies[0]]
    ensures var j := Judge(max, l, v);
      && (j.flow == Returned ==> Agrees(g + j.bodies, j.loop))
      && (j.flow == Continue ==> j.loop.repairs == ReplayOf(g + j.bodies).repairs + Uncounted(g + j.bodies))
  {
    VerdictFolds(max, l, v, ReplayOf(g));
    Extend(max, g, Judge(max, l, v).bodies[0]);
  }

  /** A verdict on a completed round extends the ledger legally and leaves replay and locals in agreement. */
  lemma JudgeKeeps(max: nat, g: seq<Body>, l: Loop, v: Verdict)
    requires InLanguage(max, g) && g != [] && g[|g| - 1] == RunCompleted(l.attempt)
    requires FreshIds(g, l.nextId) && l.attempt < l.nextId && Agrees(g, l)
    ensures LegFits(max, g, Judge(max, l, v))
  {
    JudgeFollows(max, g, l, v);
    JudgeAgrees(max, g, l, v);
    if Judge(max, l, v).flow == Continue {
      JudgeCarries(max, g, l, v);
      JudgeReopens(max, g, l, v);
    }
  }

  lemma PartIsContained(before: string, part: string, after: string)
    ensures Contained(part, before + part + after)
  {
    var text := before + part + after;
    assert StandsAt(part, text, |before|);
  }

  lemma RepairCarries(findings: seq<string>, constraints: Option<string>, original: string)
    ensures Contained(original, RepairObjective(findings, constraints, original))
    ensures Contained(original, EvidenceObjective(findings, original))
  {
    var repair, evidence := "Repair feedback: " + Join(findings), "Needs evidence: " + Join(findings);
    var rest := if constraints.Some? then "\nRepair Constraints: " + constraints.value else "";
    PartIsContained(repair + "\nOriginal: ", original, rest);
    PartIsContained(evidence + "\nOriginal: ", original, "");
    assert evidence + "\nOriginal: " + original + "" == EvidenceObjective(findings, original);
    assert repair + "\nOriginal: " + original + rest == RepairObjective(findings, constraints, original);
  }

  /** After a verdict that asks for a repair or for evidence, the next work package carries the present one. */
  lemma JudgeCarries(max: nat, g: seq<Body>, l: Loop, v: Verdict)
    requires Agrees(g, l) && Judge(max, l, v).flow == Continue
    ensures !v.Pass? ==> Carries(Judge(max, l, v).loop.wp, g + Judge(max, l, v).bodies)
  {
    var b := Judge(max, l, v).bodies[0];
    assert (g + [b])[..|g|] == g && (g + [b])[|g|] == b;
    match v
    case FailRepairable(findings, constraints) => RepairCarries(findings, constraints, l.wp.objective);
    case NeedsEvidence(findings) => RepairCarries(findings, None, l.wp.objective);
    case _ =>
  }

  /** After a verdict that goes on, the next round may be opened. */
  lemma JudgeReopens(max: nat, g: seq<Body>, l: Loop, v: Verdict)
    requires FreshIds(g, l.nextId) && l.attempt < l.nextId && Judge(max, l, v).flow == Continue
    requires !v.Pass? ==> Carries(Judge(max, l, v).loop.wp, g + Judge(max, l, v).bodies)
    ensures var j := Judge(max, l, v);
      (j.loop.state == Starting || j.loop.state == Repairing) && MayFollow(max, g + j.bodies, Opening(j.loop))
  {
    var j := Judge(max, l, v);
    var b := j.bodies[0];
    assert (g + j.bodies)[|g + j.bodies| - 1] == b;
    assert StartedAttempts(g + j.bodies) == StartedAttempts(g) + if Starts(b) then {b.attempt} else {} by {
      assert j.bodies == [b] && (g + [b])[..|g|] == g;
    }
  }

  lemma LegFitsAfter(max: nat, h: seq<Body>, first: seq<Body>, leg: Leg)
    requires LegFits(max, h + first, leg)
    ensures LegFits(max, h, Leg(first + leg.bodies, leg.loop, leg.flow))
  {
    assert h + (first + leg.bodies) == h + first + leg.bodies;
  }

  lemma JudgedRoundKeeps(max: nat, h: seq<Body>, l: Loop, runId: string, v: Verdict)
    requires AtHead(max, h, l)
    ensures var j := Judge(max, l.(state := Evaluating), v);
      LegFits(max, h,
        Leg([Opening(l), RunDispatched(l.attempt, runId), RunCompleted(l.attempt)] + j.bodies, j.loop, j.flow))
  {
    var first := [Opening(l), RunDispatched(l.attempt, runId), RunCompleted(l.attempt)];
    RoundOpens(max, h, l, runId);
    assert h + [Opening(l)] + [RunDispatched(l.attempt, runId)] + [RunCompleted(l.attempt)] == h + first;
    JudgeKeeps(max, h + first, l.(state := Evaluating), v);
    LegFitsAfter(max, h, first, Judge(max, l.(state := Evaluating), v));
  }

  /** A leg from the head of `h`: legal ledger, fresh ids, back at the head or in agreement at a return. */
  ghost predicate LegFits(max: nat, h: seq<Body>, leg: Leg) {
    && LegSound(max, h, leg)
    && (leg.flow == Continue ==> AtHead(max, h + leg.bodies, leg.loop))
  }

  lemma UnjudgedRoundKeeps(max: nat, h: seq<Body>, l: Loop, r: Round)
    requires AtHead(max, h, l) && !r.Judged?
    ensures LegFits(max, h, OneRound(max, l, r))
  {
    var runId := if r.DispatchThrows? then "" else r.runId;
    RoundOpens(max, h, l, runId);
    assert h + [Opening(l), RunDispatched(l.attempt, runId)] == h + [Opening(l)] + [RunDispatched(l.attempt, runId)];
    assert h + [Opening(l), RunDispatched(l.attempt, runId), RunCompleted(l.attempt)]
        == h + [Opening(l)] + [RunDispatched(l.attempt, runId)] + [RunCompleted(l.attempt)];
  }

  lemma RoundKeeps(max: nat, h: seq<Body>, l: Loop, r: Round)
    requires AtHead(max, h, l)
    ensures LegFits(max, h, OneRound(max, l, r))
  {
    if r.Judged? {
      JudgedRoundKeeps(max, h, l, r.runId, VerdictOf(Settled(r.status, r.polls), r.result, r.review));
    } else {
      UnjudgedRoundKeeps(max, h, l, r);
    }
  }

  /** A leg that starts at the head of ledger `h` ends well: legal ledger, fresh ids, agreement at a normal return. */
  ghost predicate LegSound(max: nat, h: seq<Body>, leg: Leg) {
    && InLanguage(max, h + leg.bodies) && FreshIds(h + leg.bodies, leg.loop.nextId)
    && (leg.flow == Returned ==> Agrees(h + leg.bodies, leg.loop))
  }

  lemma LegAssociates(max: nat, h: seq<Body>, first: seq<Body>, rest: Leg)
    requires LegSound(max, h + first, rest)
    ensures LegSound(max, h, Leg(first + rest.bodies, rest.loop, rest.flow))
  {
    assert h + (first + rest.bodies) == h + first + rest.bodies;
  }

  /**
   * A whole `execute`: whatever the rounds, the ledger stays in the language, and at a normal return replay agrees with
   * the loop.
   */
  lemma {:induction false} RoundsKeep(max: nat, h: seq<Body>, l: Loop, rounds: seq<Round>)
    requires AtHead(max, h, l)
    ensures LegSound(max, h, Rounds(max, l, rounds))
    decreases |rounds|
  {
    if rounds == [] {
      assert h + [] == h;
    } else {
      RoundKeeps(max, h, l, rounds[0]);
      var first := OneRound(max, l, rounds[0]);
      if first.flow == Continue {
        RoundsKeep(max, h + first.bodies, first.loop, rounds[1..]);
        LegAssociates(max, h, first.bodies, Rounds(max, first.loop, rounds[1..]));
      }
    }
  }

  // ---------------------------------------------------------------- a run's whole life

  datatype Config = Config(taskId: string, maxRepairAttempts: nat)

  /** A sealed owner event and a sealed reconciliation outcome, as far as the resumes read them. */
  datatype OwnerAuthority = OwnerAuthority(
    taskId: string, action: Option<string>, gate: Option<string>, authorityType: string)

  datatype ResumeError = NoEvents | NoWorkPackage | TaskMismatch | WrongState | ActionMismatch | GateMismatch
    | AuthorityMismatch

  datatype Run = Run(ledger: seq<Event>, nextId: nat)

  /**
   * `rounds` is what the bridge and reviewer do afterwards; `cut` stops the process before the RUN_BLOCKED of an unsafe
   * outcome.
   */
  datatype Resume =
    | WithAuthority(authority: OwnerAuthority, rounds: seq<Round>)
    | FromReconciliation(safeToRetry: bool, reason: string, cut: bool, rounds: seq<Round>)

  function Append(run: Run, bodies: seq<Body>, nextId: nat): Run {
    Run(run.ledger + Stamp(|run.ledger| + 1, bodies), nextId)
  }

  function FirstExecute(cfg: Config, wp: WorkPackage, rounds: seq<Round>): Run {
    var leg := Rounds(cfg.maxRepairAttempts, Loop(Starting, wp, 0, NOTHING_PENDING, 0, 1), rounds);
    Append(Run([], 0), leg.bodies, leg.loop.nextId)
  }

  function AuthorityError(cfg: Config, p: Replay, a: OwnerAuthority): Option<ResumeError> {
    if p.wp.None? then Some(NoWorkPackage)
    else if a.taskId != cfg.taskId then Some(TaskMismatch)
    else if p.state != WaitingForOwner then Some(WrongState)
    else if !Present(a.action) || a.action != p.pending.action then Some(ActionMismatch)
    else if !Present(a.gate) || a.gate != p.pending.gate then Some(GateMismatch)
    else if Some(a.authorityType) != p.pending.authority then Some(AuthorityMismatch)
    else None
  }

  function OutcomeError(p: Replay): Option<ResumeError> {
    if p.wp.None? then Some(NoWorkPackage) else if p.state != Reconciling then Some(WrongState) else None
  }

  function WhyRefused(cfg: Config, run: Run, r: Resume): Option<ResumeError> {
    if run.ledger == [] then Some(NoEvents)
    else match r
      case WithAuthority(a, _) => AuthorityError(cfg, ReplayOf(Bodies(run.ledger)), a)
      case FromReconciliation(_, _, _, _) => OutcomeError(ReplayOf(Bodies(run.ledger)))
  }

  /** The note a resume writes first, and the locals it hands to `execute`. */
  function Note(p: Replay, r: Resume): Body
    requires p.attempt.Some?
  {
    match r
    case WithAuthority(a, _) => RunResumed(p.attempt.value, a.authorityType)
    case FromReconciliation(safe, _, _, _) => ReconciliationOutcome(p.attempt.value, safe)
  }

  function ResumedLoop(p: Replay, nextId: nat, r: Resume): Loop
    requires p.wp.Some?
  {
    Loop(if r.WithAuthority? then Starting else Repairing, WorkPackage(nextId, p.wp.value.objective), nextId + 1,
         if r.WithAuthority? then p.pending else NOTHING_PENDING, p.repairs, nextId + 2)
  }

  function ResumeRun(cfg: Config, run: Run, r: Resume): Result<Run, ResumeError> {
    var e := WhyRefused(cfg, run, r);
    var p := ReplayOf(Bodies(run.ledger));
    if e.Some? then Err(e.value)
    else if p.wp.None? || p.attempt.None? then Err(NoWorkPackage)
    else if r.FromReconciliation? && !r.safeToRetry then
      Ok(Append(run, [Note(p, r)] + if r.cut then []
        else [RunBlocked(p.attempt.value, "RECONCILIATION_UNSAFE: " + r.reason)], run.nextId))
    else
      var leg := Rounds(cfg.maxRepairAttempts, ResumedLoop(p, run.nextId, r), r.rounds);
      Ok(Append(run, [Note(p, r)] + leg.bodies, leg.loop.nextId))
  }

  function Life(cfg: Config, run: Run, resumes: seq<Resume>): Run
    decreases |resumes|
  {
    if resumes == [] then run
    else
      var r := ResumeRun(cfg, run, resumes[0]);
      Life(cfg, if r.Ok? then r.value else run, resumes[1..])
  }

  ghost predicate RunSound(cfg: Config, run: Run) {
    && InLanguage(cfg.maxRepairAttempts, Bodies(run.ledger))
    && FreshIds(Bodies(run.ledger), run.nextId)
    && forall k | 0 <= k < |run.ledger| :: run.ledger[k].revision == k + 1
  }

  lemma AppendJoins(run: Run, bodies: seq<Body>, nextId: nat)
    ensures Bodies(Append(run, bodies, nextId).ledger) == Bodies(run.ledger) + bodies
  {}

  lemma AppendNumbers(run: Run, bodies: seq<Body>, nextId: nat)
    requires forall k | 0 <= k < |run.ledger| :: run.ledger[k].revision == k + 1
    ensures var after := Append(run, bodies, nextId).ledger;
      forall k | 0 <= k < |after| :: after[k].revision == k + 1
  {}

  lemma AppendSound(cfg: Config, run: Run, bodies: seq<Body>, nextId: nat)
    requires RunSound(cfg, run)
    requires InLanguage(cfg.maxRepairAttempts, Bodies(run.ledger) + bodies)
      && FreshIds(Bodies(run.ledger) + bodies, nextId)
    ensures RunSound(cfg, Append(run, bodies, nextId))
    ensures Bodies(Append(run, bodies, nextId).ledger) == Bodies(run.ledger) + bodies
  {
    AppendJoins(run, bodies, nextId);
    AppendNumbers(run, bodies, nextId);
  }

  lemma FirstExecuteSound(cfg: Config, wp: WorkPackage, rounds: seq<Round>)
    ensures RunSound(cfg, FirstExecute(cfg, wp, rounds))
  {
    var l := Loop(Starting, wp, 0, NOTHING_PENDING, 0, 1);
    RoundsKeep(cfg.maxRepairAttempts, [], l, rounds);
    assert [] + Rounds(cfg.maxRepairAttempts, l, rounds).bodies == Rounds(cfg.maxRepairAttempts, l, rounds).bodies;
    assert Bodies([]) == [];
    AppendSound(cfg, Run([], 0), Rounds(cfg.maxRepairAttempts, l, rounds).bodies,
      Rounds(cfg.maxRepairAttempts, l, rounds).loop.nextId);
  }

  predicate NamesAttempt(b: Body) {
    Starts(b) || b.RunDispatched? || b.RunCompleted? || b.EvaluationAmbiguous? || b.EvaluationOwnerDecision?
  }

  /** What the replayed state says about the end of a ledger. */
  lemma {:induction false} StateReadsEnd(max: nat, h: seq<Body>)
    requires InLanguage(max, h) && h != []
    ensures var last := h[|h| - 1]; var p := ReplayOf(h);
      && p.wp.Some? && p.attempt.Some?
      && (p.state == WaitingForOwner <==> last.EvaluationOwnerDecision? || last.RunResumed?)
      && (p.state == Reconciling <==> last.EvaluationAmbiguous? || last.ReconciliationOutcome?)
      && (last.RunClosed? ==> p.state == Closed) && (last.RunBlocked? ==> p.state == Blocked)
      && (NamesAttempt(last) ==> p.attempt == Some(last.attempt))
  {
    var n := |h| - 1;
    assert MayFollow(max, h[..n], h[n]);
    if n > 0 {
      forall i | 0 <= i < n ensures MayFollow(max, h[..n][..i], h[..n][i]) {
        assert h[..n][..i] == h[..i] && MayFollow(max, h[..i], h[i]);
      }
      StateReadsEnd(max, h[..n]);
    }
  }

  lemma NoteIsLegal(cfg: Config, run: Run, r: Resume)
    requires RunSound(cfg, run) && ResumeRun(cfg, run, r).Ok?
    ensures var h := Bodies(run.ledger); var p := ReplayOf(h);
      p.wp.Some? && p.attempt.Some? && MayFollow(cfg.maxRepairAttempts, h, Note(p, r))
  {
    StateReadsEnd(cfg.maxRepairAttempts, Bodies(run.ledger));
  }

  lemma UnsafeKeepsSound(cfg: Config, run: Run, r: Resume)
    requires RunSound(cfg, run) && ResumeRun(cfg, run, r).Ok? && r.FromReconciliation? && !r.safeToRetry
    ensures RunSound(cfg, ResumeRun(cfg, run, r).value)
  {
    var max, h := cfg.maxRepairAttempts, Bodies(run.ledger);
    NoteIsLegal(cfg, run, r);
    var note := Note(ReplayOf(h), r);
    var blocked := RunBlocked(note.attempt, "RECONCILIATION_UNSAFE: " + r.reason);
    Extend(max, h, note);
    Extend(max, h + [note], blocked);
    assert h + ([note] + []) == h + [note] && h + ([note] + [blocked]) == h + [note] + [blocked];
    AppendSound(cfg, run, [note] + if r.cut then [] else [blocked], run.nextId);
  }

  lemma RestartIsAtHead(cfg: Config, run: Run, r: Resume)
    requires RunSound(cfg, run) && ResumeRun(cfg, run, r).Ok? && (r.FromReconciliation? ==> r.safeToRetry)
    ensures var h := Bodies(run.ledger); var p := ReplayOf(h);
      p.wp.Some? && p.attempt.Some? && AtHead(cfg.maxRepairAttempts, h + [Note(p, r)], ResumedLoop(p, run.nextId, r))
  {
    var h := Bodies(run.ledger);
    NoteIsLegal(cfg, run, r);
    Extend(cfg.maxRepairAttempts, h, Note(ReplayOf(h), r));
  }

  lemma RestartKeepsSound(cfg: Config, run: Run, r: Resume)
    requires RunSound(cfg, run) && ResumeRun(cfg, run, r).Ok? && (r.FromReconciliation? ==> r.safeToRetry)
    ensures RunSound(cfg, ResumeRun(cfg, run, r).value)
  {
    var max, h := cfg.maxRepairAttempts, Bodies(run.ledger);
    var p := ReplayOf(h);
    RestartIsAtHead(cfg, run, r);
    var l := ResumedLoop(p, run.nextId, r);
    var leg := Rounds(max, l, r.rounds);
    RoundsKeep(max, h + [Note(p, r)], l, r.rounds);
    LegAssociates(max, h, [Note(p, r)], leg);
    AppendSound(cfg, run, [Note(p, r)] + leg.bodies, leg.loop.nextId);
  }

  lemma ResumeKeepsSound(cfg: Config, run: Run, r: Resume)
    requires RunSound(cfg, run) && ResumeRun(cfg, run, r).Ok?
    ensures RunSound(cfg, ResumeRun(cfg, run, r).value)
  {
    if r.FromReconciliation? && !r.safeToRetry {
      UnsafeKeepsSound(cfg, run, r);
    } else {
      RestartKeepsSound(cfg, run, r);
    }
  }

  lemma {:induction false} LifeKeepsSound(cfg: Config, run: Run, resumes: seq<Resume>)
    requires RunSound(cfg, run)
    ensures RunSound(cfg, Life(cfg, run, resumes))
    decreases |resumes|
  {
    if resumes != [] {
      var r := ResumeRun(cfg, run, resumes[0]);
      if r.Ok? { ResumeKeepsSound(cfg, run, resumes[0]); }
      LifeKeepsSound(cfg, if r.Ok? then r.value else run, resumes[1..]);
    }
  }

  // ---------------------------------------------------------------- what every life of a run satisfies

  /**
   * Event k carries revision k, and the whole ledger is a word of the language, over any number of suspensions and
   * resumes.
   */
  lemma LedgerIsLegal(cfg: Config, wp: WorkPackage, rounds: seq<Round>, resumes: seq<Resume>)
    ensures var run := Life(cfg, FirstExecute(cfg, wp, rounds), resumes);
      && InLanguage(cfg.maxRepairAttempts, Bodies(run.ledger))
      && forall k | 0 <= k < |run.ledger| :: run.ledger[k].revision == k + 1
  {
    FirstExecuteSound(cfg, wp, rounds);
    LifeKeepsSound(cfg, FirstExecute(cfg, wp, rounds), resumes);
  }

  /**
   * When a resumed `execute` returns normally, replaying the ledger gives back its own locals; only evidence
   * rounds since the last counted repair are missing from the replayed counter.
   */
  lemma ReplayAgreesAtReturn(cfg: Config, run: Run, r: Resume)
    requires RunSound(cfg, run) && ResumeRun(cfg, run, r).Ok? && (r.FromReconciliation? ==> r.safeToRetry)
    requires Rounds(cfg.maxRepairAttempts, ResumedLoop(ReplayOf(Bodies(run.ledger)), run.nextId, r),
      r.rounds).flow == Returned
    ensures var leg :=
      Rounds(cfg.maxRepairAttempts, ResumedLoop(ReplayOf(Bodies(run.ledger)), run.nextId, r), r.rounds);
      var h := Bodies(ResumeRun(cfg, run, r).value.ledger); var p := ReplayOf(h);
      && p.wp == Some(leg.loop.wp) && p.attempt == Some(leg.loop.attempt) && p.state == leg.loop.state
      && p.pending == leg.loop.pending
      && leg.loop.repairs == p.repairs + Uncounted(h)
  {
    var h := Bodies(run.ledger);
    var p := ReplayOf(h);
    RestartIsAtHead(cfg, run, r);
    RoundsKeep(cfg.maxRepairAttempts, h + [Note(p, r)], ResumedLoop(p, run.nextId, r), r.rounds);
    ResumedBodies(cfg, run, r);
  }

  lemma ResumedBodies(cfg: Config, run: Run, r: Resume)
    requires ResumeRun(cfg, run, r).Ok? && (r.FromReconciliation? ==> r.safeToRetry)
    ensures var h := Bodies(run.ledger); var p := ReplayOf(h);
      && p.wp.Some? && p.attempt.Some?
      && Bodies(ResumeRun(cfg, run, r).value.ledger) ==
           h + [Note(p, r)] + Rounds(cfg.maxRepairAttempts, ResumedLoop(p, run.nextId, r), r.rounds).bodies
  {}

  /** The same for the first `execute` of a run. */
  lemma ReplayAgreesAtFirstReturn(cfg: Config, wp: WorkPackage, rounds: seq<Round>)
    requires Rounds(cfg.maxRepairAttempts, Loop(Starting, wp, 0, NOTHING_PENDING, 0, 1), rounds).flow == Returned
    ensures Agrees(Bodies(FirstExecute(cfg, wp, rounds).ledger),
                   Rounds(cfg.maxRepairAttempts, Loop(Starting, wp, 0, NOTHING_PENDING, 0, 1), rounds).loop)
  {
    var l := Loop(Starting, wp, 0, NOTHING_PENDING, 0, 1);
    var leg := Rounds(cfg.maxRepairAttempts, l, rounds);
    RoundsKeep(cfg.maxRepairAttempts, [], l, rounds);
    assert [] + leg.bodies == leg.bodies;
    assert Bodies(FirstExecute(cfg, wp, rounds).ledger) == leg.bodies;
  }

  /** The fold of `resumeFromReconciliation`, which does not track the pending triple. */
  datatype ShortReplay = ShortReplay(wp: Option<WorkPackage>, attempt: Option<nat>, state: RunState, repairs: nat)

  function ShortFold(p: ShortReplay, b: Body): ShortReplay {
    match b
    case RunStarted(a, wp, _) => p.(wp := Some(wp), attempt := Some(a), state := Running)
    case RunRepairStarted(a, wp, _) => p.(wp := Some(wp), attempt := Some(a), state := Running)
    case RunDispatched(_, _) => p.(state := Running)
    case RunCompleted(_) => p.(state := Evaluating)
    case EvaluationFailedRepairable(_, k) => p.(repairs := k, state := Repairing)
    case EvaluationAmbiguous(_) => p.(state := Reconciling)
    case EvaluationOwnerDecision(_, _) => p.(state := WaitingForOwner)
    case RunClosed(_) => p.(state := Closed)
    case RunBlocked(_, _) => p.(state := Blocked)
    case _ => p
  }

  function ShortReplayOf(h: seq<Body>): ShortReplay {
    if h == [] then ShortReplay(None, None, Starting, 0) else ShortFold(ShortReplayOf(h[..|h| - 1]), h[|h| - 1])
  }

  /** The two hand-written folds agree on everything they share, on every list of events. */
  lemma {:induction false} FoldsAgree(h: seq<Body>)
    ensures var p := ReplayOf(h); ShortReplayOf(h) == ShortReplay(p.wp, p.attempt, p.state, p.repairs)
  {
    if h != [] { FoldsAgree(h[..|h| - 1]); }
  }

  lemma PrefixInLanguage(max: nat, h: seq<Body>, n: nat)
    requires InLanguage(max, h) && n <= |h|
    ensures InLanguage(max, h[..n])
  {
    forall i | 0 <= i < n ensures MayFollow(max, h[..n][..i], h[..n][i]) {
      assert h[..n][..i] == h[..i] && MayFollow(max, h[..i], h[i]);
    }
  }

  function RepairEvents(h: seq<Body>): nat {
    if h == [] then 0 else RepairEvents(h[..|h| - 1]) + if h[|h| - 1].EvaluationFailedRepairable? then 1 else 0
  }

  /** Across all sessions together there are at most `maxRepairAttempts` counted repairs. */
  lemma {:induction false} RepairBudgetSurvives(max: nat, h: seq<Body>)
    requires InLanguage(max, h)
    ensures RepairEvents(h) <= ReplayOf(h).repairs <= max
  {
    if h != [] {
      var n := |h| - 1;
      PrefixInLanguage(max, h, n);
      RepairBudgetSurvives(max, h[..n]);
      assert MayFollow(max, h[..n], h[n]);
    }
  }

  /**
   * Repair counters strictly increase along the ledger, whatever suspensions lie between them, and never exceed the
   * maximum.
   */
  lemma RepairCountersIncrease(max: nat, h: seq<Body>, i: nat, j: nat)
    requires InLanguage(max, h) && i < j < |h|
    requires h[i].EvaluationFailedRepairable? && h[j].EvaluationFailedRepairable?
    ensures h[i].repairAttempts < h[j].repairAttempts <= max
  {
    PrefixInLanguage(max, h, j);
    CounterRemembered(max, h[..j], i);
    assert MayFollow(max, h[..j], h[j]);
  }

  lemma {:induction false} CounterRemembered(max: nat, h: seq<Body>, i: nat)
    requires InLanguage(max, h) && i < |h| && h[i].EvaluationFailedRepairable?
    ensures h[i].repairAttempts <= ReplayOf(h).repairs
  {
    var n := |h| - 1;
    if i < n {
      PrefixInLanguage(max, h, n);
      CounterRemembered(max, h[..n], i);
      assert MayFollow(max, h[..n], h[n]);
    }
  }

  function Dispatches(h: seq<Body>): nat {
    if h == [] then 0 else Dispatches(h[1..]) + if h[0].RunDispatched? then 1 else 0
  }

  function Passes(h: seq<Body>): nat {
    if h == [] then 0 else Passes(h[1..]) + if h[0].EvaluationPassed? then 1 else 0
  }

  function EvidenceEvents(h: seq<Body>): nat {
    if h == [] then 0 else EvidenceEvents(h[1..]) + if h[0].EvaluationNeedsEvidence? then 1 else 0
  }

  lemma {:induction false} CountsAdd(a: seq<Body>, b: seq<Body>)
    ensures Dispatches(a + b) == Dispatches(a) + Dispatches(b) && Passes(a + b) == Passes(a) + Passes(b)
    ensures EvidenceEvents(a + b) == EvidenceEvents(a) + EvidenceEvents(b)
  {
    if a == [] {
      assert a + b == b;
    } else {
      assert (a + b)[1..] == a[1..] + b;
      CountsAdd(a[1..], b);
    }
  }

  /**
   * Within one `execute`, dispatches are bounded by the PASS verdicts and the repair budget that is left, evidence
   * rounds by that budget alone.
   */
  lemma {:induction false} DispatchBudget(max: nat, l: Loop, rounds: seq<Round>)
    requires l.repairs <= max
    ensures var leg := Rounds(max, l, rounds);
      && Dispatches(leg.bodies) <= 1 + Passes(leg.bodies) + (max - l.repairs)
      && EvidenceEvents(leg.bodies) <= max - l.repairs
    decreases |rounds|
  {
    if rounds != [] {
      var first := OneRound(max, l, rounds[0]);
      OneRoundCounts(max, l, rounds[0]);
      if first.flow == Continue {
        DispatchBudget(max, first.loop, rounds[1..]);
        CountsAdd(first.bodies, Rounds(max, first.loop, rounds[1..]).bodies);
      }
    }
  }

  /** The three events that open a round: one dispatch, nothing else that is counted. */
  lemma OpeningCounts(l: Loop, runId: string)
    ensures var two := [Opening(l), RunDispatched(l.attempt, runId)];
      var three := [Opening(l), RunDispatched(l.attempt, runId), RunCompleted(l.attempt)];
      && Dispatches(two) == Dispatches(three) == 1 && Passes(two) == Passes(three) == 0
      && EvidenceEvents(two) == EvidenceEvents(three) == 0
  {
    CountsAdd([Opening(l)], [RunDispatched(l.attempt, runId)]);
    assert [Opening(l)] + [RunDispatched(l.attempt, runId)] == [Opening(l), RunDispatched(l.attempt, runId)];
    CountsAdd([Opening(l), RunDispatched(l.attempt, runId)], [RunCompleted(l.attempt)]);
    assert [Opening(l), RunDispatched(l.attempt, runId)] + [RunCompleted(l.attempt)]
        == [Opening(l), RunDispatched(l.attempt, runId), RunCompleted(l.attempt)];
  }

  lemma JudgeCounts(max: nat, l: Loop, v: Verdict)
    requires l.repairs <= max
    ensures var j := Judge(max, l, v);
      && Dispatches(j.bodies) == 0
      && EvidenceEvents(j.bodies) == (if v.NeedsEvidence? && l.repairs < max then 1 else 0)
      && (j.flow == Continue ==>
            EvidenceEvents(j.bodies) <= j.loop.repairs - l.repairs && j.loop.repairs <= max
            && Passes(j.bodies) + (j.loop.repairs - l.repairs) == 1)
      && (j.flow != Continue ==> EvidenceEvents(j.bodies) == 0)
  {
  }

  lemma OneRoundCounts(max: nat, l: Loop, r: Round)
    requires l.repairs <= max
    ensures var leg := OneRound(max, l, r);
      && Dispatches(leg.bodies) <= 1
      && (leg.flow == Continue ==>
            EvidenceEvents(leg.bodies) <= leg.loop.repairs - l.repairs && leg.loop.repairs <= max
            && Passes(leg.bodies) + (leg.loop.repairs - l.repairs) == 1)
      && (leg.flow != Continue ==> EvidenceEvents(leg.bodies) == 0)
  {
    match r
    case DispatchThrows =>
    case StatusThrows(runId) => OpeningCounts(l, runId);
    case VerdictLost(runId) => OpeningCounts(l, runId);
    case Judged(runId, status, polls, result, review) =>
      var v := VerdictOf(Settled(status, polls), result, review);
      OpeningCounts(l, runId);
      JudgeCounts(max, l.(state := Evaluating), v);
      CountsAdd([Opening(l), RunDispatched(l.attempt, runId), RunCompleted(l.attempt)],
        Judge(max, l.(state := Evaluating), v).bodies);
  }

  /** Nothing is ever appended after RUN_CLOSED or RUN_BLOCKED. */
  lemma NothingFollowsTheEnd(max: nat, h: seq<Body>, i: nat)
    requires InLanguage(max, h) && i < |h| && (h[i].RunClosed? || h[i].RunBlocked?)
    ensures i == |h| - 1
  {
    if i + 1 < |h| { EndIsFinal(max, h[..i + 1], h[i + 1]); }
  }

  lemma EndIsFinal(max: nat, h: seq<Body>, b: Body)
    requires h != [] && (h[|h| - 1].RunClosed? || h[|h| - 1].RunBlocked?)
    ensures !MayFollow(max, h, b)
  {}

  /** Each dispatch directly follows its own start, and no two dispatches share an attempt. */
  lemma DispatchesAreFresh(max: nat, h: seq<Body>, i: nat, j: nat)
    requires InLanguage(max, h) && i < j < |h| && h[i].RunDispatched? && h[j].RunDispatched?
    ensures 0 < i && Starts(h[i - 1]) && h[i - 1].attempt == h[i].attempt && Starts(h[j - 1])
      && h[j - 1].attempt == h[j].attempt
    ensures h[i].attempt != h[j].attempt
  {
    assert MayFollow(max, h[..i], h[i]) && MayFollow(max, h[..j], h[j]) && MayFollow(max, h[..j - 1], h[j - 1]);
    assert h[..j - 1][i - 1] == h[i - 1];
    assert h[i - 1].attempt in StartedAttempts(h[..j - 1]);
  }

  /** No dispatch follows an ambiguous verdict before a reconciliation outcome that declares a retry safe. */
  lemma {:induction false} AmbiguityNeedsSafeOutcome(max: nat, h: seq<Body>, i: nat, j: nat) returns (k: nat)
    requires InLanguage(max, h) && i < j < |h| && h[i].EvaluationAmbiguous? && h[j].RunDispatched?
    ensures i < k < j && h[k].ReconciliationOutcome? && h[k].safeToRetry
  {
    k := OutcomesUntil(max, h, i, j);
  }

  lemma {:induction false} OutcomesUntil(max: nat, h: seq<Body>, i: nat, j: nat) returns (k: nat)
    requires InLanguage(max, h) && i < j < |h| && (h[i].EvaluationAmbiguous? || h[i].ReconciliationOutcome?)
    requires !h[j].ReconciliationOutcome? && !h[j].RunBlocked?
    ensures i <= k < j && h[k].ReconciliationOutcome? && h[k].safeToRetry
    decreases j - i
  {
    assert MayFollow(max, h[..i + 1], h[i + 1]);
    if h[i + 1].ReconciliationOutcome? {
      k := OutcomesUntil(max, h, i + 1, j);
    } else {
      if h[i + 1].RunBlocked? { NothingFollowsTheEnd(max, h, i + 1); }
      k := i;
    }
  }

  /**
   * No dispatch follows an owner wait before a RUN_RESUMED under the authority type the wait asked for, all three parts
   * present.
   */
  lemma OwnerWaitNeedsMatchingResume(max: nat, h: seq<Body>, i: nat, j: nat)
    requires InLanguage(max, h) && i < j < |h| && h[i].EvaluationOwnerDecision? && h[j].RunDispatched?
    ensures i + 1 < j && h[i + 1].RunResumed? && Resumable(h[i].pending)
      && h[i].pending.authority == Some(h[i + 1].authority)
  {
    assert MayFollow(max, h[..i + 1], h[i + 1]);
    assert h[..i + 1][..i] == h[..i];
    assert ReplayOf(h[..i + 1]) == Fold(ReplayOf(h[..i]), h[i]);
  }

  /**
   * An owner resume is accepted exactly on a ledger that waits for the owner, by an event for this task naming the
   * pending triple.
   */
  lemma AuthorityAcceptedIff(cfg: Config, run: Run, a: OwnerAuthority, rounds: seq<Round>)
    requires RunSound(cfg, run)
    ensures ResumeRun(cfg, run, WithAuthority(a, rounds)).Ok? <==>
      && run.ledger != []
      && (var last := run.ledger[|run.ledger| - 1].body; last.EvaluationOwnerDecision? || last.RunResumed?)
      && a.taskId == cfg.taskId && Resumable(ReplayOf(Bodies(run.ledger)).pending)
      && ReplayOf(Bodies(run.ledger)).pending == Pending(a.action, a.gate, Some(a.authorityType))
  {
    if run.ledger != [] { StateReadsEnd(cfg.maxRepairAttempts, Bodies(run.ledger)); }
  }

  /**
   * A reconciliation resume is accepted exactly on a ledger that ends in an ambiguous verdict or an earlier outcome.
   */
  lemma OutcomeAcceptedIff(cfg: Config, run: Run, r: Resume)
    requires RunSound(cfg, run) && r.FromReconciliation?
    ensures ResumeRun(cfg, run, r).Ok? <==>
      run.ledger != []
        && (var last := run.ledger[|run.ledger| - 1].body; last.EvaluationAmbiguous? || last.ReconciliationOutcome?)
  {
    if run.ledger != [] { StateReadsEnd(cfg.maxRepairAttempts, Bodies(run.ledger)); }
  }

  // ---------------------------------------------------------------- the same over every life of a run

  /** The ledger after the first `execute` and any resumes, accepted or refused. */
  function History(cfg: Config, wp: WorkPackage, rounds: seq<Round>, resumes: seq<Resume>): seq<Body> {
    Bodies(Life(cfg, FirstExecute(cfg, wp, rounds), resumes).ledger)
  }

  lemma LifeRepairBudget(cfg: Config, wp: WorkPackage, rounds: seq<Round>, resumes: seq<Resume>)
    ensures var h := History(cfg, wp, rounds, resumes); RepairEvents(h) <= ReplayOf(h).repairs <= cfg.maxRepairAttempts
  {
    LedgerIsLegal(cfg, wp, rounds, resumes);
    RepairBudgetSurvives(cfg.maxRepairAttempts, History(cfg, wp, rounds, resumes));
  }

  lemma LifeRepairCounters(cfg: Config, wp: WorkPackage, rounds: seq<Round>, resumes: seq<Resume>, i: nat, j: nat)
    requires var h := History(cfg, wp, rounds, resumes);
      i < j < |h| && h[i].EvaluationFailedRepairable? && h[j].EvaluationFailedRepairable?
    ensures var h := History(cfg, wp, rounds, resumes);
      h[i].repairAttempts < h[j].repairAttempts <= cfg.maxRepairAttempts
  {
    LedgerIsLegal(cfg, wp, rounds, resumes);
    RepairCountersIncrease(cfg.maxRepairAttempts, History(cfg, wp, rounds, resumes), i, j);
  }

  lemma LifeDispatchesAreFresh(cfg: Config, wp: WorkPackage, rounds: seq<Round>, resumes: seq<Resume>, i: nat, j: nat)
    requires var h := History(cfg, wp, rounds, resumes); i < j < |h| && h[i].RunDispatched? && h[j].RunDispatched?
    ensures var h := History(cfg, wp, rounds, resumes);
      0 < i && Starts(h[i - 1]) && h[i - 1].attempt == h[i].attempt && Starts(h[j - 1])
        && h[j - 1].attempt == h[j].attempt
      && h[i].attempt != h[j].attempt
  {
    LedgerIsLegal(cfg, wp, rounds, resumes);
    DispatchesAreFresh(cfg.maxRepairAttempts, History(cfg, wp, rounds, resumes), i, j);
  }

  lemma LifeAmbiguityNeedsSafeOutcome(
      cfg: Config, wp: WorkPackage, rounds: seq<Round>, resumes: seq<Resume>, i: nat, j: nat)
    requires var h := History(cfg, wp, rounds, resumes); i < j < |h| && h[i].EvaluationAmbiguous? && h[j].RunDispatched?
    ensures var h := History(cfg, wp, rounds, resumes);
      exists k :: i < k < j && h[k].ReconciliationOutcome? && h[k].safeToRetry
  {
    LedgerIsLegal(cfg, wp, rounds, resumes);
    var _ := AmbiguityNeedsSafeOutcome(cfg.maxRepairAttempts, History(cfg, wp, rounds, resumes), i, j);
  }

  lemma LifeOwnerWaitNeedsMatchingResume(
      cfg: Config, wp: WorkPackage, rounds: seq<Round>, resumes: seq<Resume>, i: nat, j: nat)
    requires var h := History(cfg, wp, rounds, resumes);
      i < j < |h| && h[i].EvaluationOwnerDecision? && h[j].RunDispatched?
    ensures var h := History(cfg, wp, rounds, resumes);
      i + 1 < j && h[i + 1].RunResumed? && Resumable(h[i].pending) && h[i].pending.authority == Some(h[i + 1].authority)
  {
    LedgerIsLegal(cfg, wp, rounds, resumes);
    OwnerWaitNeedsMatchingResume(cfg.maxRepairAttempts, History(cfg, wp, rounds, resumes), i, j);
  }

  lemma LifeEndsAtTheEnd(cfg: Config, wp: WorkPackage, rounds: seq<Round>, resumes: seq<Resume>, i: nat)
    requires var h := History(cfg, wp, rounds, resumes); i < |h| && (h[i].RunClosed? || h[i].RunBlocked?)
    ensures i == |History(cfg, wp, rounds, resumes)| - 1
  {
    LedgerIsLegal(cfg, wp, rounds, resumes);
    NothingFollowsTheEnd(cfg.maxRepairAttempts, History(cfg, wp, rounds, resumes), i);
  }

  // ---------------------------------------------------------------- how much work a life may do

  /** How many of the resumes are accepted. */
  function Accepted(cfg: Config, run: Run, resumes: seq<Resume>): nat
    decreases |resumes|
  {
    if resumes == [] then 0
    else
      var r := ResumeRun(cfg, run, resumes[0]);
      if r.Ok? then 1 + Accepted(cfg, r.value, resumes[1..]) else Accepted(cfg, run, resumes[1..])
  }

  /** `share` for each of `n` sessions. */
  function Total(share: nat, n: nat): nat { if n == 0 then 0 else share + Total(share, n - 1) }

  lemma {:induction false} TotalIsProduct(share: nat, n: nat)
    ensures Total(share, n) == share * n
  {
    if n > 0 { TotalIsProduct(share, n - 1); }
  }

  lemma TotalOfOne(share: nat)
    ensures Total(share, 1) == share
  {
    assert Total(share, 0) == 0;
  }

  /** What `n` sessions may dispatch and ask evidence for. */
  predicate WithinSessions(max: nat, h: seq<Body>, n: nat) {
    Dispatches(h) <= Passes(h) + Total(1 + max, n) && EvidenceEvents(h) <= Total(max, n)
  }

  lemma WithinProducts(max: nat, h: seq<Body>, n: nat)
    requires WithinSessions(max, h, n)
    ensures EvidenceEvents(h) <= max * n && Dispatches(h) <= Passes(h) + (max + 1) * n
  {
    TotalIsProduct(max, n);
    TotalIsProduct(1 + max, n);
  }

  lemma SessionAdds(max: nat, h: seq<Body>, more: seq<Body>, n: nat)
    requires WithinSessions(max, h, n) && Dispatches(more) <= 1 + Passes(more) + max && EvidenceEvents(more) <= max
    ensures WithinSessions(max, h + more, n + 1)
  {
    CountsAdd(h, more);
  }

  lemma UnsafeStaysWithin(cfg: Config, run: Run, r: Resume, n: nat)
    requires ResumeRun(cfg, run, r).Ok? && r.FromReconciliation? && !r.safeToRetry
    requires WithinSessions(cfg.maxRepairAttempts, Bodies(run.ledger), n)
    ensures WithinSessions(cfg.maxRepairAttempts, Bodies(ResumeRun(cfg, run, r).value.ledger), n + 1)
  {
    var h := Bodies(run.ledger);
    var p := ReplayOf(h);
    var tail := if r.cut then [] else [RunBlocked(p.attempt.value, "RECONCILIATION_UNSAFE: " + r.reason)];
    CountsAdd([Note(p, r)], tail);
    SessionAdds(cfg.maxRepairAttempts, h, [Note(p, r)] + tail, n);
    assert Bodies(ResumeRun(cfg, run, r).value.ledger) == h + ([Note(p, r)] + tail);
  }

  lemma RestartStaysWithin(cfg: Config, run: Run, r: Resume, n: nat)
    requires RunSound(cfg, run) && ResumeRun(cfg, run, r).Ok? && (r.FromReconciliation? ==> r.safeToRetry)
    requires WithinSessions(cfg.maxRepairAttempts, Bodies(run.ledger), n)
    ensures WithinSessions(cfg.maxRepairAttempts, Bodies(ResumeRun(cfg, run, r).value.ledger), n + 1)
  {
    var h := Bodies(run.ledger);
    ResumedBodies(cfg, run, r);
    ResumedDispatchBudget(cfg, run, r);
    NoteAddsNothing(cfg.maxRepairAttempts, h, Note(ReplayOf(h), r),
                    Rounds(cfg.maxRepairAttempts, ResumedLoop(ReplayOf(h), run.nextId, r), r.rounds).bodies, n);
  }

  lemma NoteAddsNothing(max: nat, h: seq<Body>, note: Body, more: seq<Body>, n: nat)
    requires note.RunResumed? || note.ReconciliationOutcome?
    requires WithinSessions(max, h, n) && Dispatches(more) <= 1 + Passes(more) + max && EvidenceEvents(more) <= max
    ensures WithinSessions(max, h + [note] + more, n + 1)
  {
    CountsAdd([note], more);
    SessionAdds(max, h, [note] + more, n);
    assert h + ([note] + more) == h + [note] + more;
  }

  /** A resumed `execute` has exactly the counted repairs of the ledger less to spend. */
  lemma ResumedDispatchBudget(cfg: Config, run: Run, r: Resume)
    requires RunSound(cfg, run) && ResumeRun(cfg, run, r).Ok? && (r.FromReconciliation? ==> r.safeToRetry)
    ensures var p := ReplayOf(Bodies(run.ledger)); var max := cfg.maxRepairAttempts;
      var leg := Rounds(max, ResumedLoop(p, run.nextId, r), r.rounds);
      && Dispatches(leg.bodies) <= 1 + Passes(leg.bodies) + (max - p.repairs)
      && EvidenceEvents(leg.bodies) <= max - p.repairs <= max
  {
    var p := ReplayOf(Bodies(run.ledger));
    RepairBudgetSurvives(cfg.maxRepairAttempts, Bodies(run.ledger));
    DispatchBudget(cfg.maxRepairAttempts, ResumedLoop(p, run.nextId, r), r.rounds);
  }

  ghost predicate SoundWithin(cfg: Config, run: Run, n: nat) {
    RunSound(cfg, run) && WithinSessions(cfg.maxRepairAttempts, Bodies(run.ledger), n)
  }

  lemma ResumeStaysWithin(cfg: Config, run: Run, r: Resume, n: nat)
    requires SoundWithin(cfg, run, n) && ResumeRun(cfg, run, r).Ok?
    ensures SoundWithin(cfg, ResumeRun(cfg, run, r).value, n + 1)
  {
    ResumeKeepsSound(cfg, run, r);
    if r.FromReconciliation? && !r.safeToRetry {
      UnsafeStaysWithin(cfg, run, r, n);
    } else {
      RestartStaysWithin(cfg, run, r, n);
    }
  }

  lemma {:induction false} LifeStaysWithin(cfg: Config, run: Run, resumes: seq<Resume>, n: nat, m: nat)
    requires SoundWithin(cfg, run, n) && m == n + Accepted(cfg, run, resumes)
    ensures SoundWithin(cfg, Life(cfg, run, resumes), m)
    decreases |resumes|
  {
    if resumes != [] {
      var r := ResumeRun(cfg, run, resumes[0]);
      if r.Ok? { ResumeStaysWithin(cfg, run, resumes[0], n); }
      LifeStaysWithin(cfg, if r.Ok? then r.value else run, resumes[1..], if r.Ok? then n + 1 else n, m);
    }
  }

  lemma FirstStaysWithin(cfg: Config, wp: WorkPackage, rounds: seq<Round>)
    ensures SoundWithin(cfg, FirstExecute(cfg, wp, rounds), 1)
  {
    var max := cfg.maxRepairAttempts;
    var l := Loop(Starting, wp, 0, NOTHING_PENDING, 0, 1);
    FirstExecuteSound(cfg, wp, rounds);
    DispatchBudget(max, l, rounds);
    assert Bodies(FirstExecute(cfg, wp, rounds).ledger) == Rounds(max, l, rounds).bodies;
    TotalOfOne(1 + max);
    TotalOfOne(max);
  }

  lemma LifeIsWithin(cfg: Config, wp: WorkPackage, rounds: seq<Round>, resumes: seq<Resume>, sessions: nat)
    requires sessions == 1 + Accepted(cfg, FirstExecute(cfg, wp, rounds), resumes)
    ensures WithinSessions(cfg.maxRepairAttempts, History(cfg, wp, rounds, resumes), sessions)
  {
    FirstStaysWithin(cfg, wp, rounds);
    LifeStaysWithin(cfg, FirstExecute(cfg, wp, rounds), resumes, 1, sessions);
  }

  /**
   * Over a whole life there are at most `maxRepairAttempts` evidence rounds for each session, the first one and those
   * of accepted resumes, and besides one dispatch for each PASS at most `maxRepairAttempts + 1` dispatches for each.
   */
  lemma LifeWorkIsBounded(cfg: Config, wp: WorkPackage, rounds: seq<Round>, resumes: seq<Resume>)
    ensures var h := History(cfg, wp, rounds, resumes);
      var sessions := 1 + Accepted(cfg, FirstExecute(cfg, wp, rounds), resumes);
      && EvidenceEvents(h) <= cfg.maxRepairAttempts * sessions
      && Dispatches(h) <= Passes(h) + (cfg.maxRepairAttempts + 1) * sessions
  {
    var sessions := 1 + Accepted(cfg, FirstExecute(cfg, wp, rounds), resumes);
    LifeIsWithin(cfg, wp, rounds, resumes, sessions);
    WithinProducts(cfg.maxRepairAttempts, History(cfg, wp, rounds, resumes), sessions);
  }

  const ASKED := Pending(Some("action"), Some("gate"), Some("authority"))

  /** A reviewer that asks for evidence `k` times and then for the owner. */
  function Asking(k: nat): seq<Round> {
    if k == 0 then [Judged("", Completed, [], Some(Completed), Some(OwnerDecisionRequired(ASKED)))]
    else [Judged("", Completed, [], Some(Completed), Some(NeedsEvidence([])))] + Asking(k - 1)
  }

  predicate Uncounting(h: seq<Body>) { forall b | b in h :: !b.EvaluationFailedRepairable? }

  /** One round with a verdict straight from the reviewer. */
  lemma ReviewedRound(max: nat, l: Loop, v: Verdict)
    requires l.repairs <= max
    ensures var first := OneRound(max, l, Judged("", Completed, [], Some(Completed), Some(v)));
      var j := Judge(max, l.(state := Evaluating), v);
      && first.loop == j.loop && first.flow == j.flow && EvidenceEvents(first.bodies) == EvidenceEvents(j.bodies)
      && (Uncounting(j.bodies) ==> Uncounting(first.bodies))
  {
    var j := Judge(max, l.(state := Evaluating), v);
    assert VerdictOf(Settled(Completed, []), Some(Completed), Some(v)) == v;
    OpeningCounts(l, "");
    CountsAdd([Opening(l), RunDispatched(l.attempt, ""), RunCompleted(l.attempt)], j.bodies);
  }

  lemma AskingUnfolds(max: nat, l: Loop, k: nat, first: Leg)
    requires k > 0 && first == OneRound(max, l, Asking(k)[0]) && first.flow == Continue
    ensures var rest := Rounds(max, first.loop, Asking(k - 1));
      Rounds(max, l, Asking(k)) == Leg(first.bodies + rest.bodies, rest.loop, rest.flow)
  {
    assert Asking(k)[1..] == Asking(k - 1);
  }

  lemma {:induction false} AskingLeg(max: nat, l: Loop, k: nat)
    requires l.repairs + k == max
    ensures var leg := Rounds(max, l, Asking(k));
      && EvidenceEvents(leg.bodies) == k && Uncounting(leg.bodies)
      && leg.flow == Returned && leg.loop.state == WaitingForOwner && leg.loop.pending == ASKED
    decreases k
  {
    var first := OneRound(max, l, Asking(k)[0]);
    if k > 0 {
      ReviewedRound(max, l, NeedsEvidence([]));
      AskingLeg(max, first.loop, k - 1);
      AskingUnfolds(max, l, k, first);
      CountsAdd(first.bodies, Rounds(max, first.loop, Asking(k - 1)).bodies);
    } else {
      ReviewedRound(max, l, OwnerDecisionRequired(ASKED));
    }
  }

  lemma {:induction false} UncountingIsUnread(h: seq<Body>)
    requires Uncounting(h)
    ensures ReplayOf(h).repairs == 0
  {
    if h != [] { UncountingIsUnread(h[..|h| - 1]); }
  }

  /** A run that has spent its budget on evidence and waits for the owner. */
  ghost predicate Waiting(cfg: Config, run: Run, n: nat) {
    var h := Bodies(run.ledger);
    && RunSound(cfg, run) && h != [] && Uncounting(h) && EvidenceEvents(h) == Total(cfg.maxRepairAttempts, n)
    && ReplayOf(h).state == WaitingForOwner && ReplayOf(h).pending == ASKED
  }

  function Answer(cfg: Config): Resume {
    WithAuthority(OwnerAuthority(cfg.taskId, ASKED.action, ASKED.gate, "authority"), Asking(cfg.maxRepairAttempts))
  }

  lemma AnswerAccepted(cfg: Config, run: Run, n: nat)
    requires Waiting(cfg, run, n)
    ensures ResumeRun(cfg, run, Answer(cfg)).Ok? && ReplayOf(Bodies(run.ledger)).repairs == 0
  {
    StateReadsEnd(cfg.maxRepairAttempts, Bodies(run.ledger));
    UncountingIsUnread(Bodies(run.ledger));
  }

  /**
   * What the answered session appends: its note, then as many evidence rounds as the maximum, then the next question.
   */
  lemma AnswerAppends(cfg: Config, run: Run, n: nat)
    requires Waiting(cfg, run, n)
    ensures ResumeRun(cfg, run, Answer(cfg)).Ok?
    ensures var h' := Bodies(ResumeRun(cfg, run, Answer(cfg)).value.ledger);
      && h' != [] && Uncounting(h') && EvidenceEvents(h') == EvidenceEvents(Bodies(run.ledger)) + cfg.maxRepairAttempts
      && ReplayOf(h').state == WaitingForOwner && ReplayOf(h').pending == ASKED
  {
    var max, h, r := cfg.maxRepairAttempts, Bodies(run.ledger), Answer(cfg);
    var p := ReplayOf(h);
    AnswerAccepted(cfg, run, n);
    AskingLeg(max, ResumedLoop(p, run.nextId, r), max);
    ReplayAgreesAtReturn(cfg, run, r);
    ResumedBodies(cfg, run, r);
    CountsAdd(h, [Note(p, r)]);
    CountsAdd(h + [Note(p, r)], Rounds(max, ResumedLoop(p, run.nextId, r), r.rounds).bodies);
  }

  lemma AnsweredWaitsAgain(cfg: Config, run: Run, n: nat)
    requires Waiting(cfg, run, n)
    ensures ResumeRun(cfg, run, Answer(cfg)).Ok? && Waiting(cfg, ResumeRun(cfg, run, Answer(cfg)).value, n + 1)
  {
    AnswerAppends(cfg, run, n);
    ResumeKeepsSound(cfg, run, Answer(cfg));
  }

  ghost predicate AllAnswer(cfg: Config, resumes: seq<Resume>) {
    forall j | 0 <= j < |resumes| :: resumes[j] == Answer(cfg)
  }

  /**
   * One resume over and over: a property that survives each acceptance holds of the life, in which all are accepted.
   */
  lemma {:induction false} LifeByStep(
      cfg: Config, r: Resume, P: (Run, nat) -> bool, run: Run, n: nat, resumes: seq<Resume>, m: nat)
    requires P(run, n) && m == n + |resumes| && forall j | 0 <= j < |resumes| :: resumes[j] == r
    requires forall x, i: nat {:trigger P(x, i), ResumeRun(cfg, x, r)} | P(x, i) ::
               ResumeRun(cfg, x, r).Ok? && P(ResumeRun(cfg, x, r).value, i + 1)
    ensures P(Life(cfg, run, resumes), m) && Accepted(cfg, run, resumes) == |resumes|
    decreases |resumes|
  {
    if resumes != [] {
      assert ResumeRun(cfg, run, r).Ok?;
      LifeByStep(cfg, r, P, ResumeRun(cfg, run, r).value, n + 1, resumes[1..], m);
    }
  }

  lemma AnsweredLife(cfg: Config, run: Run, n: nat, answers: seq<Resume>, m: nat)
    requires Waiting(cfg, run, n) && m == n + |answers| && AllAnswer(cfg, answers)
    ensures Waiting(cfg, Life(cfg, run, answers), m) && Accepted(cfg, run, answers) == |answers|
  {
    var P := (x: Run, i: nat) => Waiting(cfg, x, i);
    forall x, i: nat {:trigger P(x, i), ResumeRun(cfg, x, Answer(cfg))} | P(x, i)
      ensures ResumeRun(cfg, x, Answer(cfg)).Ok? && P(ResumeRun(cfg, x, Answer(cfg)).value, i + 1)
    {
      AnsweredWaitsAgain(cfg, x, i);
    }
    LifeByStep(cfg, Answer(cfg), P, run, n, answers, m);
  }

  lemma FirstAsks(cfg: Config, wp: WorkPackage)
    ensures Waiting(cfg, FirstExecute(cfg, wp, Asking(cfg.maxRepairAttempts)), 1)
  {
    var max := cfg.maxRepairAttempts;
    var l := Loop(Starting, wp, 0, NOTHING_PENDING, 0, 1);
    FirstExecuteSound(cfg, wp, Asking(max));
    AskingLeg(max, l, max);
    ReplayAgreesAtFirstReturn(cfg, wp, Asking(max));
    assert Bodies(FirstExecute(cfg, wp, Asking(max)).ledger) == Rounds(max, l, Asking(max)).bodies;
    TotalOfOne(max);
  }

  /**
   * The bound is reached for every maximum and every number of resumes: the maximum alone bounds no evidence across
   * resumes.
   */
  lemma EvidenceBoundIsReached(cfg: Config, wp: WorkPackage, answers: seq<Resume>)
    requires AllAnswer(cfg, answers)
    ensures var rounds := Asking(cfg.maxRepairAttempts);
      && Accepted(cfg, FirstExecute(cfg, wp, rounds), answers) == |answers|
      && EvidenceEvents(History(cfg, wp, rounds, answers)) == cfg.maxRepairAttempts * (1 + |answers|)
  {
    FirstAsks(cfg, wp);
    AnsweredLife(cfg, FirstExecute(cfg, wp, Asking(cfg.maxRepairAttempts)), 1, answers, 1 + |answers|);
    TotalIsProduct(cfg.maxRepairAttempts, 1 + |answers|);
  }

  // ---------------------------------------------------------------- the coordinator class

  lemma StampConcat(revision: nat, a: seq<Body>, b: seq<Body>)
    ensures Stamp(revision, a + b) == Stamp(revision, a) + Stamp(revision + |a|, b)
  {}

  lemma LedgerGrows(base: seq<Event>, revision: nat, a: seq<Body>, b: seq<Body>)
    ensures base + Stamp(revision, a) + Stamp(revision + |a|, b) == base + Stamp(revision, a + b)
  {
    StampConcat(revision, a, b);
  }

  lemma StampOne(revision: nat, b: Body)
    ensures Stamp(revision, [b]) == [Event(revision, b)]
  {}

  lemma FirstAppend(bodies: seq<Body>, nextId: nat)
    ensures Append(Run([], 0), bodies, nextId) == Run([] + Stamp(1, bodies), nextId)
  {}

  class RunCoordinator {
    const cfg: Config
    var ledger: seq<Event>
    var nextId: nat

    function View(): Run
      reads this
    {
      Run(ledger, nextId)
    }

    constructor (cfg: Config)
      ensures this.cfg == cfg && View() == Run([], 0)
    {
      this.cfg := cfg;
      ledger := [];
      nextId := 0;
    }

    method RandomUUID() returns (id: nat)
      modifies `nextId
      ensures id == old(nextId) && nextId == old(nextId) + 1
    {
      id := nextId;
      nextId := nextId + 1;
    }

    method Emit(revision: nat, body: Body) returns (next: nat)
      modifies `ledger
      ensures ledger == old(ledger) + Stamp(revision, [body]) && next == revision + 1
    {
      StampOne(revision, body);
      ledger := ledger + [Event(revision, body)];
      next := revision + 1;
    }

    /** The polling loop, until the status settles or the time limit ends the polls. */
    method AwaitStatus(first: AgentStatus, polls: seq<AgentStatus>) returns (status: AgentStatus)
      ensures status == Settled(first, polls)
    {
      var i := 0;
      status := first;
      while ClassifyStatus(status) == NonTerminal && i < |polls|
        invariant 0 <= i <= |polls|
        invariant Settled(first, polls) == Settled(status, polls[i..])
      {
        status := polls[i];
        i := i + 1;
      }
    }

    /** The verdict of a round: a timeout or a lost transport is ambiguous, a natural failure is repairable. */
    method Review(first: AgentStatus, polls: seq<AgentStatus>, result: Option<AgentStatus>, review: Option<Verdict>)
      returns (v: Verdict)
      ensures v == VerdictOf(Settled(first, polls), result, review)
    {
      var status := AwaitStatus(first, polls);
      if ClassifyStatus(status) == NonTerminal { return AmbiguousSideEffect; }
      if ClassifyStatus(status) == Ambiguous { return AmbiguousSideEffect; }
      if result.None? { return AmbiguousSideEffect; }
      if result.value == Cancelled || result.value == Interrupted { return AmbiguousSideEffect; }
      if result.value == Failed { return FailRepairable(["Run failed naturally, repairing."], None); }
      if review.None? { return AmbiguousSideEffect; }
      return review.value;
    }

    /** The branches on the review decision. */
    method ApplyVerdict(revision: nat, l: Loop, v: Verdict) returns (next: nat, l': Loop, flow: Flow)
      requires l.nextId == nextId
      modifies this
      ensures var j := Judge(cfg.maxRepairAttempts, l, v);
        && ledger == old(ledger) + Stamp(revision, j.bodies) && next == revision + |j.bodies|
        && l' == j.loop && flow == j.flow && nextId == j.loop.nextId
    {
      var state, currentWp, attemptId, pending, repairAttempts := l.state, l.wp, l.attempt, l.pending, l.repairs;
      match v
      case FailRepairable(findings, constraints) =>
        if repairAttempts >= cfg.maxRepairAttempts {
          state := Blocked;
          next := Emit(revision, RunBlocked(attemptId, MAX_REPAIRS));
          return next, l.(state := state), Returned;
        }
        repairAttempts := repairAttempts + 1;
        state := Repairing;
        attemptId := RandomUUID();
        var wpId := RandomUUID();
        currentWp := WorkPackage(wpId, RepairObjective(findings, constraints, currentWp.objective));
        next := Emit(revision, EvaluationFailedRepairable(attemptId, repairAttempts));
        return next, Loop(state, currentWp, attemptId, pending, repairAttempts, nextId), Continue;
      case NeedsEvidence(findings) =>
        if repairAttempts >= cfg.maxRepairAttempts {
          state := Blocked;
          next := Emit(revision, RunBlocked(attemptId, MAX_REPAIRS));
          return next, l.(state := state), Returned;
        }
        repairAttempts := repairAttempts + 1;
        state := Repairing;
        attemptId := RandomUUID();
        var wpId := RandomUUID();
        currentWp := WorkPackage(wpId, EvidenceObjective(findings, currentWp.objective));
        next := Emit(revision, EvaluationNeedsEvidence(attemptId, repairAttempts));
        return next, Loop(state, currentWp, attemptId, pending, repairAttempts, nextId), Continue;
      case AmbiguousSideEffect =>
        next := Emit(revision, EvaluationAmbiguous(attemptId));
        return next, l.(state := Reconciling), Returned;
      case OwnerDecisionRequired(p) =>
        next := Emit(revision, EvaluationOwnerDecision(attemptId, p));
        return next, l.(state := WaitingForOwner, pending := p), Returned;
      case Pass(nextAction) =>
        next := Emit(revision, EvaluationPassed(attemptId, nextAction));
        if nextAction.None? || nextAction.value == "" { return next, l, Threw; }
        var wpId := RandomUUID();
        currentWp := WorkPackage(wpId, nextAction.value);
        attemptId := RandomUUID();
        return next, Loop(Starting, currentWp, attemptId, pending, repairAttempts, nextId), Continue;
      case Complete =>
        next := Emit(revision, RunClosed(attemptId));
        return next, l.(state := Closed), Returned;
      case VerdictBlocked =>
        next := Emit(revision, RunBlocked(attemptId, "BLOCKED"));
        return next, l.(state := Blocked), Returned;
    }

    /** The start or repair-start of a round, its dispatch and its completion. */
    method OpenRound(revision: nat, l: Loop, runId: string, completes: bool) returns (next: nat)
      modifies `ledger
      ensures var bodies := [Opening(l), RunDispatched(l.attempt, runId)] + if completes then
        [RunCompleted(l.attempt)] else [];
        ledger == old(ledger) + Stamp(revision, bodies) && next == revision + |bodies|
    {
      next := Emit(revision, if l.state == Starting then RunStarted(l.attempt, l.wp, l.pending)
        else RunRepairStarted(l.attempt, l.wp, l.pending));
      StampConcat(revision, [Opening(l)], [RunDispatched(l.attempt, runId)]);
      assert [Opening(l)] + [RunDispatched(l.attempt, runId)] == [Opening(l), RunDispatched(l.attempt, runId)];
      next := Emit(next, RunDispatched(l.attempt, runId));
      if completes {
        StampConcat(revision, [Opening(l), RunDispatched(l.attempt, runId)], [RunCompleted(l.attempt)]);
        next := Emit(next, RunCompleted(l.attempt));
      }
    }

    /** One turn of the loop: open, dispatch, await, review, decide. */
    method RunRound(revision: nat, l: Loop, r: Round) returns (next: nat, l': Loop, flow: Flow)
      requires l.nextId == nextId
      modifies this
      ensures var leg := OneRound(cfg.maxRepairAttempts, l, r);
        && ledger == old(ledger) + Stamp(revision, leg.bodies) && next == revision + |leg.bodies|
        && l' == leg.loop && flow == leg.flow && nextId == leg.loop.nextId
    {
      match r
      case DispatchThrows =>
        next := Emit(revision, Opening(l));
        return next, l.(state := Running), Threw;
      case StatusThrows(runId) =>
        next := OpenRound(revision, l, runId, false);
        return next, l.(state := Running), Threw;
      case VerdictLost(runId) =>
        next := OpenRound(revision, l, runId, true);
        assert [Opening(l), RunDispatched(l.attempt, runId)] + [RunCompleted(l.attempt)]
            == [Opening(l), RunDispatched(l.attempt, runId), RunCompleted(l.attempt)];
        return next, l.(state := Evaluating), Threw;
      case Judged(runId, status, polls, result, review) =>
        var v := Review(status, polls, result, review);
        next, l', flow := RunJudged(revision, l, runId, v);
    }

    method RunJudged(revision: nat, l: Loop, runId: string, v: Verdict) returns (next: nat, l': Loop, flow: Flow)
      requires l.nextId == nextId
      modifies this
      ensures var j := Judge(cfg.maxRepairAttempts, l.(state := Evaluating), v);
        var bodies := [Opening(l), RunDispatched(l.attempt, runId), RunCompleted(l.attempt)] + j.bodies;
        && ledger == old(ledger) + Stamp(revision, bodies) && next == revision + |bodies|
        && l' == j.loop && flow == j.flow && nextId == j.loop.nextId
    {
      next := OpenRound(revision, l, runId, true);
      ghost var opening := [Opening(l), RunDispatched(l.attempt, runId)] + [RunCompleted(l.attempt)];
      StampConcat(revision, opening, Judge(cfg.maxRepairAttempts, l.(state := Evaluating), v).bodies);
      assert opening == [Opening(l), RunDispatched(l.attempt, runId), RunCompleted(l.attempt)];
      next, l', flow := ApplyVerdict(next, l.(state := Evaluating), v);
    }

    /** A round behind what the loop has emitted so far. */
    method PlayRound(
        ghost base: seq<Event>, ghost revision: nat, ghost emitted: seq<Body>, rev: nat, l: Loop, r: Round)
      returns (next: nat, l': Loop, flow: Flow, ghost emitted': seq<Body>)
      requires l.nextId == nextId && rev == revision + |emitted| && ledger == base + Stamp(revision, emitted)
      modifies this
      ensures var leg := OneRound(cfg.maxRepairAttempts, l, r);
        && emitted' == emitted + leg.bodies && ledger == base + Stamp(revision, emitted')
        && next == revision + |emitted'| && l' == leg.loop && flow == leg.flow && nextId == leg.loop.nextId
    {
      ghost var leg := OneRound(cfg.maxRepairAttempts, l, r);
      LedgerGrows(base, revision, emitted, leg.bodies);
      next, l', flow := RunRound(rev, l, r);
      emitted' := emitted + leg.bodies;
    }

    /** `execute`: the loop, from fresh or reconstructed locals, over whatever rounds the outside plays. */
    method Execute(revision: nat, start: Loop, rounds: seq<Round>) returns (flow: Flow, l: Loop)
      requires start.nextId == nextId
      modifies this
      ensures var leg := Rounds(cfg.maxRepairAttempts, start, rounds);
        && ledger == old(ledger) + Stamp(revision, leg.bodies)
        && flow == leg.flow && l == leg.loop && nextId == leg.loop.nextId
    {
      ghost var emitted: seq<Body> := [];
      var rev := revision;
      l := start;
      flow := Continue;
      var i := 0;
      SoFarStart(cfg.maxRepairAttempts, start, rounds);
      while flow == Continue && i < |rounds|
        invariant 0 <= i <= |rounds| && l.nextId == nextId && rev == revision + |emitted|
        invariant ledger == old(ledger) + Stamp(revision, emitted)
        invariant if flow == Continue then SoFar(cfg.maxRepairAttempts, start, rounds, i, emitted, l)
                  else Rounds(cfg.maxRepairAttempts, start, rounds) == Leg(emitted, l, flow)
      {
        SoFarStep(cfg.maxRepairAttempts, start, rounds, i, emitted, l);
        rev, l, flow, emitted := PlayRound(old(ledger), revision, emitted, rev, l, rounds[i]);
        i := i + 1;
      }
      if flow == Continue {
        SoFarEnd(cfg.maxRepairAttempts, start, rounds, emitted, l);
        flow := Threw;
      }
    }

    /** The first `execute` of a run id. */
    method Start(wp: WorkPackage, rounds: seq<Round>) returns (flow: Flow, l: Loop)
      requires ledger == [] && nextId == 0
      modifies this
      ensures View() == FirstExecute(cfg, wp, rounds)
      ensures flow == Rounds(cfg.maxRepairAttempts, Loop(Starting, wp, 0, NOTHING_PENDING, 0, 1), rounds).flow
    {
      var attemptId := RandomUUID();
      ghost var leg := Rounds(cfg.maxRepairAttempts, Loop(Starting, wp, 0, NOTHING_PENDING, 0, 1), rounds);
      FirstAppend(leg.bodies, leg.loop.nextId);
      flow, l := Execute(1, Loop(Starting, wp, attemptId, NOTHING_PENDING, 0, nextId), rounds);
    }

    /** The event loop at the head of `resumeWithAuthority`. */
    method ReplayLedger() returns (p: Replay)
      ensures p == ReplayOf(Bodies(ledger))
    {
      ghost var h := Bodies(ledger);
      var lastWp: Option<WorkPackage>, lastAttemptId: Option<nat> := None, None;
      var currentState, pending, repairAttempts := Starting, NOTHING_PENDING, 0;
      for i := 0 to |ledger|
        invariant ReplayOf(h[..i]) == Replay(lastWp, lastAttemptId, currentState, pending, repairAttempts)
      {
        assert h[..i + 1][..i] == h[..i] && h[..i + 1][i] == ledger[i].body;
        match ledger[i].body
        case RunStarted(attempt, wp, pend) =>
          lastWp, lastAttemptId, pending, currentState := Some(wp), Some(attempt), pend, Running;
        case RunRepairStarted(attempt, wp, pend) =>
          lastWp, lastAttemptId, pending, currentState := Some(wp), Some(attempt), pend, Running;
        case RunDispatched(_, _) => currentState := Running;
        case RunCompleted(_) => currentState := Evaluating;
        case EvaluationFailedRepairable(_, k) => repairAttempts, currentState := k, Repairing;
        case EvaluationAmbiguous(_) => currentState := Reconciling;
        case EvaluationOwnerDecision(_, pend) => currentState, pending := WaitingForOwner, pend;
        case RunClosed(_) => currentState := Closed;
        case RunBlocked(_, _) => currentState := Blocked;
        case _ =>
      }
      assert h[..|h|] == h;
      return Replay(lastWp, lastAttemptId, currentState, pending, repairAttempts);
    }

    /** The event loop at the head of `resumeFromReconciliation`. */
    method ReplayForReconciliation() returns (p: ShortReplay)
      ensures p == ShortReplayOf(Bodies(ledger))
    {
      ghost var h := Bodies(ledger);
      var lastWp: Option<WorkPackage>, lastAttemptId: Option<nat> := None, None;
      var currentState, repairAttempts := Starting, 0;
      for i := 0 to |ledger|
        invariant ShortReplayOf(h[..i]) == ShortReplay(lastWp, lastAttemptId, currentState, repairAttempts)
      {
        assert h[..i + 1][..i] == h[..i] && h[..i + 1][i] == ledger[i].body;
        match ledger[i].body
        case RunStarted(attempt, wp, _) => lastWp, lastAttemptId, currentState := Some(wp), Some(attempt), Running;
        case RunRepairStarted(attempt, wp, _) =>
          lastWp, lastAttemptId, currentState := Some(wp), Some(attempt), Running;
        case RunDispatched(_, _) => currentState := Running;
        case RunCompleted(_) => currentState := Evaluating;
        case EvaluationFailedRepairable(_, k) => repairAttempts, currentState := k, Repairing;
        case EvaluationAmbiguous(_) => currentState := Reconciling;
        case EvaluationOwnerDecision(_, _) => currentState := WaitingForOwner;
        case RunClosed(_) => currentState := Closed;
        case RunBlocked(_, _) => currentState := Blocked;
        case _ =>
      }
      assert h[..|h|] == h;
      return ShortReplay(lastWp, lastAttemptId, currentState, repairAttempts);
    }

    ghost predicate Follows(before: Run, r: Resume, error: Option<ResumeError>)
      reads this
    {
      match ResumeRun(cfg, before, r)
      case Ok(run) => error.None? && View() == run
      case Err(e) => error == Some(e) && View() == before
    }

    method ResumeWithAuthority(a: OwnerAuthority, rounds: seq<Round>) returns (error: Option<ResumeError>)
      modifies this
      ensures Follows(old(View()), WithAuthority(a, rounds), error)
    {
      if |ledger| == 0 { return Some(NoEvents); }
      var p := ReplayLedger();
      WpComesWithAttempt(Bodies(ledger));
      if p.wp.None? { return Some(NoWorkPackage); }
      if a.taskId != cfg.taskId { return Some(TaskMismatch); }
      if p.state != WaitingForOwner { return Some(WrongState); }
      if a.action.None? || a.action.value == "" || a.action != p.pending.action { return Some(ActionMismatch); }
      if a.gate.None? || a.gate.value == "" || a.gate != p.pending.gate { return Some(GateMismatch); }
      if Some(a.authorityType) != p.pending.authority { return Some(AuthorityMismatch); }
      Restarted(WithAuthority(a, rounds), p.wp.value, p.attempt.value, RunResumed(p.attempt.value, a.authorityType),
        Starting, p.pending, p.repairs, rounds);
      return None;
    }

    method ResumeFromReconciliation(safeToRetry: bool, reason: string, cut: bool, rounds: seq<Round>)
      returns (error: Option<ResumeError>)
      modifies this
      ensures Follows(old(View()), FromReconciliation(safeToRetry, reason, cut, rounds), error)
    {
      if |ledger| == 0 { return Some(NoEvents); }
      var p := ReplayForReconciliation();
      FoldsAgree(Bodies(ledger));
      WpComesWithAttempt(Bodies(ledger));
      if p.wp.None? { return Some(NoWorkPackage); }
      if p.state != Reconciling { return Some(WrongState); }
      var note := ReconciliationOutcome(p.attempt.value, safeToRetry);
      if safeToRetry {
        Restarted(FromReconciliation(safeToRetry, reason, cut, rounds), p.wp.value, p.attempt.value, note, Repairing,
          NOTHING_PENDING, p.repairs, rounds);
        return None;
      }
      ghost var base := ledger;
      var revision := Emit(|ledger| + 1, note);
      if !cut {
        LedgerGrows(base, |base| + 1, [note], [RunBlocked(p.attempt.value, "RECONCILIATION_UNSAFE: " + reason)]);
        revision := Emit(revision, RunBlocked(p.attempt.value, "RECONCILIATION_UNSAFE: " + reason));
      } else {
        assert [note] + [] == [note];
      }
      return None;
    }

    /** Append the note and re-enter the loop with the replayed locals. */
    method Restarted(ghost r: Resume, wp: WorkPackage, attempt: nat, note: Body, state: RunState, pending: Pending,
                     repairs: nat, rounds: seq<Round>)
      requires var p := ReplayOf(Bodies(ledger));
        && ResumeRun(cfg, View(), r).Ok? && (r.FromReconciliation? ==> r.safeToRetry) && rounds == r.rounds
        && p.wp == Some(wp) && p.attempt == Some(attempt) && note == Note(p, r) && repairs == p.repairs
        && state == (if r.WithAuthority? then Starting else Repairing)
        && pending == (if r.WithAuthority? then p.pending else NOTHING_PENDING)
      modifies this
      ensures Ok(View()) == ResumeRun(cfg, old(View()), r)
    {
      ghost var base, p := ledger, ReplayOf(Bodies(ledger));
      ghost var restart := ResumedLoop(p, nextId, r);
      LedgerGrows(base, |base| + 1, [note], Rounds(cfg.maxRepairAttempts, restart, rounds).bodies);
      var revision := Emit(|ledger| + 1, note);
      var wpId := RandomUUID();
      var attemptId := RandomUUID();
      var _, _ := Execute(revision,
        Loop(state, WorkPackage(wpId, wp.objective), attemptId, pending, repairs, nextId), rounds);
    }
  }

  lemma {:induction false} WpComesWithAttempt(h: seq<Body>)
    ensures ReplayOf(h).wp.Some? <==> ReplayOf(h).attempt.Some?
  {
    if h != [] { WpComesWithAttempt(h[..|h| - 1]); }
  }

  /** After `i` rounds the loop has emitted `emitted` and stands at `l`. */
  ghost predicate SoFar(max: nat, start: Loop, rounds: seq<Round>, i: nat, emitted: seq<Body>, l: Loop)
    requires i <= |rounds|
  {
    var rest := Rounds(max, l, rounds[i..]);
    Rounds(max, start, rounds) == Leg(emitted + rest.bodies, rest.loop, rest.flow)
  }

  lemma SoFarStart(max: nat, start: Loop, rounds: seq<Round>)
    ensures SoFar(max, start, rounds, 0, [], start)
  {
    assert rounds[0..] == rounds;
  }

  lemma SoFarEnd(max: nat, start: Loop, rounds: seq<Round>, emitted: seq<Body>, l: Loop)
    requires SoFar(max, start, rounds, |rounds|, emitted, l)
    ensures Rounds(max, start, rounds) == Leg(emitted, l, Threw)
  {
    assert rounds[|rounds|..] == [];
  }

  lemma SoFarStep(max: nat, start: Loop, rounds: seq<Round>, i: nat, emitted: seq<Body>, l: Loop)
    requires i < |rounds| && SoFar(max, start, rounds, i, emitted, l)
    ensures var leg := OneRound(max, l, rounds[i]);
      if leg.flow == Continue then SoFar(max, start, rounds, i + 1, emitted + leg.bodies, leg.loop)
      else Rounds(max, start, rounds) == Leg(emitted + leg.bodies, leg.loop, leg.flow)
  {
    var leg := OneRound(max, l, rounds[i]);
    assert rounds[i..][0] == rounds[i] && rounds[i..][1..] == rounds[i + 1..];
    if leg.flow == Continue {
      var rest := Rounds(max, leg.loop, rounds[i + 1..]);
      assert emitted + (leg.bodies + rest.bodies) == emitted + leg.bodies + rest.bodies;
    }
  }
}
