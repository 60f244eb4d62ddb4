/**
 * What becomes of a run, in terms of what the outside does: how each round ends by what was polled, returned and
 * reviewed, and what that means for the rest of the run's life.
 */
module RunOutcomes {
  import opened Common
  import opened RunCoordinator

  // ---------------------------------------------------------------- what a round shows

  /** The statuses that end the polling: the agent's run is over, or nobody knows what became of it. */
  predicate Stops(s: AgentStatus) { s in {Completed, Failed, Cancelled, Interrupted, Unknown} }

  function Polled(first: AgentStatus, later: seq<AgentStatus>): seq<AgentStatus> { [first] + later }

  /** The `k`-th poll is the first to end the polling. */
  predicate StopsAt(first: AgentStatus, later: seq<AgentStatus>, k: nat) {
    k <= |later| && Stops(Polled(first, later)[k]) && forall i | 0 <= i < k :: !Stops(Polled(first, later)[i])
  }

  predicate TimesOut(r: Round)
    requires r.Judged?
  {
    forall i | 0 <= i <= |r.polls| :: !Stops(Polled(r.status, r.polls)[i])
  }

  /** The polling ended on the status. */
  predicate EndsOn(r: Round, s: AgentStatus)
    requires r.Judged?
  {
    exists k | 0 <= k <= |r.polls| :: StopsAt(r.status, r.polls, k) && Polled(r.status, r.polls)[k] == s
  }

  /** The agent's run is known to be over, and its result was fetched. */
  predicate Fetched(r: Round)
    requires r.Judged?
  {
    && (EndsOn(r, Completed) || EndsOn(r, Failed) || EndsOn(r, Cancelled) || EndsOn(r, Interrupted))
    && r.result.Some?
  }

  predicate FailsByItself(r: Round)
    requires r.Judged?
  {
    Fetched(r) && r.result == Some(Failed)
  }

  /** The reviewer was asked, and answered. */
  predicate Reviewed(r: Round, v: Verdict)
    requires r.Judged?
  {
    Fetched(r) && r.result.value !in {Failed, Cancelled, Interrupted} && r.review == Some(v)
  }

  /** Nobody can tell what the agent has done. */
  predicate Lost(r: Round)
    requires r.Judged?
  {
    || TimesOut(r) || EndsOn(r, Unknown) || r.result.None? || r.result.value in {Cancelled, Interrupted}
    || (r.result.value != Failed && r.review.None?)
    || (r.result.value != Failed && r.review == Some(AmbiguousSideEffect))
  }

  predicate AsksRepair(r: Round)
    requires r.Judged?
  {
    FailsByItself(r) || (r.review.Some? && Reviewed(r, r.review.value) && r.review.value.FailRepairable?)
  }

  predicate AsksEvidence(r: Round)
    requires r.Judged?
  {
    r.review.Some? && Reviewed(r, r.review.value) && r.review.value.NeedsEvidence?
  }

  /** The loop's polling ends where the first stopping status is, and without one at the last poll. */
  lemma {:induction false} SettledIsFirst(first: AgentStatus, later: seq<AgentStatus>)
    ensures forall k | 0 <= k <= |later| && StopsAt(first, later, k) ::
      Settled(first, later) == Polled(first, later)[k]
    ensures Stops(Settled(first, later)) ==> exists k | 0 <= k <= |later| :: StopsAt(first, later, k)
    ensures !Stops(Settled(first, later)) ==>
      forall i | 0 <= i <= |later| :: !Stops(Polled(first, later)[i])
    decreases |later|
  {
    assert Polled(first, later)[0] == first;
    if Stops(first) {
      assert StopsAt(first, later, 0);
    } else if later != [] {
      SettledIsFirst(later[0], later[1..]);
      assert Polled(first, later)[1..] == Polled(later[0], later[1..]);
      forall k | 0 < k <= |later| ensures StopsAt(first, later, k) <==> StopsAt(later[0], later[1..], k - 1) {
        assert forall i | 0 < i <= k :: Polled(first, later)[i] == Polled(later[0], later[1..])[i - 1];
      }
      if Stops(Settled(first, later)) {
        var k :| 0 <= k <= |later[1..]| && StopsAt(later[0], later[1..], k);
        assert StopsAt(first, later, k + 1);
      }
    }
  }

  lemma StopsIffKnown(s: AgentStatus)
    ensures Stops(s) <==> ClassifyStatus(s) != NonTerminal
    ensures ClassifyStatus(s) == Ambiguous <==> s == Unknown
  {
    match s { case _ => }
  }

  lemma EndsOnSettled(r: Round, s: AgentStatus)
    requires r.Judged?
    ensures EndsOn(r, s) <==> Stops(s) && Settled(r.status, r.polls) == s
    ensures TimesOut(r) <==> !Stops(Settled(r.status, r.polls))
  {
    SettledIsFirst(r.status, r.polls);
  }

  lemma VerdictReads(r: Round)
    requires r.Judged?
    ensures var v := VerdictOf(Settled(r.status, r.polls), r.result, r.review);
      && (v == AmbiguousSideEffect <==> Lost(r))
      && (FailsByItself(r) ==> v.FailRepairable?)
      && (r.review.Some? && Reviewed(r, r.review.value) ==> v == r.review.value)
      && (Lost(r) || FailsByItself(r) || (r.review.Some? && Reviewed(r, r.review.value)))
  {
    var s := Settled(r.status, r.polls);
    StopsIffKnown(s);
    EndsOnSettled(r, Unknown);
    EndsOnSettled(r, Completed);
    EndsOnSettled(r, Failed);
    EndsOnSettled(r, Cancelled);
    EndsOnSettled(r, Interrupted);
  }

  // ---------------------------------------------------------------- how a round ends

  function Last(bodies: seq<Body>): Body
    requires bodies != []
  {
    bodies[|bodies| - 1]
  }

  lemma RoundEndsAsJudged(max: nat, l: Loop, r: Round)
    requires r.Judged?
    ensures var leg := OneRound(max, l, r);
      var j := Judge(max, l.(state := Evaluating), VerdictOf(Settled(r.status, r.polls), r.result, r.review));
      && leg.bodies != [] && j.bodies != [] && Last(leg.bodies) == Last(j.bodies)
      && leg.flow == j.flow && leg.loop == j.loop
  {
  }

  /**
   * A round is ambiguous exactly when no poll settled, the settled status is UNKNOWN, the result or the review is
   * missing, the result is CANCELLED or INTERRUPTED, or the reviewer said so; then the run stops to be reconciled.
   */
  lemma AmbiguousIffLost(max: nat, l: Loop, r: Round)
    requires r.Judged?
    ensures var leg := OneRound(max, l, r);
      && leg.bodies != [] && (Last(leg.bodies).EvaluationAmbiguous? <==> Lost(r))
      && (Lost(r) ==> leg.flow == Returned && leg.loop == l.(state := Reconciling))
  {
    VerdictReads(r);
    RoundEndsAsJudged(max, l, r);
  }

  /**
   * A failed result is repaired, and so is what the reviewer sends back, under a fresh attempt, while the budget
   * lasts; then the run is blocked. Asking for evidence draws on the same budget.
   */
  lemma RepairsIffAsked(max: nat, l: Loop, r: Round)
    requires r.Judged?
    ensures var leg := OneRound(max, l, r);
      && leg.bodies != []
      && (Last(leg.bodies).EvaluationFailedRepairable? <==> AsksRepair(r) && l.repairs < max)
      && (Last(leg.bodies).EvaluationNeedsEvidence? <==> AsksEvidence(r) && l.repairs < max)
      && (Last(leg.bodies) == RunBlocked(l.attempt, "MAX_REPAIR_ATTEMPTS_EXCEEDED") <==>
            (AsksRepair(r) || AsksEvidence(r)) && l.repairs >= max)
      && (AsksRepair(r) || AsksEvidence(r) ==>
            if l.repairs < max then
              leg.flow == Continue && leg.loop.state == Repairing && leg.loop.repairs == l.repairs + 1
              && leg.loop.attempt == l.nextId
            else leg.flow == Returned && leg.loop == l.(state := Blocked))
  {
    VerdictReads(r);
    RoundEndsAsJudged(max, l, r);
  }

  /** Every other verdict of the reviewer stands: the owner is asked, the run goes on, is closed or is blocked. */
  lemma ReviewStands(max: nat, l: Loop, r: Round)
    requires r.Judged?
    ensures var leg := OneRound(max, l, r);
      && leg.bodies != []
      && (forall p ::
            Last(leg.bodies) == EvaluationOwnerDecision(l.attempt, p) <==> Reviewed(r, OwnerDecisionRequired(p)))
      && (forall n :: Last(leg.bodies) == EvaluationPassed(l.attempt, n) <==> Reviewed(r, Pass(n)))
      && (Last(leg.bodies) == RunClosed(l.attempt) <==> Reviewed(r, Complete))
      && (Last(leg.bodies) == RunBlocked(l.attempt, "BLOCKED") <==> Reviewed(r, VerdictBlocked))
  {
    VerdictReads(r);
    RoundEndsAsJudged(max, l, r);
  }

  /**
   * The loop goes round again exactly for a repair or evidence within the budget and for a PASS with a next action,
   * whose objective it takes over; it throws exactly for a PASS without one.
   */
  lemma GoesOnIff(max: nat, l: Loop, r: Round)
    requires r.Judged?
    ensures var leg := OneRound(max, l, r);
      var next := if r.review.Some? && r.review.value.Pass? then r.review.value.nextAction else None;
      var passed := Reviewed(r, Pass(next));
      && (leg.flow == Continue <==>
            ((AsksRepair(r) || AsksEvidence(r)) && l.repairs < max) || (passed && next.Some? && next.value != ""))
      && (leg.flow == Threw <==> passed && (next.None? || next.value == ""))
      && (passed && leg.flow == Continue ==> leg.loop.state == Starting && next == Some(leg.loop.wp.objective))
  {
    VerdictReads(r);
    RoundEndsAsJudged(max, l, r);
  }

  lemma {:induction false} PartsAreJoined(parts: seq<string>, i: nat)
    requires i < |parts|
    ensures Contained(parts[i], Join(parts))
  {
    if |parts| == 1 {
      PartIsContained("", parts[0], "");
      assert "" + parts[0] + "" == parts[0];
    } else if i == 0 {
      PartIsContained("", parts[0], ";" + Join(parts[1..]));
      assert "" + parts[0] + (";" + Join(parts[1..])) == Join(parts);
    } else {
      PartsAreJoined(parts[1..], i - 1);
      PartIsContained(parts[0] + ";", Join(parts[1..]), "");
      assert parts[0] + ";" + Join(parts[1..]) + "" == Join(parts);
      ContainedInContained(parts[i], Join(parts[1..]), Join(parts));
    }
  }

  lemma ContainedInContained(part: string, text: string, whole: string)
    requires Contained(part, text) && Contained(text, whole)
    ensures Contained(part, whole)
  {
    var i :| 0 <= i <= |text| - |part| && StandsAt(part, text, i);
    var j :| 0 <= j <= |whole| - |text| && StandsAt(text, whole, j);
    var found := whole[j + i..j + i + |part|];
    forall x | 0 <= x < |part| ensures found[x] == part[x] {
      assert whole[j..j + |text|][i + x] == text[i + x] && text[i..i + |part|][x] == text[i + x];
    }
    assert found == part;
    assert StandsAt(part, whole, j + i);
  }

  /** What the reviewer finds missing reaches the agent word for word, together with the task as it stood. */
  lemma FindingsReachTheAgent(max: nat, l: Loop, r: Round, i: nat)
    requires r.Judged? && (AsksRepair(r) || AsksEvidence(r)) && l.repairs < max
    requires !FailsByItself(r) && i < |r.review.value.findings|
    ensures var objective := OneRound(max, l, r).loop.wp.objective;
      && Contained(r.review.value.findings[i], objective) && Contained(l.wp.objective, objective)
      && (r.review.value.FailRepairable? && r.review.value.constraints.Some? ==>
            Contained(r.review.value.constraints.value, objective))
  {
    VerdictReads(r);
    RoundEndsAsJudged(max, l, r);
    var findings := r.review.value.findings;
    var constraints := if r.review.value.FailRepairable? then r.review.value.constraints else None;
    RepairCarries(findings, constraints, l.wp.objective);
    FindingIsCarried(findings, constraints, l.wp.objective, i);
  }

  lemma FindingIsCarried(findings: seq<string>, constraints: Option<string>, original: string, i: nat)
    requires i < |findings|
    ensures Contained(findings[i], RepairObjective(findings, constraints, original))
    ensures Contained(findings[i], EvidenceObjective(findings, original))
    ensures constraints.Some? ==> Contained(constraints.value, RepairObjective(findings, constraints, original))
  {
    var all, repair := Join(findings), RepairObjective(findings, constraints, original);
    PartsAreJoined(findings, i);
    JoinedIsCarried(all, original, if constraints.Some? then "\nRepair Constraints: " + constraints.value else "");
    ContainedInContained(findings[i], all, repair);
    ContainedInContained(findings[i], all, EvidenceObjective(findings, original));
    if constraints.Some? {
      var front := "Repair feedback: " + all + "\nOriginal: " + original + "\nRepair Constraints: ";
      PartIsContained(front, constraints.value, "");
      assert front + constraints.value + "" == repair;
    }
  }

  lemma JoinedIsCarried(all: string, original: string, tail: string)
    ensures Contained(all, "Repair feedback: " + all + "\nOriginal: " + original + tail)
    ensures Contained(all, "Needs evidence: " + all + "\nOriginal: " + original)
  {
    PartIsContained("Repair feedback: ", all, "\nOriginal: " + original + tail);
    PartIsContained("Needs evidence: ", all, "\nOriginal: " + original);
    assert "Repair feedback: " + all + ("\nOriginal: " + original + tail)
        == "Repair feedback: " + all + "\nOriginal: " + original + tail;
    assert "Needs evidence: " + all + ("\nOriginal: " + original)
        == "Needs evidence: " + all + "\nOriginal: " + original;
  }

  // ---------------------------------------------------------------- a whole life

  /** Every round before the `n`-th goes on, so the `n`-th is played. */
  predicate Reaches(max: nat, l: Loop, rounds: seq<Round>, n: nat)
    decreases n
  {
    n < |rounds| && (n > 0 ==>
      var first := OneRound(max, l, rounds[0]);
      first.flow == Continue && Reaches(max, first.loop, rounds[1..], n - 1))
  }

  lemma {:induction false} LostRoundEndsSession(max: nat, l: Loop, rounds: seq<Round>, n: nat)
    requires Reaches(max, l, rounds, n) && rounds[n].Judged? && Lost(rounds[n])
    ensures var leg := Rounds(max, l, rounds);
      leg.bodies != [] && Last(leg.bodies).EvaluationAmbiguous? && leg.flow == Returned && leg.loop.state == Reconciling
    decreases n
  {
    var first := OneRound(max, l, rounds[0]);
    if n == 0 {
      AmbiguousIffLost(max, l, rounds[0]);
    } else {
      assert rounds[1..][n - 1] == rounds[n];
      LostRoundEndsSession(max, first.loop, rounds[1..], n - 1);
    }
  }

  lemma {:induction false} LifeExtends(cfg: Config, run: Run, resumes: seq<Resume>)
    ensures run.ledger <= Life(cfg, run, resumes).ledger
    decreases |resumes|
  {
    if resumes != [] {
      var r := ResumeRun(cfg, run, resumes[0]);
      LifeExtends(cfg, if r.Ok? then r.value else run, resumes[1..]);
    }
  }

  /** The run has stopped to be reconciled. */
  predicate EndsAmbiguous(run: Run) { run.ledger != [] && run.ledger[|run.ledger| - 1].body.EvaluationAmbiguous? }

  /** Between position `i` and position `j` a reconciliation has declared the retry safe. */
  predicate SafeBetween(h: seq<Body>, i: nat, j: nat) {
    exists k | i <= k < j && k < |h| :: h[k].ReconciliationOutcome? && h[k].safeToRetry
  }

  lemma AmbiguousRunWaits(cfg: Config, run: Run, resumes: seq<Resume>, j: nat)
    requires RunSound(cfg, run) && EndsAmbiguous(run)
    requires var h := Bodies(Life(cfg, run, resumes).ledger); |run.ledger| <= j < |h| && h[j].RunDispatched?
    ensures SafeBetween(Bodies(Life(cfg, run, resumes).ledger), |run.ledger|, j)
  {
    var h, i := Bodies(Life(cfg, run, resumes).ledger), |run.ledger| - 1;
    LifeExtends(cfg, run, resumes);
    LifeKeepsSound(cfg, run, resumes);
    assert h[i] == run.ledger[i].body;
    var k := AmbiguityNeedsSafeOutcome(cfg.maxRepairAttempts, h, i, j);
  }

  function FirstLoop(wp: WorkPackage): Loop { Loop(Starting, wp, 0, NOTHING_PENDING, 0, 1) }

  /**
   * When a round of the first session leaves nobody knowing what the agent did, nothing is dispatched any more, in
   * whatever life follows, before a reconciliation has declared the retry safe.
   */
  lemma LostRoundNeedsSafeOutcome(
      cfg: Config, wp: WorkPackage, rounds: seq<Round>, n: nat, resumes: seq<Resume>, j: nat)
    requires Reaches(cfg.maxRepairAttempts, FirstLoop(wp), rounds, n) && rounds[n].Judged? && Lost(rounds[n])
    requires var h := History(cfg, wp, rounds, resumes);
      |FirstExecute(cfg, wp, rounds).ledger| <= j < |h| && h[j].RunDispatched?
    ensures EndsAmbiguous(FirstExecute(cfg, wp, rounds))
    ensures SafeBetween(History(cfg, wp, rounds, resumes), |FirstExecute(cfg, wp, rounds).ledger|, j)
  {
    LostRoundEndsSession(cfg.maxRepairAttempts, FirstLoop(wp), rounds, n);
    FirstExecuteSound(cfg, wp, rounds);
    AmbiguousRunWaits(cfg, FirstExecute(cfg, wp, rounds), resumes, j);
  }

  /** The same for a round of any resumed session, in any life up to there and after it. */
  lemma LostRoundOfResumeNeedsSafeOutcome(
      cfg: Config, wp: WorkPackage, rounds: seq<Round>, before: seq<Resume>, r: Resume, n: nat, resumes: seq<Resume>,
      j: nat)
    requires var run := Life(cfg, FirstExecute(cfg, wp, rounds), before);
      && ResumeRun(cfg, run, r).Ok? && (r.FromReconciliation? ==> r.safeToRetry)
      && Reaches(cfg.maxRepairAttempts, ResumedFrom(run, r), r.rounds, n) && r.rounds[n].Judged? && Lost(r.rounds[n])
    requires var run := ResumeRun(cfg, Life(cfg, FirstExecute(cfg, wp, rounds), before), r).value;
      var h := Bodies(Life(cfg, run, resumes).ledger); |run.ledger| <= j < |h| && h[j].RunDispatched?
    ensures var run := ResumeRun(cfg, Life(cfg, FirstExecute(cfg, wp, rounds), before), r).value;
      EndsAmbiguous(run) && SafeBetween(Bodies(Life(cfg, run, resumes).ledger), |run.ledger|, j)
  {
    var run := Life(cfg, FirstExecute(cfg, wp, rounds), before);
    FirstExecuteSound(cfg, wp, rounds);
    LifeKeepsSound(cfg, FirstExecute(cfg, wp, rounds), before);
    LostSessionEnds(cfg, run, r, n);
    ResumeKeepsSound(cfg, run, r);
    AmbiguousRunWaits(cfg, ResumeRun(cfg, run, r).value, resumes, j);
  }

  function ResumedFrom(run: Run, r: Resume): Loop {
    var p := ReplayOf(Bodies(run.ledger));
    if p.wp.Some? then ResumedLoop(p, run.nextId, r) else FirstLoop(WorkPackage(0, ""))
  }

  lemma LostSessionEnds(cfg: Config, run: Run, r: Resume, n: nat)
    requires ResumeRun(cfg, run, r).Ok? && (r.FromReconciliation? ==> r.safeToRetry)
    requires Reaches(cfg.maxRepairAttempts, ResumedFrom(run, r), r.rounds, n)
    requires r.rounds[n].Judged? && Lost(r.rounds[n])
    ensures EndsAmbiguous(ResumeRun(cfg, run, r).value)
  {
    var max, h := cfg.maxRepairAttempts, Bodies(run.ledger);
    var run' := ResumeRun(cfg, run, r).value;
    LostRoundEndsSession(max, ResumedFrom(run, r), r.rounds, n);
    ResumedBodies(cfg, run, r);
    assert Bodies(run'.ledger)[|run'.ledger| - 1] == Last(Rounds(max, ResumedFrom(run, r), r.rounds).bodies);
  }

  lemma {:induction false} BlockedRunStays(cfg: Config, run: Run, resumes: seq<Resume>)
    requires RunSound(cfg, run) && run.ledger != []
    requires var last := run.ledger[|run.ledger| - 1].body; last.RunBlocked? || last.RunClosed?
    ensures Life(cfg, run, resumes) == run && Accepted(cfg, run, resumes) == 0
    decreases |resumes|
  {
    if resumes != [] {
      EndedRunRefuses(cfg, run, resumes[0]);
      BlockedRunStays(cfg, run, resumes[1..]);
    }
  }

  lemma EndedRunRefuses(cfg: Config, run: Run, r: Resume)
    requires RunSound(cfg, run) && run.ledger != []
    requires var last := run.ledger[|run.ledger| - 1].body; last.RunBlocked? || last.RunClosed?
    ensures ResumeRun(cfg, run, r).Err?
  {
    StateReadsEnd(cfg.maxRepairAttempts, Bodies(run.ledger));
  }

  /**
   * An outcome that declares the retry unsafe blocks the run for good, with its reason: every later resume is refused
   * and nothing is appended.
   */
  lemma UnsafeOutcomeBlocks(cfg: Config, run: Run, r: Resume, resumes: seq<Resume>)
    requires RunSound(cfg, run) && ResumeRun(cfg, run, r).Ok?
    requires r.FromReconciliation? && !r.safeToRetry && !r.cut
    ensures var run' := ResumeRun(cfg, run, r).value;
      && |run'.ledger| == |run.ledger| + 2
      && (var last := run'.ledger[|run.ledger| + 1].body; last.RunBlocked? && Contained(r.reason, last.reason))
      && Life(cfg, run', resumes) == run' && Accepted(cfg, run', resumes) == 0
  {
    UnsafeKeepsSound(cfg, run, r);
    PartIsContained("RECONCILIATION_UNSAFE: ", r.reason, "");
    assert "RECONCILIATION_UNSAFE: " + r.reason + "" == "RECONCILIATION_UNSAFE: " + r.reason;
    BlockedRunStays(cfg, ResumeRun(cfg, run, r).value, resumes);
  }

  /** What the reason of a refusal claims about ledger and event. */
  predicate ReasonHolds(cfg: Config, run: Run, r: Resume, e: ResumeError) {
    var p := ReplayOf(Bodies(run.ledger)).pending;
    match e
    case NoEvents => run.ledger == []
    case NoWorkPackage => false
    case TaskMismatch => r.WithAuthority? && r.authority.taskId != cfg.taskId
    case WrongState =>
      run.ledger != [] &&
      (var last := run.ledger[|run.ledger| - 1].body;
       if r.WithAuthority? then !last.EvaluationOwnerDecision? && !last.RunResumed?
       else !last.EvaluationAmbiguous? && !last.ReconciliationOutcome?)
    case ActionMismatch => r.WithAuthority? && !(Present(r.authority.action) && r.authority.action == p.action)
    case GateMismatch => r.WithAuthority? && !(Present(r.authority.gate) && r.authority.gate == p.gate)
    case AuthorityMismatch => r.WithAuthority? && p.authority != Some(r.authority.authorityType)
  }

  /** In every life a refused resume appends nothing, and the reason it is refused with is true of the ledger. */
  lemma RefusalIsTrue(cfg: Config, wp: WorkPackage, rounds: seq<Round>, before: seq<Resume>, r: Resume)
    requires ResumeRun(cfg, Life(cfg, FirstExecute(cfg, wp, rounds), before), r).Err?
    ensures var run := Life(cfg, FirstExecute(cfg, wp, rounds), before);
      && ReasonHolds(cfg, run, r, ResumeRun(cfg, run, r).error)
      && Life(cfg, run, [r]) == run
  {
    var run := Life(cfg, FirstExecute(cfg, wp, rounds), before);
    FirstExecuteSound(cfg, wp, rounds);
    LifeKeepsSound(cfg, FirstExecute(cfg, wp, rounds), before);
    SoundRefusalIsTrue(cfg, run, r);
    assert [r][1..] == [] && Life(cfg, run, []) == run;
  }

  lemma SoundRefusalIsTrue(cfg: Config, run: Run, r: Resume)
    requires RunSound(cfg, run) && ResumeRun(cfg, run, r).Err?
    ensures ReasonHolds(cfg, run, r, ResumeRun(cfg, run, r).error)
  {
    if run.ledger != [] { StateReadsEnd(cfg.maxRepairAttempts, Bodies(run.ledger)); }
  }

  // ---------------------------------------------------------------- the task through repairs and resumes

  lemma ContainsItself(text: string)
    ensures Contained(text, text)
  {
    assert StandsAt(text, text, 0);
  }

  /** What one event does to the task: nothing is lost unless the event before it was a PASS. */
  lemma TaskStep(max: nat, h: seq<Body>, b: Body)
    requires h != [] && MayFollow(max, h, b) && !h[|h| - 1].EvaluationPassed? && ReplayOf(h).wp.Some?
    ensures var wp := Fold(ReplayOf(h), b).wp; wp.Some? && Contained(ReplayOf(h).wp.value.objective, wp.value.objective)
  {
    ContainsItself(ReplayOf(h).wp.value.objective);
  }

  /** The `n`-th event loses nothing of the task. */
  predicate KeepsTask(h: seq<Body>, n: nat)
    requires 0 < n <= |h|
  {
    var before, after := ReplayOf(h[..n - 1]).wp, ReplayOf(h[..n]).wp;
    before.Some? ==> after.Some? && Contained(before.value.objective, after.value.objective)
  }

  lemma TaskThrough(max: nat, h: seq<Body>, n: nat)
    requires InLanguage(max, h) && 1 < n <= |h| && !h[n - 2].EvaluationPassed?
    ensures KeepsTask(h, n)
  {
    var g := h[..n - 1];
    assert h[..n][..n - 1] == g && g[|g| - 1] == h[n - 2];
    assert MayFollow(max, g, h[n - 1]);
    if ReplayOf(g).wp.Some? { TaskStep(max, g, h[n - 1]); }
  }

  lemma {:induction false} TaskIsKept(h: seq<Body>, i: nat, n: nat)
    requires i < n <= |h| && Starts(h[i]) && forall m | i + 1 < m <= n :: KeepsTask(h, m)
    ensures var wp := ReplayOf(h[..n]).wp; wp.Some? && Contained(h[i].wp.objective, wp.value.objective)
    decreases n
  {
    if n == i + 1 {
      StartSetsTask(h, i);
      ContainsItself(h[i].wp.objective);
    } else {
      TaskIsKept(h, i, n - 1);
      assert KeepsTask(h, n);
      ContainedInContained(
        h[i].wp.objective, ReplayOf(h[..n - 1]).wp.value.objective, ReplayOf(h[..n]).wp.value.objective);
    }
  }

  lemma LanguageKeepsTheTask(max: nat, h: seq<Body>, i: nat, j: nat)
    requires InLanguage(max, h) && i < j < |h| && Starts(h[i]) && Starts(h[j])
    requires forall k | i < k < j :: !h[k].EvaluationPassed?
    ensures Contained(h[i].wp.objective, h[j].wp.objective)
  {
    forall m | i + 1 < m <= j + 1 ensures KeepsTask(h, m) { TaskThrough(max, h, m); }
    TaskIsKept(h, i, j + 1);
    StartSetsTask(h, j);
  }

  lemma StartSetsTask(h: seq<Body>, j: nat)
    requires j < |h| && Starts(h[j])
    ensures ReplayOf(h[..j + 1]).wp == Some(h[j].wp)
  {
    assert h[..j + 1][..j] == h[..j];
  }

  /**
   * Over a whole life, suspensions and resumes included: as long as no PASS has given it a next task, every work
   * package the agent is started on contains the objective of the earlier ones word for word.
   */
  lemma LifeKeepsTheTask(cfg: Config, wp: WorkPackage, rounds: seq<Round>, resumes: seq<Resume>, i: nat, j: nat)
    requires var h := History(cfg, wp, rounds, resumes);
      i < j < |h| && Starts(h[i]) && Starts(h[j]) && forall k | i < k < j :: !h[k].EvaluationPassed?
    ensures var h := History(cfg, wp, rounds, resumes); Contained(h[i].wp.objective, h[j].wp.objective)
  {
    LedgerIsLegal(cfg, wp, rounds, resumes);
    LanguageKeepsTheTask(cfg.maxRepairAttempts, History(cfg, wp, rounds, resumes), i, j);
  }
}
