/**
 * The two incident services over the hash chains: opening, mitigating and resolving incidents,
 * which words of states an incident can run through, and initialisation from stored rows.
 * Redaction, clock and id factories are parameters.
 */
module Incidents {
  import opened Common
  import opened HashChain
  import opened Lists
  import opened ChainService

  type Redaction = string -> string

  datatype Refusal = NotFound | CannotTransition(from: IncidentState, to: IncidentState)

  datatype Call =
    | OpenIncident(
        projectId: string, runId: string, description: string, severity: string, attemptId: Option<string>,
        workItemId: Option<string>, incidentId: string, id: string, timestamp: int)
    | Mitigate(projectId: string, incidentId: string, claim: string, evidence: Option<string>, id: string,
      timestamp: int)
    | Resolve(projectId: string, incidentId: string, claim: string, evidence: Option<string>, id: string,
      timestamp: int)

  type Outcome = Result<Record, Refusal>

  function InProject(p: string): Record -> bool { (r: Record) => r.projectId == p }

  function Under(p: string, i: string): Record -> bool { (r: Record) => r.projectId == p && r.group == i }

  predicate HoldsIncidents(events: seq<Record>) { forall r | r in events :: r.content.IncidentContent? }

  /** The events of one incident, oldest first. */
  function EventsOf(s: Service, p: string, i: string): seq<Record> { SortBySequence(Filter(s.events, Under(p, i))) }

  lemma EventsOfMembers(s: Service, p: string, i: string)
    ensures forall r :: r in EventsOf(s, p, i) <==> r in s.events && r.projectId == p && r.group == i
  {
    FilterMembers(s.events, Under(p, i));
    SortSorts(Filter(s.events, Under(p, i)));
    forall r ensures r in EventsOf(s, p, i) <==> r in Filter(s.events, Under(p, i)) {
      assert r in multiset(EventsOf(s, p, i)) <==> r in multiset(Filter(s.events, Under(p, i)));
    }
  }

  /** An empty claim is stored as no claim. */
  function ClaimOf(redact: Redaction, claim: string): Option<string> {
    if claim == "" then None else Some(redact(claim))
  }

  predicate MayMove(from: IncidentState, to: IncidentState) {
    from != Resolved && (from == Mitigated ==> to == Resolved) && (from == Open ==> to == Mitigated || to == Resolved)
  }

  /** What a transition copies from the incident's last event. */
  function MovedContent(
      redact: Redaction, last: Content, state: IncidentState, claim: string, evidence: Option<string>, id: string,
      timestamp: int): (c: Content)
    requires last.IncidentContent?
    ensures c.IncidentContent?
  {
    IncidentContent(
      id, last.runId, last.attemptId, last.workItemId, state, last.severity, redact(last.description), timestamp,
      ClaimOf(redact, claim), evidence)
  }

  function Move(
    h: HashFunction, redact: Redaction, s: Service, p: string, i: string, state: IncidentState, claim: string,
    evidence: Option<string>, id: string, timestamp: int): (Service, Outcome)
    requires HoldsIncidents(s.events)
  {
    var evts := EventsOf(s, p, i);
    if evts == [] then (s, Err(NotFound))
    else
      EventsOfMembers(s, p, i);
      assert evts[|evts| - 1] in evts;
      var last := evts[|evts| - 1].content;
      if !MayMove(last.state, state) then (s, Err(CannotTransition(last.state, state)))
      else
        var content := MovedContent(redact, last, state, claim, evidence, id, timestamp);
        (Append(h, s, p, i, content), Ok(Link(h, s, p, i, content)))
  }

  function OpenedContent(redact: Redaction, c: Call): Content
    requires c.OpenIncident?
  {
    IncidentContent(
      c.id, c.runId, c.attemptId, c.workItemId, Open, c.severity, redact(c.description), c.timestamp, None, None)
  }

  function Step(h: HashFunction, redact: Redaction, s: Service, c: Call): (r: (Service, Outcome))
    requires HoldsIncidents(s.events)
    ensures HoldsIncidents(r.0.events)
  {
    match c
    case OpenIncident(p, _, _, _, _, _, i, _, _) =>
      (Append(h, s, p, i, OpenedContent(redact, c)), Ok(Link(h, s, p, i, OpenedContent(redact, c))))
    case Mitigate(p, i, claim, evidence, id, timestamp) =>
      Move(h, redact, s, p, i, Mitigated, claim, evidence, id, timestamp)
    case Resolve(p, i, claim, evidence, id, timestamp) =>
      Move(h, redact, s, p, i, Resolved, claim, evidence, id, timestamp)
  }

  function Run(h: HashFunction, redact: Redaction, s: Service, calls: seq<Call>): (s': Service)
    requires HoldsIncidents(s.events)
    ensures HoldsIncidents(s'.events)
  {
    if calls == [] then s else Step(h, redact, Run(h, redact, s, calls[..|calls| - 1]), calls[|calls| - 1]).0
  }

  /** What each call returned or threw. */
  function Outcomes(h: HashFunction, redact: Redaction, s: Service, calls: seq<Call>): seq<Outcome>
    requires HoldsIncidents(s.events)
  {
    if calls == [] then []
    else
      var n := |calls| - 1;
      Outcomes(h, redact, s, calls[..n]) + [Step(h, redact, Run(h, redact, s, calls[..n]), calls[n]).1]
  }

  // ---------------------------------------------------------------- every run verifies

  lemma StepKeepsSound(h: HashFunction, redact: Redaction, s: Service, c: Call)
    requires HoldsIncidents(s.events) && Sound(h, s)
    ensures Sound(h, Step(h, redact, s, c).0) && Step(h, redact, s, c).0.numbering == s.numbering
  {
    var r := Step(h, redact, s, c);
    if r.1.Ok? { AppendKeepsSound(h, s, r.1.value.projectId, r.1.value.group, r.1.value.content); }
  }

  lemma {:induction false} RunKeepsSound(h: HashFunction, redact: Redaction, s: Service, calls: seq<Call>)
    requires HoldsIncidents(s.events) && Sound(h, s)
    ensures Sound(h, Run(h, redact, s, calls)) && Run(h, redact, s, calls).numbering == s.numbering
  {
    if calls != [] {
      RunKeepsSound(h, redact, s, calls[..|calls| - 1]);
      StepKeepsSound(h, redact, Run(h, redact, s, calls[..|calls| - 1]), calls[|calls| - 1]);
    }
  }

  /** The verifier accepts every event list any sequence of service calls can produce, in every order. */
  lemma EveryRunVerifies(
      h: HashFunction, redact: Redaction, numbering: Numbering, calls: seq<Call>, shuffled: seq<Record>)
    requires multiset(shuffled) == multiset(Run(h, redact, Empty(numbering), calls).events)
    ensures Verifies(h, shuffled)
  {
    EmptyIsSound(h, numbering);
    RunKeepsSound(h, redact, Empty(numbering), calls);
    SoundVerifies(h, Run(h, redact, Empty(numbering), calls), shuffled);
  }

  // ---------------------------------------------------------------- the life of an incident

  /** In a sound service the events of an incident were appended in sequence order. */
  lemma EventsInOrder(h: HashFunction, s: Service, p: string, i: string)
    requires Sound(h, s)
    ensures Increasing(Filter(s.events, Under(p, i))) && EventsOf(s, p, i) == Filter(s.events, Under(p, i))
  {
    var k := Key(p, i);
    assert KeySound(h, s, k);
    FilterTwice(s.events, HasKey(k), Under(p, i));
    FilterKeepsIncreasing(GroupOf(s.events, k), Under(p, i));
    SortKeepsSorted(Filter(s.events, Under(p, i)));
  }

  function States(events: seq<Record>): seq<IncidentState>
    requires HoldsIncidents(events)
  {
    seq(|events|, i requires 0 <= i < |events| => assert events[i] in events; events[i].content.state)
  }

  function StatesOf(s: Service, p: string, i: string): seq<IncidentState>
    requires HoldsIncidents(s.events)
  {
    EventsOfMembers(s, p, i);
    States(EventsOf(s, p, i))
  }

  /** OPEN, then optionally MITIGATED, then optionally RESOLVED. */
  predicate LegalLife(states: seq<IncidentState>) {
    states in {[], [Open], [Open, Mitigated], [Open, Resolved], [Open, Mitigated, Resolved]}
  }

  function Opens(calls: seq<Call>, p: string, i: string): nat {
    if calls == [] then 0
    else
      var c := calls[|calls| - 1];
      Opens(calls[..|calls| - 1], p, i) + if c.OpenIncident? && c.projectId == p && c.incidentId == i then 1 else 0
  }

  function OpenCount(states: seq<IncidentState>): nat {
    if states == [] then 0 else OpenCount(states[..|states| - 1]) + if states[|states| - 1] == Open then 1 else 0
  }

  lemma StatesSnoc(events: seq<Record>, r: Record)
    requires HoldsIncidents(events) && r.content.IncidentContent?
    ensures HoldsIncidents(events + [r]) && States(events + [r]) == States(events) + [r.content.state]
  {
  }

  /** An append reaches the events of its own incident alone. */
  lemma AppendEvents(h: HashFunction, s: Service, q: string, j: string, content: Content, p: string, i: string)
    requires Sound(h, s)
    ensures EventsOf(Append(h, s, q, j, content), p, i) ==
      EventsOf(s, p, i) + if p == q && i == j then [Link(h, s, q, j, content)] else []
  {
    AppendKeepsSound(h, s, q, j, content);
    EventsInOrder(h, s, p, i);
    EventsInOrder(h, Append(h, s, q, j, content), p, i);
    FilterSnoc(s.events, Link(h, s, q, j, content), Under(p, i));
  }

  lemma AppendStates(h: HashFunction, s: Service, q: string, j: string, content: Content, p: string, i: string)
    requires HoldsIncidents(s.events) && Sound(h, s) && content.IncidentContent?
    ensures HoldsIncidents(Append(h, s, q, j, content).events)
    ensures StatesOf(Append(h, s, q, j, content), p, i) ==
      StatesOf(s, p, i) + if p == q && i == j then [content.state] else []
  {
    EventsOfMembers(s, p, i);
    AppendEvents(h, s, q, j, content, p, i);
    if p == q && i == j { StatesSnoc(EventsOf(s, p, i), Link(h, s, q, j, content)); }
  }

  /** The last event of an incident carries its last state. */
  lemma LastState(s: Service, q: string, j: string)
    requires HoldsIncidents(s.events) && EventsOf(s, q, j) != []
    ensures var evts := EventsOf(s, q, j); var w := StatesOf(s, q, j);
      && evts[|evts| - 1].content.IncidentContent? && w != [] && w[|w| - 1] == evts[|evts| - 1].content.state
  {
    EventsOfMembers(s, q, j);
    assert EventsOf(s, q, j)[|EventsOf(s, q, j)| - 1] in EventsOf(s, q, j);
  }

  /** What a transition appends, if it is allowed. */
  lemma MoveAppends(
    h: HashFunction, redact: Redaction, s: Service, q: string, j: string, to: IncidentState, claim: string,
    evidence: Option<string>, id: string, timestamp: int) returns (content: Content)
    requires HoldsIncidents(s.events)
    ensures content.IncidentContent? && content.state == to
    ensures Move(h, redact, s, q, j, to, claim, evidence, id, timestamp).0 ==
      if MayMoveFrom(StatesOf(s, q, j), to) then Append(h, s, q, j, content) else s
  {
    var evts := EventsOf(s, q, j);
    if evts == [] {
      assert StatesOf(s, q, j) == [];
      return IncidentContent(id, "", None, None, to, "", "", timestamp, None, None);
    }
    LastState(s, q, j);
    return MovedContent(redact, evts[|evts| - 1].content, to, claim, evidence, id, timestamp);
  }

  predicate MayMoveFrom(states: seq<IncidentState>, to: IncidentState) {
    states != [] && MayMove(states[|states| - 1], to)
  }

  lemma MoveStates(
    h: HashFunction, redact: Redaction, s: Service, q: string, j: string, to: IncidentState, claim: string,
    evidence: Option<string>, id: string, timestamp: int, p: string, i: string)
    requires HoldsIncidents(s.events) && Sound(h, s)
    ensures HoldsIncidents(Move(h, redact, s, q, j, to, claim, evidence, id, timestamp).0.events)
    ensures StatesOf(Move(h, redact, s, q, j, to, claim, evidence, id, timestamp).0, p, i) ==
      Moved(StatesOf(s, p, i), to, p == q && i == j)
  {
    var content := MoveAppends(h, redact, s, q, j, to, claim, evidence, id, timestamp);
    if MayMoveFrom(StatesOf(s, q, j), to) {
      AppendStates(h, s, q, j, content, p, i);
      assert StatesOf(s, p, i) + [] == StatesOf(s, p, i);
    }
  }

  function Moved(states: seq<IncidentState>, to: IncidentState, here: bool): seq<IncidentState> {
    if here && MayMoveFrom(states, to) then states + [to] else states
  }

  /** One call adds at most one state to one incident, and only a legal one unless it opens. */
  lemma StepStates(h: HashFunction, redact: Redaction, s: Service, c: Call, p: string, i: string)
    requires HoldsIncidents(s.events) && Sound(h, s)
    ensures var before, here := StatesOf(s, p, i), p == c.projectId && i == c.incidentId;
      StatesOf(Step(h, redact, s, c).0, p, i) ==
        if c.OpenIncident? then before + (if here then [Open] else [])
        else Moved(before, if c.Mitigate? then Mitigated else Resolved, here)
  {
    match c
    case OpenIncident(q, _, _, _, _, _, j, _, _) => AppendStates(h, s, q, j, OpenedContent(redact, c), p, i);
    case Mitigate(q, j, claim, evidence, id, timestamp) =>
      MoveStates(h, redact, s, q, j, Mitigated, claim, evidence, id, timestamp, p, i);
    case Resolve(q, j, claim, evidence, id, timestamp) =>
      MoveStates(h, redact, s, q, j, Resolved, claim, evidence, id, timestamp, p, i);
  }

  predicate LifeOk(w: seq<IncidentState>, opens: nat) {
    OpenCount(w) == opens && (opens == 0 ==> w == []) && (opens == 1 ==> LegalLife(w) && w != [])
  }

  lemma {:induction false} LifeInvariant(
      h: HashFunction, redact: Redaction, numbering: Numbering, calls: seq<Call>, p: string, i: string)
    ensures LifeOk(StatesOf(Run(h, redact, Empty(numbering), calls), p, i), Opens(calls, p, i))
  {
    if calls != [] {
      var before, c := calls[..|calls| - 1], calls[|calls| - 1];
      LifeInvariant(h, redact, numbering, before, p, i);
      EmptyIsSound(h, numbering);
      RunKeepsSound(h, redact, Empty(numbering), before);
      LifeStep(h, redact, Run(h, redact, Empty(numbering), before), c, p, i, Opens(before, p, i));
    } else {
      assert StatesOf(Empty(numbering), p, i) == [];
    }
  }

  lemma LifeStep(h: HashFunction, redact: Redaction, s: Service, c: Call, p: string, i: string, opens: nat)
    requires HoldsIncidents(s.events) && Sound(h, s) && LifeOk(StatesOf(s, p, i), opens)
    ensures LifeOk(
      StatesOf(Step(h, redact, s, c).0, p, i),
      opens + if c.OpenIncident? && c.projectId == p && c.incidentId == i then 1 else 0)
  {
    StepStates(h, redact, s, c, p, i);
    assert StatesOf(s, p, i) + [] == StatesOf(s, p, i);
    LifeOkAfter(StatesOf(s, p, i), opens, if c.Mitigate? then Mitigated else Resolved);
  }

  lemma LifeOkAfter(w: seq<IncidentState>, opens: nat, to: IncidentState)
    requires LifeOk(w, opens) && to != Open
    ensures LifeOk(w + [Open], opens + 1) && LifeOk(Moved(w, to, true), opens)
  {
    SnocOpenCount(w);
    if opens == 1 {
      assert w == [Open] ==> w + [to] == [Open, to];
      assert w == [Open, Mitigated] ==> w + [to] == [Open, Mitigated, to];
    }
  }

  lemma SnocOpenCount(w: seq<IncidentState>)
    ensures forall x :: OpenCount(w + [x]) == OpenCount(w) + if x == Open then 1 else 0
  {
    forall x ensures OpenCount(w + [x]) == OpenCount(w) + if x == Open then 1 else 0 {
      assert (w + [x])[..|w|] == w;
    }
  }

  lemma {:induction false} LegalOpensOnce(w: seq<IncidentState>)
    requires w == [] || (w[0] == Open && forall i | 1 <= i < |w| :: w[i] != Open)
    ensures OpenCount(w) <= 1
  {
    if |w| > 1 {
      LegalOpensOnce(w[..|w| - 1]);
    } else if |w| == 1 {
      assert w[..0] == [];
    }
  }

  /** Over every run, an incident's states are legal exactly when its id was handed out at most once. */
  lemma LegalLifeIffOpenedOnce(
      h: HashFunction, redact: Redaction, numbering: Numbering, calls: seq<Call>, p: string, i: string)
    ensures LegalLife(StatesOf(Run(h, redact, Empty(numbering), calls), p, i)) <==> Opens(calls, p, i) <= 1
  {
    LifeInvariant(h, redact, numbering, calls, p, i);
    LegalIffOpens(StatesOf(Run(h, redact, Empty(numbering), calls), p, i), Opens(calls, p, i));
  }

  lemma LegalIffOpens(w: seq<IncidentState>, opens: nat)
    requires LifeOk(w, opens)
    ensures LegalLife(w) <==> opens <= 1
  {
    if LegalLife(w) { LegalOpensOnce(w); }
  }

  // ---------------------------------------------------------------- what the records of an incident say

  /** The record is what the call said, its text redacted. */
  predicate Says(redact: Redaction, r: Record, c: Call) {
    && r.projectId == c.projectId && r.group == c.incidentId && r.content.IncidentContent?
    && r.content.id == c.id && r.content.timestamp == c.timestamp
    && match c
       case OpenIncident(_, runId, description, severity, attemptId, workItemId, _, _, _) =>
         && r.content.state == Open && r.content.runId == runId && r.content.severity == severity
         && r.content.attemptId == attemptId && r.content.workItemId == workItemId
         && r.content.description == redact(description)
         && r.content.resolutionClaim.None? && r.content.recoveryEvidenceId.None?
       case Mitigate(_, _, claim, evidence, _, _) => r.content.state == Mitigated && Claims(redact, r, claim, evidence)
       case Resolve(_, _, claim, evidence, _, _) => r.content.state == Resolved && Claims(redact, r, claim, evidence)
  }

  predicate Claims(redact: Redaction, r: Record, claim: string, evidence: Option<string>)
    requires r.content.IncidentContent?
  {
    && r.content.recoveryEvidenceId == evidence
    && (claim == "" ==> r.content.resolutionClaim.None?)
    && (claim != "" ==> r.content.resolutionClaim == Some(redact(claim)))
  }

  /** The later record is of the same run, attempt, work item and severity, its text redacted once more. */
  predicate CarriesOn(redact: Redaction, before: Record, r: Record) {
    && before.content.IncidentContent? && r.content.IncidentContent?
    && r.content.runId == before.content.runId && r.content.severity == before.content.severity
    && r.content.attemptId == before.content.attemptId && r.content.workItemId == before.content.workItemId
    && r.content.description == redact(before.content.description)
  }

  /** An answered call appends one record, says what it was told, and carries on from the last of its incident. */
  lemma StepSays(h: HashFunction, redact: Redaction, s: Service, c: Call)
    requires HoldsIncidents(s.events)
    ensures var r := Step(h, redact, s, c); var evts := EventsOf(s, c.projectId, c.incidentId);
      && (r.1.Err? ==> r.0 == s)
      && (r.1.Ok? ==>
            && r.0 == Append(h, s, c.projectId, c.incidentId, r.1.value.content)
            && r.1.value == Link(h, s, c.projectId, c.incidentId, r.1.value.content)
            && Says(redact, r.1.value, c))
      && (r.1.Ok? && !c.OpenIncident? ==> evts != [] && CarriesOn(redact, evts[|evts| - 1], r.1.value))
  {
    EventsOfMembers(s, c.projectId, c.incidentId);
    var evts := EventsOf(s, c.projectId, c.incidentId);
    if evts != [] { assert evts[|evts| - 1] in evts; }
  }

  /**
   * Exactly when a call is refused: for an incident without records, or one whose last state does not allow the next.
   * An opening never is.
   */
  lemma RefusedIff(h: HashFunction, redact: Redaction, s: Service, c: Call, from: IncidentState, to: IncidentState)
    requires HoldsIncidents(s.events)
    ensures var w := StatesOf(s, c.projectId, c.incidentId); var r := Step(h, redact, s, c).1;
      && (r == Err(NotFound) <==> !c.OpenIncident? && w == [])
      && (r == Err(CannotTransition(from, to)) <==>
            && !c.OpenIncident? && w != [] && from == w[|w| - 1] && to == (if c.Mitigate? then Mitigated else Resolved)
            && (from == Resolved || (from == Mitigated && to == Mitigated)))
  {
    EventsOfMembers(s, c.projectId, c.incidentId);
    if EventsOf(s, c.projectId, c.incidentId) != [] { LastState(s, c.projectId, c.incidentId); }
  }

  /** Each record of an incident but the openings carries on from the one before it. */
  predicate Continuous(redact: Redaction, w: seq<Record>) {
    forall n | 0 <= n < |w| :: OpensOrCarriesOn(redact, w, n)
  }

  predicate OpensOrCarriesOn(redact: Redaction, w: seq<Record>, n: nat)
    requires n < |w|
  {
    w[n].content.IncidentContent? && (w[n].content.state != Open ==> n > 0 && CarriesOn(redact, w[n - 1], w[n]))
  }

  lemma StepContinues(h: HashFunction, redact: Redaction, s: Service, c: Call, p: string, i: string)
    requires HoldsIncidents(s.events) && Sound(h, s) && Continuous(redact, EventsOf(s, p, i))
    ensures Continuous(redact, EventsOf(Step(h, redact, s, c).0, p, i))
  {
    StepSays(h, redact, s, c);
    var r := Step(h, redact, s, c);
    if r.1.Ok? {
      AppendEvents(h, s, c.projectId, c.incidentId, r.1.value.content, p, i);
      if p == c.projectId && i == c.incidentId {
        ContinuousSnoc(redact, EventsOf(s, p, i), r.1.value);
      } else {
        assert EventsOf(s, p, i) + [] == EventsOf(s, p, i);
      }
    }
  }

  lemma ContinuousSnoc(redact: Redaction, w: seq<Record>, r: Record)
    requires Continuous(redact, w) && r.content.IncidentContent?
    requires r.content.state != Open ==> w != [] && CarriesOn(redact, w[|w| - 1], r)
    ensures Continuous(redact, w + [r])
  {
    var w' := w + [r];
    forall n | 0 <= n < |w'| ensures OpensOrCarriesOn(redact, w', n) {
      if n < |w| { assert OpensOrCarriesOn(redact, w, n) && w'[n] == w[n] && (n > 0 ==> w'[n - 1] == w[n - 1]); }
    }
  }

  /**
   * Over every run: what is known of an incident does not change on the way. Each of its records but an opening is of
   * the same run, attempt, work item and severity as the one before, and its text is that one's, redacted once more.
   */
  lemma {:induction false} IncidentStaysTheSame(
      h: HashFunction, redact: Redaction, numbering: Numbering, calls: seq<Call>, p: string, i: string)
    ensures Continuous(redact, EventsOf(Run(h, redact, Empty(numbering), calls), p, i))
  {
    if calls != [] {
      var before := calls[..|calls| - 1];
      IncidentStaysTheSame(h, redact, numbering, before, p, i);
      EmptyIsSound(h, numbering);
      RunKeepsSound(h, redact, Empty(numbering), before);
      StepContinues(h, redact, Run(h, redact, Empty(numbering), before), calls[|calls| - 1], p, i);
    } else {
      assert EventsOf(Empty(numbering), p, i) == [];
    }
  }

  /** The text came out of the redactor. */
  ghost predicate Redacted(redact: Redaction, text: string) { exists raw :: text == redact(raw) }

  ghost predicate AllRedacted(redact: Redaction, events: seq<Record>) {
    forall r | r in events ::
      && r.content.IncidentContent? && Redacted(redact, r.content.description)
      && (r.content.resolutionClaim.Some? ==> Redacted(redact, r.content.resolutionClaim.value))
  }

  lemma SaidIsRedacted(redact: Redaction, r: Record, c: Call)
    requires Says(redact, r, c)
    ensures c.OpenIncident? ==> Redacted(redact, r.content.description)
    ensures r.content.resolutionClaim.Some? ==> Redacted(redact, r.content.resolutionClaim.value)
  {
    match c
    case OpenIncident(_, _, description, _, _, _, _, _, _) =>
      assert r.content.description == redact(description);
    case Mitigate(_, _, claim, _, _, _) => if claim != "" { assert r.content.resolutionClaim == Some(redact(claim)); }
    case Resolve(_, _, claim, _, _, _) => if claim != "" { assert r.content.resolutionClaim == Some(redact(claim)); }
  }

  /** Over every run no description and no claim is held, or handed to the queue, that the redactor has not seen. */
  lemma {:induction false} NothingUnredacted(
      h: HashFunction, redact: Redaction, numbering: Numbering, calls: seq<Call>)
    ensures AllRedacted(redact, Run(h, redact, Empty(numbering), calls).events)
  {
    if calls != [] {
      var s, c := Run(h, redact, Empty(numbering), calls[..|calls| - 1]), calls[|calls| - 1];
      NothingUnredacted(h, redact, numbering, calls[..|calls| - 1]);
      StepSays(h, redact, s, c);
      var r := Step(h, redact, s, c).1;
      if r.Ok? {
        SaidIsRedacted(redact, r.value, c);
        if !c.OpenIncident? {
          var evts := EventsOf(s, c.projectId, c.incidentId);
          assert r.value.content.description == redact(evts[|evts| - 1].content.description);
        }
      }
    }
  }

  // ---------------------------------------------------------------- initialisation

  /** One stored row overwrites what is remembered for its key. */
  function Remember(s: Service, r: Record): Service {
    s.(seqs := s.seqs[KeyOf(r) := r.sequence], lastHash := s.lastHash[KeyOf(r) := r.hash], events := s.events + [r])
  }

  /** `initialize`: the stored rows in sequence order. */
  function AfterInitialize(s: Service, rows: seq<Record>): (s': Service)
    ensures s'.events == s.events + rows && s'.numbering == s.numbering
  {
    if rows == [] then s else Remember(AfterInitialize(s, rows[..|rows| - 1]), rows[|rows| - 1])
  }

  // ---------------------------------------------------------------- the services

  /** `InMemoryIncidentService`: one sequence counter for all incidents. */
  class InMemoryIncidentService {
    var events: seq<Record>
    var lastHashByIncident: map<string, Hash>
    var seqNo: nat
    const h: HashFunction
    const redact: Redaction

    constructor (h: HashFunction, redact: Redaction)
      ensures State() == Empty(Global) && this.h == h && this.redact == redact
    {
      events, lastHashByIncident, seqNo := [], map[], 0;
      this.h, this.redact := h, redact;
    }

    function State(): Service
      reads this
    {
      Service(Global, events, lastHashByIncident, seqNo, map[])
    }

    method AppendEvent(projectId: string, incidentId: string, content: Content) returns (evt: Record)
      modifies this
      ensures State() == Append(h, old(State()), projectId, incidentId, content)
      ensures evt == Link(h, old(State()), projectId, incidentId, content)
    {
      seqNo := seqNo + 1;
      var sequence := seqNo;
      var key := Key(projectId, incidentId);
      var previousHash := if key in lastHashByIncident then Some(lastHashByIncident[key]) else None;
      var hash := h(Preimage(projectId, incidentId, content, sequence, previousHash));
      evt := Record(projectId, incidentId, content, sequence, previousHash, hash);
      lastHashByIncident := lastHashByIncident[key := hash];
      events := events + [evt];
    }

    method OpenIncident(c: Call) returns (evt: Record)
      requires c.OpenIncident? && HoldsIncidents(events)
      modifies this
      ensures (State(), Ok(evt)) == Step(h, redact, old(State()), c)
    {
      evt := AppendEvent(c.projectId, c.incidentId, OpenedContent(redact, c));
    }

    method TransitionIncident(
      projectId: string, incidentId: string, state: IncidentState, claim: string, evidence: Option<string>, id: string,
      timestamp: int)
      returns (r: Outcome)
      requires HoldsIncidents(events)
      modifies this
      ensures (State(), r) ==
        Move(h, redact, old(State()), projectId, incidentId, state, claim, evidence, id, timestamp)
    {
      var evts := EventsOf(State(), projectId, incidentId);
      EventsOfMembers(State(), projectId, incidentId);
      if |evts| == 0 { return Err(NotFound); }
      var last := evts[|evts| - 1].content;
      assert evts[|evts| - 1] in evts;
      if last.state == Resolved { return Err(CannotTransition(last.state, state)); }
      if last.state == Mitigated && state != Resolved { return Err(CannotTransition(last.state, state)); }
      if last.state == Open && state != Mitigated && state != Resolved {
        return Err(CannotTransition(last.state, state));
      }
      var evt := AppendEvent(projectId, incidentId, MovedContent(redact, last, state, claim, evidence, id, timestamp));
      return Ok(evt);
    }

    method ListIncidentEvents(projectId: string) returns (list: seq<Record>)
      ensures Sorted(list) && multiset(list) == multiset(Filter(events, InProject(projectId)))
      ensures forall r :: multiset(list)[r] == if r.projectId == projectId then multiset(events)[r] else 0
    {
      list := SortBySequence(Filter(events, InProject(projectId)));
      SortSorts(Filter(events, InProject(projectId)));
      FilterCounts(events, InProject(projectId));
    }
  }

  /** `PrismaIncidentService`: a counter per key, a memory projection of the events, and the queue to the database. */
  class PrismaIncidentService {
    var queue: seq<Record>
    var eventsProj: seq<Record>
    var seqs: map<string, int>
    var lastHashes: map<string, Hash>
    const h: HashFunction
    const redact: Redaction

    constructor (h: HashFunction, redact: Redaction)
      ensures State() == Empty(PerKey) && queue == [] && this.h == h && this.redact == redact
    {
      queue, eventsProj, seqs, lastHashes := [], [], map[], map[];
      this.h, this.redact := h, redact;
    }

    function State(): Service
      reads this
    {
      Service(PerKey, eventsProj, lastHashes, 0, seqs)
    }

    /** `records`: the project's rows, lowest sequence first. */
    method Initialize(records: seq<Record>)
      modifies this`eventsProj, this`seqs, this`lastHashes
      ensures State() == AfterInitialize(old(State()), records)
    {
      ghost var before := State();
      for i := 0 to |records|
        invariant State() == AfterInitialize(before, records[..i])
      {
        var r := records[i];
        var key := KeyOf(r);
        seqs := seqs[key := r.sequence];
        lastHashes := lastHashes[key := r.hash];
        eventsProj := eventsProj + [r];
        assert records[..i + 1][..i] == records[..i];
      }
      assert records[..|records|] == records;
    }

    method AppendEvent(projectId: string, incidentId: string, content: Content) returns (evt: Record)
      modifies this
      ensures State() == Append(h, old(State()), projectId, incidentId, content)
      ensures evt == Link(h, old(State()), projectId, incidentId, content)
      ensures queue == old(queue) + [evt]
    {
      var key := Key(projectId, incidentId);
      var sequence := if key in seqs then seqs[key] else 0;
      sequence := sequence + 1;
      seqs := seqs[key := sequence];
      var previousHash := if key in lastHashes then Some(lastHashes[key]) else None;
      var hash := h(Preimage(projectId, incidentId, content, sequence, previousHash));
      evt := Record(projectId, incidentId, content, sequence, previousHash, hash);
      lastHashes := lastHashes[key := hash];
      eventsProj := eventsProj + [evt];
      queue := queue + [evt];
    }

    method OpenIncident(c: Call) returns (evt: Record)
      requires c.OpenIncident? && HoldsIncidents(eventsProj)
      modifies this
      ensures (State(), Ok(evt)) == Step(h, redact, old(State()), c) && queue == old(queue) + [evt]
    {
      evt := AppendEvent(c.projectId, c.incidentId, OpenedContent(redact, c));
    }

    method TransitionIncident(
      projectId: string, incidentId: string, state: IncidentState, claim: string, evidence: Option<string>, id: string,
      timestamp: int)
      returns (r: Outcome)
      requires HoldsIncidents(eventsProj)
      modifies this
      ensures (State(), r) ==
        Move(h, redact, old(State()), projectId, incidentId, state, claim, evidence, id, timestamp)
      ensures queue == old(queue) + if r.Ok? then [r.value] else []
    {
      var evts := EventsOf(State(), projectId, incidentId);
      EventsOfMembers(State(), projectId, incidentId);
      if |evts| == 0 { return Err(NotFound); }
      var last := evts[|evts| - 1].content;
      assert evts[|evts| - 1] in evts;
      if last.state == Resolved { return Err(CannotTransition(last.state, state)); }
      if last.state == Mitigated && state != Resolved { return Err(CannotTransition(last.state, state)); }
      if last.state == Open && state != Mitigated && state != Resolved {
        return Err(CannotTransition(last.state, state));
      }
      var evt := AppendEvent(projectId, incidentId, MovedContent(redact, last, state, claim, evidence, id, timestamp));
      return Ok(evt);
    }
  }
}
