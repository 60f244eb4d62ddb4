/**
 * Reconciliation of a work item's evidence and verifications, the completion decision over the
 * same records, and what the two say together. Ids, clocks and the decision store are left out.
 */
module Completion {
  import opened Common
  import opened Lists
  import opened WorkItems

  datatype Project = Project(id: string, name: string, revision: nat)

  datatype WorkItem = WorkItem(id: string, projectId: string, objective: string, lifecycle: Lifecycle, revision: nat)

  datatype Currentness = Current | Stale | Invalidated

  datatype VerificationStatus = Pass | Fail | Inconclusive

  datatype Evidence = Evidence(
    id: string, projectId: string, workItemId: string, claim: string, currentness: Currentness)

  datatype Verification = Verification(
    id: string, projectId: string, workItemId: string, kind: string, status: VerificationStatus,
    evidenceIds: seq<string>)

  /** What both evaluators look at. */
  datatype Records = Records(
    project: Project, workItem: WorkItem, evidence: seq<Evidence>, verifications: seq<Verification>)

  datatype ConflictCode =
    | WorkItemProjectScopeMismatch | CrossScopeEvidence | CrossScopeVerification | StaleEvidence | PassWithoutEvidence
    | ReferencesMissingEvidence | ReferencesNoncurrentEvidence | FailedVerification | InconclusiveVerification
    | WorkItemNotCompleted | SupportInsufficient

  datatype ReconciliationState = RPass | RBlocked | RFailed | RUnknown

  datatype Snapshot = Snapshot(
    state: ReconciliationState, projectId: string, projectRevision: nat, workItemId: string, workItemRevision: nat,
    evidenceIds: seq<string>, verificationIds: seq<string>, conflictCodes: seq<ConflictCode>)

  // ---------------------------------------------------------------- lists

  function Unique<T(==)>(xs: seq<T>): seq<T> {
    if xs == [] then []
    else
      var front := Unique(xs[..|xs| - 1]);
      if xs[|xs| - 1] in front then front else front + [xs[|xs| - 1]]
  }

  lemma {:induction false} UniqueMembers<T(!new)>(xs: seq<T>)
    ensures forall x :: x in Unique(xs) <==> x in xs
    ensures forall i, j | 0 <= i < j < |Unique(xs)| :: Unique(xs)[i] != Unique(xs)[j]
  {
    if xs != [] {
      UniqueMembers(xs[..|xs| - 1]);
      assert xs == xs[..|xs| - 1] + [xs[|xs| - 1]];
    }
  }

  function EvidenceIds(xs: seq<Evidence>): seq<string> { seq(|xs|, i requires 0 <= i < |xs| => xs[i].id) }

  function VerificationIds(xs: seq<Verification>): seq<string> { seq(|xs|, i requires 0 <= i < |xs| => xs[i].id) }

  function EvidenceInScope(r: Records): Evidence -> bool {
    (e: Evidence) => e.projectId == r.project.id && e.workItemId == r.workItem.id
  }

  function VerificationInScope(r: Records): Verification -> bool {
    (v: Verification) => v.projectId == r.project.id && v.workItemId == r.workItem.id
  }

  function IsCurrent(): Evidence -> bool { (e: Evidence) => e.currentness == Current }

  function HasStatus(s: VerificationStatus): Verification -> bool { (v: Verification) => v.status == s }

  function ScopedEvidence(r: Records): seq<Evidence> { Filter(r.evidence, EvidenceInScope(r)) }

  function ScopedVerifications(r: Records, s: VerificationStatus): seq<Verification> {
    Filter(Filter(r.verifications, VerificationInScope(r)), HasStatus(s))
  }

  function CurrentEvidence(r: Records): seq<Evidence> { Filter(ScopedEvidence(r), IsCurrent()) }

  // ---------------------------------------------------------------- what a reconciliation says

  /** The evidence a reference resolves to: of several records with the same id the last one. */
  function Resolve(evidence: seq<Evidence>, id: string): Option<Evidence> {
    if evidence == [] then None
    else if evidence[|evidence| - 1].id == id then Some(evidence[|evidence| - 1])
    else Resolve(evidence[..|evidence| - 1], id)
  }

  predicate Missing(r: Records, id: string) { Resolve(ScopedEvidence(r), id).None? }

  predicate Noncurrent(r: Records, id: string) {
    var e := Resolve(ScopedEvidence(r), id);
    e.Some? && e.value.currentness != Current
  }

  /** Why the work item may not be believed, before its lifecycle is looked at. */
  predicate RecordConflict(r: Records, code: ConflictCode) {
    match code
    case CrossScopeEvidence => exists e | e in r.evidence :: !EvidenceInScope(r)(e)
    case CrossScopeVerification => exists v | v in r.verifications :: !VerificationInScope(r)(v)
    case StaleEvidence => exists e | e in r.evidence :: EvidenceInScope(r)(e) && e.currentness != Current
    case PassWithoutEvidence => exists v | v in ScopedVerifications(r, Pass) :: v.evidenceIds == []
    case ReferencesMissingEvidence =>
      exists v | v in ScopedVerifications(r, Pass) :: exists i | 0 <= i < |v.evidenceIds| ::
        Missing(r, v.evidenceIds[i])
    case ReferencesNoncurrentEvidence =>
      exists v | v in ScopedVerifications(r, Pass) :: exists i | 0 <= i < |v.evidenceIds| ::
        Noncurrent(r, v.evidenceIds[i])
    case FailedVerification => ScopedVerifications(r, Fail) != []
    case InconclusiveVerification => ScopedVerifications(r, Inconclusive) != []
    case _ => false
  }

  predicate Fails(r: Records) { RecordConflict(r, FailedVerification) || RecordConflict(r, ReferencesMissingEvidence) }

  predicate Supported(r: Records) { ScopedVerifications(r, Pass) != [] && CurrentEvidence(r) != [] }

  /** Nothing about the records decides the state before the work item's lifecycle is looked at. */
  predicate Settled(r: Records) { !Fails(r) && !RecordConflict(r, InconclusiveVerification) }

  predicate NotCompleted(r: Records) { Settled(r) && r.workItem.lifecycle != Completed }

  predicate Unsupported(r: Records) { Settled(r) && r.workItem.lifecycle == Completed && !Supported(r) }

  /** Exactly when each code is reported. */
  predicate Reported(r: Records, code: ConflictCode) {
    var inScope := r.workItem.projectId == r.project.id;
    match code
    case WorkItemProjectScopeMismatch => !inScope
    case WorkItemNotCompleted => inScope && NotCompleted(r)
    case SupportInsufficient => inScope && Unsupported(r)
    case _ => inScope && RecordConflict(r, code)
  }

  predicate AnyRecordConflict(r: Records) {
    || RecordConflict(r, CrossScopeEvidence) || RecordConflict(r, CrossScopeVerification)
    || RecordConflict(r, StaleEvidence)
    || RecordConflict(r, PassWithoutEvidence) || RecordConflict(r, ReferencesNoncurrentEvidence) || Fails(r)
    || RecordConflict(r, InconclusiveVerification)
  }

  function StateFor(r: Records): ReconciliationState {
    if r.workItem.projectId != r.project.id || Fails(r) then RFailed
    else if RecordConflict(r, InconclusiveVerification) then RUnknown
    else if NotCompleted(r) || Unsupported(r) then RBlocked
    else if AnyRecordConflict(r) then RFailed
    else RPass
  }

  ghost predicate IsReconciliation(r: Records, s: Snapshot) {
    && s.projectId == r.project.id && s.projectRevision == r.project.revision
    && s.workItemId == r.workItem.id && s.workItemRevision == r.workItem.revision
    && s.state == StateFor(r)
    && ListsReported(r, s.conflictCodes)
    && (forall i, j | 0 <= i < j < |s.conflictCodes| :: s.conflictCodes[i] != s.conflictCodes[j])
    && s.evidenceIds == (if r.workItem.projectId == r.project.id then EvidenceIds(CurrentEvidence(r)) else [])
    && s.verificationIds ==
      (if r.workItem.projectId == r.project.id then VerificationIds(ScopedVerifications(r, Pass)) else [])
  }

  // ---------------------------------------------------------------- reconcile

  lemma {:induction false} ResolveStep(evidence: seq<Evidence>, i: nat, id: string)
    requires i < |evidence|
    ensures Resolve(evidence[..i + 1], id) == if evidence[i].id == id then Some(evidence[i])
      else Resolve(evidence[..i], id)
  {
    assert evidence[..i + 1][..i] == evidence[..i];
  }

  method IndexById(evidence: seq<Evidence>) returns (byId: map<string, Evidence>)
    ensures forall id :: (if id in byId then Some(byId[id]) else None) == Resolve(evidence, id)
  {
    byId := map[];
    for i := 0 to |evidence|
      invariant forall id :: (if id in byId then Some(byId[id]) else None) == Resolve(evidence[..i], id)
    {
      forall id
        ensures Resolve(evidence[..i + 1], id) == if evidence[i].id == id then Some(evidence[i])
          else Resolve(evidence[..i], id)
      {
        ResolveStep(evidence, i, id);
      }
      byId := byId[evidence[i].id := evidence[i]];
    }
    assert evidence[..|evidence|] == evidence;
  }

  /** The codes one passing verification gives rise to. */
  predicate ReferenceConflict(r: Records, v: Verification, code: ConflictCode) {
    || (code == PassWithoutEvidence && v.evidenceIds == [])
    || (code == ReferencesMissingEvidence && exists i | 0 <= i < |v.evidenceIds| :: Missing(r, v.evidenceIds[i]))
    || (code == ReferencesNoncurrentEvidence && exists i | 0 <= i < |v.evidenceIds| :: Noncurrent(r, v.evidenceIds[i]))
  }

  method CheckReferences(r: Records, byId: map<string, Evidence>, v: Verification) returns (codes: seq<ConflictCode>)
    requires forall id :: (if id in byId then Some(byId[id]) else None) == Resolve(ScopedEvidence(r), id)
    ensures forall code :: code in codes <==> ReferenceConflict(r, v, code)
  {
    codes := [];
    if |v.evidenceIds| == 0 { return [PassWithoutEvidence]; }
    for i := 0 to |v.evidenceIds|
      invariant forall code | code in codes :: code == ReferencesMissingEvidence || code == ReferencesNoncurrentEvidence
      invariant ReferencesMissingEvidence in codes <==> exists k | 0 <= k < i :: Missing(r, v.evidenceIds[k])
      invariant ReferencesNoncurrentEvidence in codes <==> exists k | 0 <= k < i :: Noncurrent(r, v.evidenceIds[k])
    {
      var id := v.evidenceIds[i];
      assert (if id in byId then Some(byId[id]) else None) == Resolve(ScopedEvidence(r), id);
      if id !in byId {
        codes := codes + [ReferencesMissingEvidence];
      } else if byId[id].currentness != Current {
        codes := codes + [ReferencesNoncurrentEvidence];
      }
    }
  }

  /** The codes of all passing verifications. */
  method CheckAllReferences(r: Records, byId: map<string, Evidence>, passing: seq<Verification>)
    returns (codes: seq<ConflictCode>)
    requires forall id :: (if id in byId then Some(byId[id]) else None) == Resolve(ScopedEvidence(r), id)
    ensures forall code :: code in codes <==> exists v | v in passing :: ReferenceConflict(r, v, code)
  {
    codes := [];
    for i := 0 to |passing|
      invariant forall code :: code in codes <==> exists v | v in passing[..i] :: ReferenceConflict(r, v, code)
    {
      assert passing[..i + 1] == passing[..i] + [passing[i]];
      var more := CheckReferences(r, byId, passing[i]);
      codes := codes + more;
    }
    assert passing[..|passing|] == passing;
  }

  predicate IsSevere(code: ConflictCode) { code == WorkItemProjectScopeMismatch || code == ReferencesMissingEvidence }

  method ScopeConflicts(r: Records) returns (codes: seq<ConflictCode>)
    ensures forall code :: code in codes <==>
      code in {CrossScopeEvidence, CrossScopeVerification, StaleEvidence} && RecordConflict(r, code)
  {
    var evidence, verifications := ScopedEvidence(r), Filter(r.verifications, VerificationInScope(r));
    CrossScopeIff(r);
    codes := [];
    if |evidence| != |r.evidence| { codes := codes + [CrossScopeEvidence]; }
    if |verifications| != |r.verifications| { codes := codes + [CrossScopeVerification]; }
    var stale := Filter(evidence, IsStale());
    StaleIff(r);
    if |stale| > 0 { codes := codes + [StaleEvidence]; }
  }

  lemma CrossScopeIff(r: Records)
    ensures |ScopedEvidence(r)| != |r.evidence| <==> RecordConflict(r, CrossScopeEvidence)
    ensures |Filter(r.verifications, VerificationInScope(r))| != |r.verifications| <==>
      RecordConflict(r, CrossScopeVerification)
  {
    FilterAllIff(r.evidence, EvidenceInScope(r));
    FilterAllIff(r.verifications, VerificationInScope(r));
  }

  function IsStale(): Evidence -> bool { (e: Evidence) => e.currentness != Current }

  lemma StaleIff(r: Records)
    ensures Filter(ScopedEvidence(r), IsStale()) != [] <==> RecordConflict(r, StaleEvidence)
  {
    FilterMembers(r.evidence, EvidenceInScope(r));
    FilterNoneIff(ScopedEvidence(r), IsStale());
  }

  method StatusConflicts(r: Records) returns (codes: seq<ConflictCode>)
    ensures forall code :: code in codes <==>
      code in {FailedVerification, InconclusiveVerification} && RecordConflict(r, code)
  {
    codes := [];
    if |ScopedVerifications(r, Fail)| > 0 { codes := codes + [FailedVerification]; }
    if |ScopedVerifications(r, Inconclusive)| > 0 { codes := codes + [InconclusiveVerification]; }
  }

  method RecordConflicts(r: Records) returns (conflicts: seq<ConflictCode>)
    ensures ListsConflicts(r, conflicts)
  {
    var scope := ScopeConflicts(r);
    var byId := IndexById(ScopedEvidence(r));
    var references := CheckAllReferences(r, byId, ScopedVerifications(r, Pass));
    var statuses := StatusConflicts(r);
    conflicts := scope + references + statuses;
    forall code
      ensures code in references <==>
        code in {PassWithoutEvidence, ReferencesMissingEvidence, ReferencesNoncurrentEvidence}
          && RecordConflict(r, code)
    {
      ReferenceCodes(r, code);
    }
  }

  lemma ReferenceCodes(r: Records, code: ConflictCode)
    ensures (exists v | v in ScopedVerifications(r, Pass) :: ReferenceConflict(r, v, code)) <==>
      code in {PassWithoutEvidence, ReferencesMissingEvidence, ReferencesNoncurrentEvidence} && RecordConflict(r, code)
  {
    if v :| v in ScopedVerifications(r, Pass) && ReferenceConflict(r, v, code) {
      assert RecordConflict(r, code);
    }
    if code == ReferencesMissingEvidence && RecordConflict(r, code) {
      var v :| v in ScopedVerifications(r, Pass) && exists i | 0 <= i < |v.evidenceIds| :: Missing(r, v.evidenceIds[i]);
      assert ReferenceConflict(r, v, code);
    }
    if code == ReferencesNoncurrentEvidence && RecordConflict(r, code) {
      var v :| v in ScopedVerifications(r, Pass) && exists i | 0 <= i < |v.evidenceIds| ::
        Noncurrent(r, v.evidenceIds[i]);
      assert ReferenceConflict(r, v, code);
    }
    if code == PassWithoutEvidence && RecordConflict(r, code) {
      var v :| v in ScopedVerifications(r, Pass) && v.evidenceIds == [];
      assert ReferenceConflict(r, v, code);
    }
  }

  lemma ReportedIff(r: Records, code: ConflictCode)
    requires r.workItem.projectId == r.project.id
    ensures Reported(r, code) <==>
      RecordConflict(r, code) || (code == WorkItemNotCompleted && NotCompleted(r))
        || (code == SupportInsufficient && Unsupported(r))
  {
  }

  ghost predicate ListsConflicts(r: Records, found: seq<ConflictCode>) {
    forall code :: code in found <==> RecordConflict(r, code)
  }

  ghost predicate ListsReported(r: Records, conflicts: seq<ConflictCode>) {
    forall code :: code in conflicts <==> Reported(r, code)
  }

  /** The state, and the code that a block adds. */
  method Settle(r: Records, found: seq<ConflictCode>) returns (state: ReconciliationState, conflicts: seq<ConflictCode>)
    requires r.workItem.projectId == r.project.id && ListsConflicts(r, found)
    ensures state == StateFor(r) && ListsReported(r, conflicts)
  {
    SevereIff(r, found);
    SettledCodes(r, found);
    state, conflicts := RPass, found;
    if |ScopedVerifications(r, Fail)| > 0 || exists code | code in conflicts :: IsSevere(code) {
      state := RFailed;
    } else if |ScopedVerifications(r, Inconclusive)| > 0 {
      state := RUnknown;
    } else if r.workItem.lifecycle != Completed {
      state := RBlocked;
      conflicts := conflicts + [WorkItemNotCompleted];
    } else if |ScopedVerifications(r, Pass)| == 0 || |CurrentEvidence(r)| == 0 {
      state := RBlocked;
      conflicts := conflicts + [SupportInsufficient];
    } else if |conflicts| > 0 {
      state := RFailed;
    }
  }

  lemma SettledCodes(r: Records, found: seq<ConflictCode>)
    requires r.workItem.projectId == r.project.id && ListsConflicts(r, found)
    ensures NotCompleted(r) ==> ListsReported(r, found + [WorkItemNotCompleted])
    ensures Unsupported(r) ==> ListsReported(r, found + [SupportInsufficient])
    ensures !NotCompleted(r) && !Unsupported(r) ==> ListsReported(r, found)
  {
    forall code
      ensures NotCompleted(r) ==> (code in found + [WorkItemNotCompleted] <==> Reported(r, code))
      ensures Unsupported(r) ==> (code in found + [SupportInsufficient] <==> Reported(r, code))
      ensures !NotCompleted(r) && !Unsupported(r) ==> (code in found <==> Reported(r, code))
    {
      ReportedIff(r, code);
      assert code in found <==> RecordConflict(r, code);
    }
  }

  lemma SevereIff(r: Records, found: seq<ConflictCode>)
    requires ListsConflicts(r, found)
    ensures (exists code | code in found :: IsSevere(code)) <==> RecordConflict(r, ReferencesMissingEvidence)
    ensures found != [] <==> AnyRecordConflict(r)
  {
    if RecordConflict(r, ReferencesMissingEvidence) {
      assert ReferencesMissingEvidence in found && IsSevere(ReferencesMissingEvidence);
    }
    if found != [] { assert RecordConflict(r, found[0]); }
  }

  method Reconcile(r: Records) returns (s: Snapshot)
    ensures IsReconciliation(r, s)
  {
    if r.workItem.projectId != r.project.id {
      return Snapshot(RFailed, r.project.id, r.project.revision, r.workItem.id, r.workItem.revision, [], [],
        [WorkItemProjectScopeMismatch]);
    }
    var found := RecordConflicts(r);
    var state, conflicts := Settle(r, found);
    UniqueMembers(conflicts);
    s := Snapshot(
      state, r.project.id, r.project.revision, r.workItem.id, r.workItem.revision, EvidenceIds(CurrentEvidence(r)),
      VerificationIds(ScopedVerifications(r, Pass)), Unique(conflicts));
  }

  // ---------------------------------------------------------------- the completion obligations

  datatype CmoStatus = Required | NotApplicable | Unresolved | Done

  datatype Cmo = Cmo(id: string, status: CmoStatus)

  /** `status` is what the rule says once the project has a name and, if asked for, the work item an objective. */
  datatype Rule = Rule(id: string, needsObjective: bool, status: CmoStatus)

  const RULES: seq<Rule> := [
    Rule("CMO-01", true, Required), Rule("CMO-02", true, Required), Rule("CMO-03", false, NotApplicable),
    Rule("CMO-05", false, Required), Rule("CMO-06", false, NotApplicable), Rule("CMO-14", false, Required)]

  const REQUIRED_CMOS: set<string> := {"CMO-01", "CMO-02", "CMO-05", "CMO-14"}

  function EvaluateRule(rule: Rule, p: Project, w: WorkItem): Cmo {
    Cmo(rule.id, if p.name == "" || (rule.needsObjective && w.objective == "") then Unresolved else rule.status)
  }

  function ResolveCmos(p: Project, w: WorkItem, given: seq<string>): seq<Cmo> {
    seq(|RULES|, i requires 0 <= i < |RULES| =>
      var base := EvaluateRule(RULES[i], p, w);
      if base.status == Required && base.id in given then base.(status := Done) else base)
  }

  function Claims(evidence: seq<Evidence>): seq<string> {
    seq(|evidence|, i requires 0 <= i < |evidence| => evidence[i].claim)
  }

  // ---------------------------------------------------------------- the completion decision

  datatype CompletionState = Complete | Incomplete | DBlocked | EvidenceInsufficient | ReconciliationFailed

  datatype Residual =
    | CmoUnresolved(cmoId: string) | CmoMissing(cmoId: string) | BlockedBy(code: ConflictCode) | Failing(kind: string)
    | MissingPassVerification

  datatype Rationale =
    | SnapshotStaleOrMismatched | SnapshotBlocked | SnapshotNotPass | ItemNotCompleted | PassVerificationMissing
    | ResidualScopeRemains | ItemCompleted | EvidencePresent | VerificationPresent | SnapshotPass

  datatype Decision = Decision(
    state: CompletionState, rationale: seq<Rationale>, verificationIds: seq<string>, evidenceIds: seq<string>,
    residual: seq<Residual>)

  datatype ScopeMismatch = ScopeMismatch

  predicate IsFresh(r: Records, s: Snapshot) {
    && s.projectId == r.project.id && s.projectRevision == r.project.revision
    && s.workItemId == r.workItem.id && s.workItemRevision == r.workItem.revision
  }

  function Counts(r: Records, status: VerificationStatus): Verification -> bool {
    (v: Verification) => v.projectId == r.project.id && v.workItemId == r.workItem.id && v.status == status
  }

  function Supports(r: Records): Evidence -> bool {
    (e: Evidence) => e.projectId == r.project.id && e.workItemId == r.workItem.id && e.currentness == Current
  }

  function SupportIds(r: Records): set<string> { set e | e in Filter(r.evidence, Supports(r)) :: e.id }

  function IsValid(r: Records): Verification -> bool {
    var ids := SupportIds(r);
    (v: Verification) => v.evidenceIds != [] && forall id | id in v.evidenceIds :: id in ids
  }

  function ValidVerifications(r: Records): seq<Verification> {
    Filter(Filter(r.verifications, Counts(r, Pass)), IsValid(r))
  }

  /** Current evidence for an obligation, from any record in the list. */
  predicate Claimed(r: Records, cmo: string) {
    exists e | e in r.evidence :: e.currentness == Current && e.claim == cmo
  }

  predicate IsUnresolved(r: Records, cmo: string) {
    exists i | 0 <= i < |RULES| :: RULES[i].id == cmo
      && EvaluateRule(RULES[i], r.project, r.workItem).status == Unresolved
  }

  predicate IsRequired(r: Records, cmo: string) {
    exists i | 0 <= i < |RULES| :: RULES[i].id == cmo
      && EvaluateRule(RULES[i], r.project, r.workItem).status == Required
  }

  /** The evaluation got past the snapshot and the lifecycle. */
  predicate Examined(r: Records, s: Snapshot) { IsFresh(r, s) && s.state == RPass && r.workItem.lifecycle == Completed }

  /** Exactly when each item of residual scope is listed. */
  predicate Remains(r: Records, s: Snapshot, x: Residual) {
    match x
    case CmoUnresolved(cmo) => IsUnresolved(r, cmo)
    case CmoMissing(cmo) => IsRequired(r, cmo) && !Claimed(r, cmo)
    case BlockedBy(code) => IsFresh(r, s) && s.state == RBlocked && code in s.conflictCodes
    case Failing(kind) => Examined(r, s) && exists v | v in Filter(r.verifications, Counts(r, Fail)) :: v.kind == kind
    case MissingPassVerification => Examined(r, s) && ValidVerifications(r) == []
  }

  ghost predicate IsDecision(r: Records, s: Snapshot, d: Decision) {
    && (forall x :: x in d.residual <==> Remains(r, s, x))
    && d.state == (
      if !IsFresh(r, s) then ReconciliationFailed
      else if s.state == RBlocked then DBlocked
      else if s.state != RPass then ReconciliationFailed
      else if r.workItem.lifecycle != Completed then Incomplete
      else if ValidVerifications(r) == [] then EvidenceInsufficient
      else if d.residual != [] then Incomplete
      else Complete)
    && d.verificationIds == (if Examined(r, s) then VerificationIds(ValidVerifications(r)) else [])
    && d.evidenceIds == (if Examined(r, s) then EvidenceIds(Filter(r.evidence, Supports(r))) else [])
    && d.rationale == RationaleOf(r, s, d.state)
  }

  function RationaleOf(r: Records, s: Snapshot, state: CompletionState): seq<Rationale> {
    match state
    case Complete => [ItemCompleted, EvidencePresent, VerificationPresent, SnapshotPass]
    case Incomplete => [if r.workItem.lifecycle != Completed then ItemNotCompleted else ResidualScopeRemains]
    case DBlocked => [SnapshotBlocked]
    case EvidenceInsufficient => [PassVerificationMissing]
    case ReconciliationFailed => [if IsFresh(r, s) then SnapshotNotPass else SnapshotStaleOrMismatched]
  }

  ghost predicate ListsObligations(r: Records, residual: seq<Residual>) {
    forall x :: x in residual <==> Obligation(r, x)
  }

  predicate Obligation(r: Records, x: Residual) {
    (x.CmoUnresolved? && IsUnresolved(r, x.cmoId)) || (x.CmoMissing? && IsRequired(r, x.cmoId) && !Claimed(r, x.cmoId))
  }

  /** The obligations left open by the evidence. */
  method OpenObligations(r: Records) returns (residual: seq<Residual>)
    ensures ListsObligations(r, residual)
  {
    var current := Filter(r.evidence, IsCurrent());
    var claims := Claims(current);
    ClaimsAre(r);
    var cmos := ResolveCmos(r.project, r.workItem, []);
    residual := [];
    for i := 0 to |cmos|
      invariant forall x :: x in residual <==> OpenBefore(r, i, x)
    {
      var cmo := cmos[i];
      assert cmo == EvaluateRule(RULES[i], r.project, r.workItem);
      ghost var before := residual;
      if cmo.status == Unresolved {
        residual := residual + [CmoUnresolved(cmo.id)];
      } else if cmo.status == Required && cmo.id !in claims {
        residual := residual + [CmoMissing(cmo.id)];
      }
      assert forall x :: x in residual <==> x in before || OpenAs(r, cmo, x);
      OpenStep(r, i);
    }
    forall x ensures OpenBefore(r, |RULES|, x) <==> Obligation(r, x) { ObligationIff(r, x); }
  }

  predicate OpenBefore(r: Records, n: nat, x: Residual) { exists i | 0 <= i < n :: OpenAt(r, i, x) }

  lemma ObligationIff(r: Records, x: Residual)
    ensures OpenBefore(r, |RULES|, x) <==> Obligation(r, x)
  {
    if OpenBefore(r, |RULES|, x) {
      var i :| 0 <= i < |RULES| && OpenAt(r, i, x);
      assert RULES[i].id == EvaluateRule(RULES[i], r.project, r.workItem).id;
    }
    if x.CmoUnresolved? && IsUnresolved(r, x.cmoId) {
      var i :| 0 <= i < |RULES| && RULES[i].id == x.cmoId
        && EvaluateRule(RULES[i], r.project, r.workItem).status == Unresolved;
      assert OpenAt(r, i, x);
    }
    if x.CmoMissing? && IsRequired(r, x.cmoId) && !Claimed(r, x.cmoId) {
      var i :| 0 <= i < |RULES| && RULES[i].id == x.cmoId
        && EvaluateRule(RULES[i], r.project, r.workItem).status == Required;
      assert OpenAt(r, i, x);
    }
  }

  lemma OpenStep(r: Records, i: nat)
    requires i < |RULES|
    ensures forall x :: OpenBefore(r, i + 1, x) <==>
      OpenBefore(r, i, x) || OpenAs(r, EvaluateRule(RULES[i], r.project, r.workItem), x)
  {
    forall x
      ensures OpenBefore(r, i + 1, x) <==>
        OpenBefore(r, i, x) || OpenAs(r, EvaluateRule(RULES[i], r.project, r.workItem), x)
    {
      assert OpenAt(r, i, x) <==> OpenAs(r, EvaluateRule(RULES[i], r.project, r.workItem), x);
      if OpenBefore(r, i + 1, x) && !OpenAt(r, i, x) {
        var j :| 0 <= j < i + 1 && OpenAt(r, j, x);
        assert j < i;
      }
    }
  }

  /** The residual item an evaluated rule gives rise to. */
  predicate OpenAs(r: Records, cmo: Cmo, x: Residual) {
    || (cmo.status == Unresolved && x == CmoUnresolved(cmo.id))
    || (cmo.status == Required && !Claimed(r, cmo.id) && x == CmoMissing(cmo.id))
  }

  predicate OpenAt(r: Records, i: nat, x: Residual) {
    i < |RULES| && OpenAs(r, EvaluateRule(RULES[i], r.project, r.workItem), x)
  }

  lemma ClaimsAre(r: Records)
    ensures forall c :: c in Claims(Filter(r.evidence, IsCurrent())) <==> Claimed(r, c)
  {
    var current := Filter(r.evidence, IsCurrent());
    FilterMembers(r.evidence, IsCurrent());
    forall c ensures c in Claims(current) <==> Claimed(r, c) {
      if Claimed(r, c) {
        var e :| e in r.evidence && e.currentness == Current && e.claim == c;
        assert e in current;
        var i :| 0 <= i < |current| && current[i] == e;
        assert Claims(current)[i] == c;
      }
      if c in Claims(current) {
        var i :| 0 <= i < |current| && Claims(current)[i] == c;
        assert current[i] in current;
      }
    }
  }

  method Evaluate(r: Records, s: Snapshot) returns (result: Result<Decision, ScopeMismatch>)
    ensures result.Err? <==> r.workItem.projectId != r.project.id
    ensures result.Ok? ==> IsDecision(r, s, result.value)
  {
    var residual := OpenObligations(r);
    if r.workItem.projectId != r.project.id { return Err(ScopeMismatch); }
    if !IsFresh(r, s) { return Ok(Decision(ReconciliationFailed, [SnapshotStaleOrMismatched], [], [], residual)); }
    if s.state == RBlocked {
      residual := AddBlocks(residual, s.conflictCodes);
      return Ok(Decision(DBlocked, [SnapshotBlocked], [], [], residual));
    }
    if s.state != RPass { return Ok(Decision(ReconciliationFailed, [SnapshotNotPass], [], [], residual)); }
    if r.workItem.lifecycle != Completed { return Ok(Decision(Incomplete, [ItemNotCompleted], [], [], residual)); }
    var d := Examine(r, s, residual);
    return Ok(d);
  }

  /** The part of the evaluation behind a passing snapshot of a completed work item. */
  method Examine(r: Records, s: Snapshot, obligations: seq<Residual>) returns (d: Decision)
    requires Examined(r, s) && ListsObligations(r, obligations)
    ensures IsDecision(r, s, d)
  {
    var residual := AddFailing(obligations, Filter(r.verifications, Counts(r, Fail)));
    var currentEvidence := Filter(r.evidence, Supports(r));
    var valid := ValidVerifications(r);
    if |valid| == 0 {
      residual := residual + [MissingPassVerification];
      return Decision(EvidenceInsufficient, [PassVerificationMissing], [], EvidenceIds(currentEvidence), residual);
    }
    if |residual| > 0 {
      return Decision(Incomplete, [ResidualScopeRemains], VerificationIds(valid),
        EvidenceIds(currentEvidence), residual);
    }
    d := Decision(
      Complete, [ItemCompleted, EvidencePresent, VerificationPresent, SnapshotPass], VerificationIds(valid),
      EvidenceIds(currentEvidence), residual);
  }

  method AddBlocks(residual: seq<Residual>, codes: seq<ConflictCode>) returns (more: seq<Residual>)
    ensures forall x :: x in more <==> x in residual || (x.BlockedBy? && x.code in codes)
  {
    more := residual;
    for i := 0 to |codes|
      invariant forall x :: x in more <==> x in residual || (x.BlockedBy? && x.code in codes[..i])
    {
      assert codes[..i + 1] == codes[..i] + [codes[i]];
      more := more + [BlockedBy(codes[i])];
    }
    assert codes[..|codes|] == codes;
  }

  method AddFailing(residual: seq<Residual>, failing: seq<Verification>) returns (more: seq<Residual>)
    ensures forall x :: x in more <==> x in residual || (x.Failing? && exists v | v in failing :: v.kind == x.kind)
  {
    more := residual;
    for i := 0 to |failing|
      invariant forall x :: x in more <==>
        x in residual || (x.Failing? && exists v | v in failing[..i] :: v.kind == x.kind)
    {
      assert failing[..i + 1] == failing[..i] + [failing[i]];
      more := more + [Failing(failing[i].kind)];
    }
    assert failing[..|failing|] == failing;
  }

  // ---------------------------------------------------------------- the two together

  /** PASS is the same as an empty conflict list. */
  lemma PassIffNoConflicts(r: Records, s: Snapshot)
    requires IsReconciliation(r, s)
    ensures s.state == RPass <==> s.conflictCodes == []
  {
    if s.conflictCodes != [] {
      assert Reported(r, s.conflictCodes[0]);
    } else {
      assert forall code :: !Reported(r, code);
      NothingReported(r);
    }
  }

  lemma NothingReported(r: Records)
    requires forall code :: !Reported(r, code)
    ensures StateFor(r) == RPass
  {
    assert !Reported(r, WorkItemProjectScopeMismatch) && !Reported(r, FailedVerification)
      && !Reported(r, InconclusiveVerification);
    assert !Reported(r, ReferencesMissingEvidence) && !Reported(r, WorkItemNotCompleted)
      && !Reported(r, SupportInsufficient);
    assert !Reported(r, CrossScopeEvidence) && !Reported(r, CrossScopeVerification) && !Reported(r, StaleEvidence);
    assert !Reported(r, PassWithoutEvidence) && !Reported(r, ReferencesNoncurrentEvidence);
  }

  /** What a passing snapshot says about the records themselves. */
  predicate Clean(r: Records) {
    && r.workItem.projectId == r.project.id && r.workItem.lifecycle == Completed
    && r.evidence != [] && r.verifications != []
    && (forall e | e in r.evidence :: Supports(r)(e))
    && forall v | v in r.verifications ::
         && Counts(r, Pass)(v) && v.evidenceIds != []
         && forall id | id in v.evidenceIds :: exists e | e in r.evidence :: e.id == id
  }

  lemma {:induction false} ResolveFinds(evidence: seq<Evidence>, id: string)
    ensures Resolve(evidence, id).Some? <==> exists e | e in evidence :: e.id == id
    ensures Resolve(evidence, id).Some? ==> Resolve(evidence, id).value in evidence
  {
    if evidence != [] {
      ResolveFinds(evidence[..|evidence| - 1], id);
      assert evidence == evidence[..|evidence| - 1] + [evidence[|evidence| - 1]];
    }
  }

  lemma ScopedMembers(r: Records, status: VerificationStatus)
    ensures forall v :: v in ScopedVerifications(r, status) <==>
      v in r.verifications && VerificationInScope(r)(v) && v.status == status
  {
    FilterMembers(r.verifications, VerificationInScope(r));
    FilterMembers(Filter(r.verifications, VerificationInScope(r)), HasStatus(status));
  }

  lemma PassEvidence(r: Records, e: Evidence)
    requires e in r.evidence && !RecordConflict(r, CrossScopeEvidence) && !RecordConflict(r, StaleEvidence)
    ensures Supports(r)(e) && EvidenceInScope(r)(e)
  {
    assert EvidenceInScope(r)(e);
  }

  lemma SupportedHasEvidence(r: Records)
    ensures Supported(r) ==> r.evidence != []
  {
    if r.evidence == [] { assert CurrentEvidence(r) == []; }
  }

  lemma PassFindsNothing(r: Records)
    requires StateFor(r) == RPass
    ensures !RecordConflict(r, CrossScopeEvidence) && !RecordConflict(r, StaleEvidence) && Supported(r)
    ensures !RecordConflict(r, CrossScopeVerification) && !RecordConflict(r, PassWithoutEvidence)
    ensures !RecordConflict(r, FailedVerification) && !RecordConflict(r, InconclusiveVerification)
  {
  }

  lemma PassScope(r: Records)
    requires StateFor(r) == RPass
    ensures ScopedEvidence(r) == r.evidence && r.evidence != []
    ensures forall e | e in r.evidence :: Supports(r)(e)
  {
    PassFindsNothing(r);
    forall e | e in r.evidence ensures Supports(r)(e) && EvidenceInScope(r)(e) { PassEvidence(r, e); }
    FilterAllIff(r.evidence, EvidenceInScope(r));
    SupportedHasEvidence(r);
  }

  lemma PassVerifications(r: Records)
    requires StateFor(r) == RPass
    ensures r.verifications != []
    ensures forall v | v in r.verifications ::
      Counts(r, Pass)(v) && v in ScopedVerifications(r, Pass) && v.evidenceIds != []
  {
    PassFindsNothing(r);
    ScopedMembers(r, Pass);
    assert ScopedVerifications(r, Pass)[0] in ScopedVerifications(r, Pass);
    forall v | v in r.verifications ensures Counts(r, Pass)(v) && v in ScopedVerifications(r, Pass) {
      PassVerification(r, v);
    }
  }

  lemma PassVerification(r: Records, v: Verification)
    requires v in r.verifications && !RecordConflict(r, CrossScopeVerification)
    requires !RecordConflict(r, FailedVerification) && !RecordConflict(r, InconclusiveVerification)
    ensures Counts(r, Pass)(v) && v in ScopedVerifications(r, Pass)
  {
    ScopedMembers(r, Pass);
    ScopedMembers(r, Fail);
    ScopedMembers(r, Inconclusive);
    assert VerificationInScope(r)(v);
    assert v !in ScopedVerifications(r, Fail) && v !in ScopedVerifications(r, Inconclusive);
  }

  lemma PassIsClean(r: Records)
    requires StateFor(r) == RPass
    ensures Clean(r)
  {
    PassScope(r);
    PassVerifications(r);
    assert !RecordConflict(r, ReferencesMissingEvidence);
    forall v, id | v in r.verifications && id in v.evidenceIds ensures exists e | e in r.evidence :: e.id == id {
      var i :| 0 <= i < |v.evidenceIds| && v.evidenceIds[i] == id;
      assert !Missing(r, v.evidenceIds[i]);
      ResolveFinds(r.evidence, id);
    }
  }

  lemma CleanReference(r: Records, v: Verification, i: nat)
    requires Clean(r) && v in r.verifications && i < |v.evidenceIds|
    ensures !Missing(r, v.evidenceIds[i]) && !Noncurrent(r, v.evidenceIds[i])
  {
    CleanScope(r);
    assert v.evidenceIds[i] in v.evidenceIds;
    ResolveFinds(r.evidence, v.evidenceIds[i]);
  }

  lemma CleanReferences(r: Records)
    requires Clean(r)
    ensures !RecordConflict(r, ReferencesMissingEvidence) && !RecordConflict(r, ReferencesNoncurrentEvidence)
    ensures !RecordConflict(r, PassWithoutEvidence)
  {
    ScopedMembers(r, Pass);
    forall v, i | v in r.verifications && 0 <= i < |v.evidenceIds|
      ensures !Missing(r, v.evidenceIds[i]) && !Noncurrent(r, v.evidenceIds[i])
    {
      CleanReference(r, v, i);
    }
  }

  lemma CleanScope(r: Records)
    requires Clean(r)
    ensures ScopedEvidence(r) == r.evidence
    ensures forall e | e in r.evidence :: Supports(r)(e)
  {
    assert forall e | e in r.evidence :: Supports(r)(e);
    FilterAllIff(r.evidence, EvidenceInScope(r));
  }

  lemma CleanRecords(r: Records)
    requires Clean(r)
    ensures !RecordConflict(r, CrossScopeEvidence) && !RecordConflict(r, CrossScopeVerification)
      && !RecordConflict(r, StaleEvidence)
    ensures !RecordConflict(r, FailedVerification) && !RecordConflict(r, InconclusiveVerification)
  {
    forall e | e in r.evidence ensures EvidenceInScope(r)(e) && e.currentness == Current { assert Supports(r)(e); }
    forall v | v in r.verifications ensures VerificationInScope(r)(v) { assert Counts(r, Pass)(v); }
    NoFailure(r, Fail);
    NoFailure(r, Inconclusive);
  }

  lemma CleanSupport(r: Records)
    requires Clean(r)
    ensures !NotCompleted(r) && !Unsupported(r)
  {
    CleanSelections(r);
    assert Supported(r);
  }

  lemma CleanPasses(r: Records)
    requires Clean(r)
    ensures StateFor(r) == RPass
  {
    CleanReferences(r);
    CleanRecords(r);
    CleanSupport(r);
  }

  lemma NoFailure(r: Records, status: VerificationStatus)
    requires Clean(r) && status != Pass
    ensures ScopedVerifications(r, status) == []
  {
    FilterMembers(r.verifications, VerificationInScope(r));
    assert forall v | v in r.verifications :: Counts(r, Pass)(v);
    FilterNoneIff(Filter(r.verifications, VerificationInScope(r)), HasStatus(status));
  }

  /** In terms of the records alone: when the snapshot passes. */
  lemma PassIffClean(r: Records, s: Snapshot)
    requires IsReconciliation(r, s)
    ensures s.state == RPass <==> Clean(r)
  {
    if StateFor(r) == RPass { PassIsClean(r); }
    if Clean(r) { CleanPasses(r); }
  }

  lemma CleanSelections(r: Records)
    requires Clean(r)
    ensures Filter(r.verifications, Counts(r, Pass)) == r.verifications == ValidVerifications(r)
    ensures Filter(r.evidence, Supports(r)) == r.evidence && Filter(r.verifications, Counts(r, Fail)) == []
    ensures ScopedVerifications(r, Pass) == r.verifications && CurrentEvidence(r) == r.evidence
  {
    FilterAllIff(r.verifications, Counts(r, Pass));
    FilterAllIff(r.evidence, Supports(r));
    forall v | v in r.verifications ensures IsValid(r)(v) {}
    FilterAllIff(r.verifications, IsValid(r));
    CleanScope(r);
    FilterAllIff(r.evidence, IsCurrent());
    CleanVerifications(r);
  }

  lemma CleanVerifications(r: Records)
    requires Clean(r)
    ensures ScopedVerifications(r, Pass) == r.verifications && Filter(r.verifications, Counts(r, Fail)) == []
  {
    assert forall v | v in r.verifications :: Counts(r, Pass)(v);
    FilterAllIff(r.verifications, VerificationInScope(r));
    FilterAllIff(r.verifications, HasStatus(Pass));
    FilterNoneIff(r.verifications, Counts(r, Fail));
  }

  /** After PASS, completion counts every passing verification and all evidence, and never asks for more of either. */
  lemma PassIsNeverInsufficient(r: Records, s: Snapshot, d: Decision)
    requires IsReconciliation(r, s) && IsDecision(r, s, d) && s.state == RPass
    ensures d.state == Complete || d.state == Incomplete
    ensures d.verificationIds == s.verificationIds == VerificationIds(r.verifications)
    ensures d.evidenceIds == s.evidenceIds == EvidenceIds(r.evidence)
    ensures forall x | x in d.residual :: Obligation(r, x)
  {
    PassIffClean(r, s);
    CleanSelections(r);
    forall x | x in d.residual ensures Obligation(r, x) { assert Remains(r, s, x); }
  }

  lemma NoObligationIff(r: Records)
    ensures (forall x :: !Obligation(r, x)) <==>
      r.project.name != "" && r.workItem.objective != "" && forall cmo | cmo in REQUIRED_CMOS :: Claimed(r, cmo)
  {
    var named := r.project.name != "" && r.workItem.objective != "";
    if !named {
      assert EvaluateRule(RULES[0], r.project, r.workItem).status == Unresolved;
      assert Obligation(r, CmoUnresolved("CMO-01"));
    } else {
      assert forall i | 0 <= i < |RULES| ::
        EvaluateRule(RULES[i], r.project, r.workItem).status == RULES[i].status != Unresolved;
      forall cmo ensures IsRequired(r, cmo) <==> cmo in REQUIRED_CMOS { RequiredIff(r, cmo); }
      forall cmo ensures !IsUnresolved(r, cmo) {}
      forall cmo ensures Obligation(r, CmoMissing(cmo)) <==> cmo in REQUIRED_CMOS && !Claimed(r, cmo) {}
    }
  }

  lemma RequiredIff(r: Records, cmo: string)
    requires r.project.name != "" && r.workItem.objective != ""
    ensures IsRequired(r, cmo) <==> cmo in REQUIRED_CMOS
  {
    if cmo in REQUIRED_CMOS {
      var i := if cmo == "CMO-01" then 0 else if cmo == "CMO-02" then 1 else if cmo == "CMO-05" then 3 else 5;
      assert RULES[i].id == cmo && EvaluateRule(RULES[i], r.project, r.workItem).status == Required;
    }
  }

  /**
   * COMPLETE exactly when the snapshot of the same records is PASS, nothing the obligations need to know
   * is missing, and each required obligation has a current claim.
   */
  lemma CompleteIff(r: Records, s: Snapshot, d: Decision)
    requires IsReconciliation(r, s) && IsDecision(r, s, d)
    ensures d.state == Complete <==>
      && s.state == RPass
      && r.project.name != "" && r.workItem.objective != ""
      && forall cmo | cmo in REQUIRED_CMOS :: Claimed(r, cmo)
  {
    NoObligationIff(r);
    if s.state == RPass {
      PassIffClean(r, s);
      CleanSelections(r);
      PassIsNeverInsufficient(r, s, d);
      assert d.residual == [] ==> forall x :: !Obligation(r, x) by {
        forall x | d.residual == [] ensures !Obligation(r, x) { assert x in d.residual <==> Remains(r, s, x); }
      }
      assert d.residual != [] ==> Obligation(r, d.residual[0]);
    }
  }

  /** Without PASS the decision follows the snapshot: BLOCKED stays blocked and passes on every code, the rest fails. */
  lemma DecisionFollowsSnapshot(r: Records, s: Snapshot, d: Decision)
    requires IsReconciliation(r, s) && IsDecision(r, s, d) && s.state != RPass
    ensures d.state == (if s.state == RBlocked then DBlocked else ReconciliationFailed)
    ensures d.verificationIds == [] && d.evidenceIds == []
    ensures forall code :: BlockedBy(code) in d.residual <==> s.state == RBlocked && code in s.conflictCodes
    ensures s.state == RBlocked ==> WorkItemNotCompleted in s.conflictCodes || SupportInsufficient in s.conflictCodes
  {
    forall code ensures BlockedBy(code) in d.residual <==> s.state == RBlocked && code in s.conflictCodes {
      assert BlockedBy(code) in d.residual <==> Remains(r, s, BlockedBy(code));
    }
  }
}
