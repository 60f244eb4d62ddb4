/**
 * Reconciliation and completion in terms of the records alone: when each conflict code is reported, how the codes
 * decide the state, and when an item is complete whatever snapshot it is judged by.
 */
module CompletionOutcomes {
  import opened Common
  import opened Lists
  import opened WorkItems
  import opened Completion

  predicate OfItem(r: Records, projectId: string, workItemId: string) {
    projectId == r.project.id && workItemId == r.workItem.id
  }

  predicate Counted(r: Records, v: Verification, status: VerificationStatus) {
    v in r.verifications && OfItem(r, v.projectId, v.workItemId) && v.status == status
  }

  /** The latest evidence of the item with the id stands at `n`. */
  predicate LatestAt(r: Records, id: string, n: nat) {
    && n < |r.evidence| && r.evidence[n].id == id && OfItem(r, r.evidence[n].projectId, r.evidence[n].workItemId)
    && forall m | n < m < |r.evidence| ::
         r.evidence[m].id == id ==> !OfItem(r, r.evidence[m].projectId, r.evidence[m].workItemId)
  }

  predicate LatestOf(evidence: seq<Evidence>, keep: Evidence -> bool, id: string, n: nat) {
    && n < |evidence| && keep(evidence[n]) && evidence[n].id == id
    && forall m | n < m < |evidence| :: evidence[m].id == id ==> !keep(evidence[m])
  }

  lemma {:induction false} ResolvesToLatest(evidence: seq<Evidence>, keep: Evidence -> bool, id: string)
    ensures forall n | 0 <= n < |evidence| && LatestOf(evidence, keep, id, n) ::
      Resolve(Filter(evidence, keep), id) == Some(evidence[n])
    ensures Resolve(Filter(evidence, keep), id).Some? ==>
      exists n | 0 <= n < |evidence| :: LatestOf(evidence, keep, id, n)
  {
    if evidence != [] {
      var front, last := evidence[..|evidence| - 1], evidence[|evidence| - 1];
      ResolvesToLatest(front, keep, id);
      if keep(last) {
        assert (Filter(front, keep) + [last])[..|Filter(front, keep)|] == Filter(front, keep);
      } else {
        assert Filter(evidence, keep) == Filter(front, keep);
      }
      if keep(last) && last.id == id {
        assert LatestOf(evidence, keep, id, |evidence| - 1);
      } else {
        forall n | 0 <= n < |front| ensures LatestOf(evidence, keep, id, n) <==> LatestOf(front, keep, id, n) {
          assert forall m | 0 <= m < |front| :: evidence[m] == front[m];
        }
      }
    }
  }

  lemma LatestIsScoped(r: Records, id: string)
    ensures forall n | 0 <= n < |r.evidence| :: LatestAt(r, id, n) <==> LatestOf(r.evidence, EvidenceInScope(r), id, n)
  {
  }

  /** No evidence of the item has the id. */
  predicate Dangles(r: Records, id: string) { forall n | 0 <= n < |r.evidence| :: !LatestAt(r, id, n) }

  predicate IsOutdated(r: Records, id: string) {
    exists n | 0 <= n < |r.evidence| :: LatestAt(r, id, n) && r.evidence[n].currentness != Current
  }

  lemma MissingInWords(r: Records, id: string)
    ensures (Missing(r, id) <==> Dangles(r, id)) && (Noncurrent(r, id) <==> IsOutdated(r, id))
  {
    ResolvesToLatest(r.evidence, EvidenceInScope(r), id);
    LatestIsScoped(r, id);
  }

  predicate RefersToMissing(r: Records, v: Verification) {
    exists i | 0 <= i < |v.evidenceIds| :: Dangles(r, v.evidenceIds[i])
  }

  predicate RefersToNoncurrent(r: Records, v: Verification) {
    exists i | 0 <= i < |v.evidenceIds| :: IsOutdated(r, v.evidenceIds[i])
  }

  /** Exactly when each code about the records is reported, record by record. */
  ghost predicate InWords(r: Records, code: ConflictCode) {
    match code
    case CrossScopeEvidence => exists e | e in r.evidence :: !OfItem(r, e.projectId, e.workItemId)
    case CrossScopeVerification => exists v | v in r.verifications :: !OfItem(r, v.projectId, v.workItemId)
    case StaleEvidence => exists e | e in r.evidence :: OfItem(r, e.projectId, e.workItemId) && e.currentness != Current
    case PassWithoutEvidence => exists v | Counted(r, v, Pass) :: v.evidenceIds == []
    case ReferencesMissingEvidence => exists v | Counted(r, v, Pass) :: RefersToMissing(r, v)
    case ReferencesNoncurrentEvidence => exists v | Counted(r, v, Pass) :: RefersToNoncurrent(r, v)
    case FailedVerification => exists v :: Counted(r, v, Fail)
    case InconclusiveVerification => exists v :: Counted(r, v, Inconclusive)
    case _ => false
  }

  lemma ReferencesInWords(r: Records, v: Verification)
    ensures RefersToMissing(r, v) <==> exists i | 0 <= i < |v.evidenceIds| :: Missing(r, v.evidenceIds[i])
    ensures RefersToNoncurrent(r, v) <==> exists i | 0 <= i < |v.evidenceIds| :: Noncurrent(r, v.evidenceIds[i])
  {
    forall i | 0 <= i < |v.evidenceIds|
      ensures Missing(r, v.evidenceIds[i]) <==> Dangles(r, v.evidenceIds[i])
      ensures Noncurrent(r, v.evidenceIds[i]) <==> IsOutdated(r, v.evidenceIds[i])
    {
      MissingInWords(r, v.evidenceIds[i]);
    }
  }

  lemma NoneScopedIff(r: Records, status: VerificationStatus)
    ensures forall v :: v in ScopedVerifications(r, status) <==> Counted(r, v, status)
    ensures ScopedVerifications(r, status) != [] <==> exists v :: Counted(r, v, status)
  {
    ScopedMembers(r, status);
    if ScopedVerifications(r, status) != [] {
      assert Counted(r, ScopedVerifications(r, status)[0], status);
    }
  }

  lemma ScopeCodesInWords(r: Records)
    ensures RecordConflict(r, CrossScopeEvidence) <==> InWords(r, CrossScopeEvidence)
    ensures RecordConflict(r, CrossScopeVerification) <==> InWords(r, CrossScopeVerification)
    ensures RecordConflict(r, StaleEvidence) <==> InWords(r, StaleEvidence)
  {
    assert forall e :: EvidenceInScope(r)(e) <==> OfItem(r, e.projectId, e.workItemId);
    assert forall v :: VerificationInScope(r)(v) <==> OfItem(r, v.projectId, v.workItemId);
  }

  lemma StatusCodesInWords(r: Records)
    ensures RecordConflict(r, FailedVerification) <==> InWords(r, FailedVerification)
    ensures RecordConflict(r, InconclusiveVerification) <==> InWords(r, InconclusiveVerification)
  {
    NoneScopedIff(r, Fail);
    NoneScopedIff(r, Inconclusive);
  }

  lemma ReferenceCodesInWords(r: Records)
    ensures RecordConflict(r, PassWithoutEvidence) <==> InWords(r, PassWithoutEvidence)
    ensures RecordConflict(r, ReferencesMissingEvidence) <==> InWords(r, ReferencesMissingEvidence)
    ensures RecordConflict(r, ReferencesNoncurrentEvidence) <==> InWords(r, ReferencesNoncurrentEvidence)
  {
    NoneScopedIff(r, Pass);
    forall v
      ensures RefersToMissing(r, v) <==> exists i | 0 <= i < |v.evidenceIds| :: Missing(r, v.evidenceIds[i])
      ensures RefersToNoncurrent(r, v) <==> exists i | 0 <= i < |v.evidenceIds| :: Noncurrent(r, v.evidenceIds[i])
    {
      ReferencesInWords(r, v);
    }
  }

  /** Every code of a snapshot but the two of its state is reported exactly when the records say so. */
  lemma CodesAreTrue(r: Records, s: Snapshot, code: ConflictCode)
    requires IsReconciliation(r, s) && r.workItem.projectId == r.project.id
    requires code != WorkItemNotCompleted && code != SupportInsufficient
    ensures code in s.conflictCodes <==> InWords(r, code)
  {
    assert code in s.conflictCodes <==> Reported(r, code);
    ScopeCodesInWords(r);
    StatusCodesInWords(r);
    ReferenceCodesInWords(r);
  }

  // ---------------------------------------------------------------- the codes decide the state

  /** Nothing in the records outweighs the work item's own lifecycle. */
  ghost predicate Quiet(s: Snapshot) {
    && WorkItemProjectScopeMismatch !in s.conflictCodes && FailedVerification !in s.conflictCodes
    && ReferencesMissingEvidence !in s.conflictCodes && InconclusiveVerification !in s.conflictCodes
  }

  /**
   * The state can be read off the codes: UNKNOWN for an inconclusive verification with nothing failed or missing,
   * BLOCKED for the two codes that say so, PASS without any code, FAILED for all else.
   */
  lemma CodesDecideState(r: Records, s: Snapshot)
    requires IsReconciliation(r, s)
    ensures s.state == RUnknown <==>
      && InconclusiveVerification in s.conflictCodes && FailedVerification !in s.conflictCodes
      && ReferencesMissingEvidence !in s.conflictCodes
    ensures s.state == RBlocked <==> WorkItemNotCompleted in s.conflictCodes || SupportInsufficient in s.conflictCodes
    ensures s.state == RPass <==> s.conflictCodes == []
    ensures WorkItemNotCompleted in s.conflictCodes <==> Quiet(s) && r.workItem.lifecycle != Completed
    ensures SupportInsufficient in s.conflictCodes <==>
      && Quiet(s) && r.workItem.lifecycle == Completed
      && (!(exists v :: Counted(r, v, Pass)) || !(exists e | e in r.evidence :: Supports(r)(e)))
  {
    assert forall code :: code in s.conflictCodes <==> Reported(r, code);
    PassIffNoConflicts(r, s);
    SupportInWords(r);
  }

  lemma SupportInWords(r: Records)
    ensures Supported(r) <==> (exists v :: Counted(r, v, Pass)) && exists e | e in r.evidence :: Supports(r)(e)
  {
    NoneScopedIff(r, Pass);
    FilterMembers(r.evidence, EvidenceInScope(r));
    FilterNoneIff(ScopedEvidence(r), IsCurrent());
    if e :| e in r.evidence && Supports(r)(e) { assert e in ScopedEvidence(r) && IsCurrent()(e); }
    if CurrentEvidence(r) != [] {
      var e :| e in ScopedEvidence(r) && IsCurrent()(e);
      assert Supports(r)(e);
    }
  }

  // ---------------------------------------------------------------- completion by any snapshot

  /** A passing verification of the item all of whose evidence is current and of the item. */
  predicate Sound(r: Records, v: Verification) {
    && Counted(r, v, Pass) && v.evidenceIds != []
    && forall id | id in v.evidenceIds ::
         exists e | e in r.evidence :: e.id == id && OfItem(r, e.projectId, e.workItemId) && e.currentness == Current
  }

  lemma SupportIdsInWords(r: Records, id: string)
    ensures id in SupportIds(r) <==>
      exists e | e in r.evidence :: e.id == id && OfItem(r, e.projectId, e.workItemId) && e.currentness == Current
  {
    FilterMembers(r.evidence, Supports(r));
    if e :| e in r.evidence && e.id == id && OfItem(r, e.projectId, e.workItemId) && e.currentness == Current {
      assert e in Filter(r.evidence, Supports(r));
    }
  }

  lemma SomeValidIff(r: Records)
    ensures ValidVerifications(r) != [] <==> exists v :: Sound(r, v)
    ensures forall v :: v in ValidVerifications(r) <==> Sound(r, v)
  {
    FilterMembers(r.verifications, Counts(r, Pass));
    FilterMembers(Filter(r.verifications, Counts(r, Pass)), IsValid(r));
    forall id
      ensures id in SupportIds(r) <==>
        exists e | e in r.evidence :: e.id == id && OfItem(r, e.projectId, e.workItemId) && e.currentness == Current
    {
      SupportIdsInWords(r, id);
    }
    assert forall v :: v in ValidVerifications(r) <==> Sound(r, v);
    if ValidVerifications(r) != [] { assert Sound(r, ValidVerifications(r)[0]); }
  }

  lemma NoFailingIff(r: Records)
    ensures Filter(r.verifications, Counts(r, Fail)) != [] <==> exists v :: Counted(r, v, Fail)
  {
    FilterNoneIff(r.verifications, Counts(r, Fail));
    if Filter(r.verifications, Counts(r, Fail)) != [] {
      var v :| v in r.verifications && Counts(r, Fail)(v);
      assert Counted(r, v, Fail);
    }
    if v :| Counted(r, v, Fail) { assert Counts(r, Fail)(v); }
  }

  /** The snapshot is of these very revisions of project and work item. */
  predicate OfThese(r: Records, s: Snapshot) {
    && s.projectId == r.project.id && s.projectRevision == r.project.revision
    && s.workItemId == r.workItem.id && s.workItemRevision == r.workItem.revision
  }

  /** Judged by a snapshot of any other revision, nothing is complete and no record is counted. */
  lemma StaleSnapshotFails(r: Records, s: Snapshot, d: Decision)
    requires IsDecision(r, s, d) && !OfThese(r, s)
    ensures d.state == ReconciliationFailed && d.rationale == [SnapshotStaleOrMismatched]
    ensures d.verificationIds == [] && d.evidenceIds == []
  {
  }

  /** What each reason of a decision claims. */
  predicate ReasonHolds(r: Records, s: Snapshot, why: Rationale) {
    match why
    case SnapshotStaleOrMismatched => !OfThese(r, s)
    case SnapshotBlocked => s.state == RBlocked
    case SnapshotNotPass => s.state != RPass && s.state != RBlocked
    case ItemNotCompleted => r.workItem.lifecycle != Completed
    case PassVerificationMissing => forall v | v in r.verifications :: !Sound(r, v)
    case ResidualScopeRemains => r.workItem.lifecycle == Completed
    case ItemCompleted => r.workItem.lifecycle == Completed
    case EvidencePresent => exists e | e in r.evidence :: Supports(r)(e)
    case VerificationPresent => exists v | v in r.verifications :: Sound(r, v)
    case SnapshotPass => s.state == RPass
  }

  /** Every reason a decision gives is true of the records and the snapshot, and it gives one. */
  lemma ReasonsAreTrue(r: Records, s: Snapshot, d: Decision)
    requires IsDecision(r, s, d)
    ensures d.rationale != [] && forall why | why in d.rationale :: ReasonHolds(r, s, why)
    ensures d.rationale == [ResidualScopeRemains] ==> d.residual != []
  {
    if d.state == Complete { ValidIsThere(r); }
    if d.state == EvidenceInsufficient { NoneIsValid(r); }
  }

  lemma ValidIsThere(r: Records)
    requires ValidVerifications(r) != []
    ensures exists v | v in r.verifications :: Sound(r, v)
    ensures exists e | e in r.evidence :: Supports(r)(e)
  {
    SomeValidIff(r);
    var v :| Sound(r, v);
    SoundIsSupported(r, v);
  }

  lemma NoneIsValid(r: Records)
    requires ValidVerifications(r) == []
    ensures forall v | v in r.verifications :: !Sound(r, v)
  {
    SomeValidIff(r);
  }

  lemma SoundIsSupported(r: Records, v: Verification)
    requires Sound(r, v)
    ensures exists e | e in r.evidence :: Supports(r)(e)
  {
    assert v.evidenceIds[0] in v.evidenceIds;
    var e :| e in r.evidence && e.id == v.evidenceIds[0] && OfItem(r, e.projectId, e.workItemId)
      && e.currentness == Current;
    assert Supports(r)(e);
  }

  lemma ResidueIff(r: Records, s: Snapshot, d: Decision)
    requires IsDecision(r, s, d) && Examined(r, s) && ValidVerifications(r) != []
    ensures d.residual == [] <==> (forall x :: !Obligation(r, x)) && Filter(r.verifications, Counts(r, Fail)) == []
  {
    if d.residual != [] {
      var x := d.residual[0];
      assert x in d.residual && Remains(r, s, x);
      if x.Failing? {
        var v :| v in Filter(r.verifications, Counts(r, Fail)) && v.kind == x.kind;
      } else {
        assert Obligation(r, x);
      }
    } else {
      forall x ensures !Obligation(r, x) { assert x in d.residual <==> Remains(r, s, x); }
      if Filter(r.verifications, Counts(r, Fail)) != [] {
        var v := Filter(r.verifications, Counts(r, Fail))[0];
        assert Remains(r, s, Failing(v.kind));
      }
    }
  }

  /**
   * Whatever snapshot it is judged by, an item is COMPLETE if and only if the snapshot is a PASS of these revisions,
   * the item's lifecycle is COMPLETED, some verification is sound and none failed, and nothing required is missing.
   */
  lemma CompleteByAnySnapshotIff(r: Records, s: Snapshot, d: Decision)
    requires IsDecision(r, s, d)
    ensures d.state == Complete <==>
      && OfThese(r, s) && s.state == RPass && r.workItem.lifecycle == Completed
      && (exists v :: Sound(r, v)) && !(exists v :: Counted(r, v, Fail))
      && r.project.name != "" && r.workItem.objective != ""
      && forall cmo | cmo in REQUIRED_CMOS :: Claimed(r, cmo)
  {
    SomeValidIff(r);
    NoFailingIff(r);
    NoObligationIff(r);
    if Examined(r, s) && ValidVerifications(r) != [] { ResidueIff(r, s, d); }
  }
}
