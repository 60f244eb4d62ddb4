/**
 * The action policy engine: which actions a gate allows, which owner grant an
 * allowed action uses up, and the early-return evaluation that decides it.
 * The classification of an action and the verdicts of the content guards are inputs.
 */
module Policy {
  import opened Common

  datatype Gate =
    | Audit | Plan | OwnerPlanReview | Implementation | Test | OwnerPrecommit | Commit | Push | Deploy
    | ProductionValidation | ProductionValidationReadOnly | OwnerFinalClosure

  datatype MutationClass =
    | ReadOnly | LocalMutation | SourceMutation | GitStage | GitCommit | GitPush | GitDestructive
    | Deployment | ProductionRead | ProductionMutation | DatabaseRead | DatabaseMutation
    | SchemaMutation | SchemaSourceMutation | SecretRead | SecretOutput | CredentialUse
    | AuthSessionCreation | Destructive | Unclassified

  datatype Token =
    | PlanApproved | ImplementationApproved | CommitApproved | PushApproved | DeployApproved
    | ProductionMutationApproved | SchemaChangeApproved

  datatype GrantStatus = Issued | Active | Reserved | Consumed | ReconciliationRequired

  /** `boundToAction` is free text in the source; only class names can ever match. */
  datatype ActionBinding = AnyAction | Only(cls: MutationClass) | OtherText(text: string)

  type GrantId = nat
  type ActionId = nat

  datatype Grant = Grant(
    token: Token,
    taskId: string,
    status: GrantStatus,
    reservedFor: Option<ActionId>,
    boundToGate: Option<Gate>,
    boundToAction: ActionBinding)

  /** What the engine sees. `order` is the insertion order of the grant map. */
  datatype Context = Context(
    taskId: string,
    gate: Gate,
    grants: map<GrantId, Grant>,
    order: seq<GrantId>,
    approvedFiles: set<string>)

  datatype Request = Request(
    taskId: string,
    guardVerdicts: seq<Option<string>>,
    classes: seq<MutationClass>,
    command: string,
    args: seq<string>,
    targetFilePaths: seq<string>)

  datatype PolicyRule =
    | GuardViolation(code: string)
    | NotAllowedInGate(cls: MutationClass, gate: Gate)
    | NotInAllowedSet(cls: MutationClass, gate: Gate)
    | TokenRequired(token: Token)
    | BlanketGitAdd
    | TargetUnresolved
    | FileNotInApprovedScope

  datatype Decision = Allow(grant: Option<GrantId>) | Deny(rule: PolicyRule) | RequireApproval

  // ---------------------------------------------------------------- the gate matrix

  function AllowedClasses(g: Gate): set<MutationClass> {
    match g
    case Audit => {ReadOnly, ProductionRead}
    case Implementation => {ReadOnly, LocalMutation, SourceMutation}
    case Test => {ReadOnly, LocalMutation, DatabaseRead}
    case Commit => {ReadOnly, GitStage, GitCommit}
    case Push => {ReadOnly, GitPush}
    case Deploy => {ReadOnly, Deployment}
    case ProductionValidation | ProductionValidationReadOnly => {ReadOnly, ProductionRead}
    case Plan | OwnerPlanReview | OwnerPrecommit | OwnerFinalClosure => {ReadOnly}
  }

  const MUTATIONS_DENIED_EVERYWHERE: set<MutationClass> := {
    GitDestructive, ProductionMutation, DatabaseMutation, SchemaMutation, SecretRead, SecretOutput, Destructive
  }

  function DeniedClasses(g: Gate): set<MutationClass> {
    MUTATIONS_DENIED_EVERYWHERE +
    match g
    case Audit | OwnerPrecommit | ProductionValidation | ProductionValidationReadOnly | OwnerFinalClosure =>
      {LocalMutation, SourceMutation, GitStage, GitCommit, GitPush, Deployment, SchemaSourceMutation,
       CredentialUse, AuthSessionCreation}
    case Plan | OwnerPlanReview =>
      {LocalMutation, SourceMutation, GitStage, GitCommit, GitPush, Deployment, ProductionRead,
       SchemaSourceMutation, CredentialUse, AuthSessionCreation}
    case Implementation => {GitCommit, GitPush, Deployment, ProductionRead}
    case Test => {SourceMutation, GitStage, GitCommit, GitPush, Deployment, SchemaSourceMutation}
    case Commit =>
      {LocalMutation, SourceMutation, GitPush, Deployment, SchemaSourceMutation, CredentialUse, AuthSessionCreation}
    case Push =>
      {LocalMutation, SourceMutation, GitStage, GitCommit, Deployment, SchemaSourceMutation, CredentialUse,
       AuthSessionCreation}
    case Deploy =>
      {LocalMutation, SourceMutation, GitStage, GitCommit, GitPush, SchemaSourceMutation, CredentialUse,
       AuthSessionCreation}
  }

  function RequiredToken(g: Gate, c: MutationClass): Option<Token> {
    match (g, c)
    case (Implementation, SourceMutation) => Some(ImplementationApproved)
    case (Commit, GitStage) => Some(CommitApproved)
    case (Commit, GitCommit) => Some(CommitApproved)
    case (Push, GitPush) => Some(PushApproved)
    case (Deploy, Deployment) => Some(DeployApproved)
    case _ => None
  }

  predicate EnforcesFileScope(g: Gate) { g == Implementation || g == Commit }

  predicate Sensitive(t: Token) {
    t in {CommitApproved, PushApproved, DeployApproved, ProductionMutationApproved, SchemaChangeApproved}
  }

  /** A class whose execution uses its grant up. */
  predicate Consumes(g: Gate, c: MutationClass) {
    (c == GitCommit && RequiredToken(g, c) == Some(CommitApproved)) ||
    (c == GitPush && RequiredToken(g, c) == Some(PushApproved)) ||
    (c == Deployment && RequiredToken(g, c) == Some(DeployApproved))
  }

  /** Staging rides on the commit grant. */
  function TargetAction(t: Token, c: MutationClass): MutationClass {
    if t == CommitApproved && c == GitStage then GitCommit else c
  }

  predicate Matches(a: Grant, t: Token, c: MutationClass, g: Gate, taskId: string) {
    && a.token == t && a.status == Active && a.taskId == taskId
    && if Sensitive(t) then
         a.boundToGate == Some(g) && a.boundToAction == Only(TargetAction(t, c))
       else
         (a.boundToGate == None || a.boundToGate == Some(g)) &&
         (a.boundToAction == AnyAction || a.boundToAction == Only(TargetAction(t, c)))
  }

  function FirstMatching(
      ctx: Context, ids: seq<GrantId>, t: Token, c: MutationClass, taskId: string): (r: Option<GrantId>)
    ensures r.Some? ==> r.value in ids && r.value in ctx.grants && Matches(ctx.grants[r.value], t, c, ctx.gate, taskId)
    ensures r.None? ==> forall id | id in ids && id in ctx.grants :: !Matches(ctx.grants[id], t, c, ctx.gate, taskId)
  {
    if ids == [] then None
    else if ids[0] in ctx.grants && Matches(ctx.grants[ids[0]], t, c, ctx.gate, taskId) then Some(ids[0])
    else FirstMatching(ctx, ids[1..], t, c, taskId)
  }

  // ---------------------------------------------------------------- the decision as a specification

  /** The three per-class checks, in the order the engine runs them. */
  datatype ClassCheck = DeniedByGate | OutsideAllowedSet | MissingGrant

  predicate Fails(k: ClassCheck, ctx: Context, taskId: string, c: MutationClass) {
    match k
    case DeniedByGate => c in DeniedClasses(ctx.gate)
    case OutsideAllowedSet => c !in AllowedClasses(ctx.gate)
    case MissingGrant =>
      var t := RequiredToken(ctx.gate, c);
      t.Some? && FirstMatching(ctx, ctx.order, t.value, c, taskId).None?
  }

  function FirstFailing(k: ClassCheck, ctx: Context, taskId: string, cs: seq<MutationClass>): (r: Option<MutationClass>)
    ensures r.None? <==> forall c | c in cs :: !Fails(k, ctx, taskId, c)
    ensures r.Some? ==> r.value in cs && Fails(k, ctx, taskId, r.value)
  {
    if cs == [] then None
    else if Fails(k, ctx, taskId, cs[0]) then Some(cs[0])
    else FirstFailing(k, ctx, taskId, cs[1..])
  }

  function FirstViolation(vs: seq<Option<string>>): (r: Option<string>)
    ensures r.None? <==> forall v | v in vs :: v.None?
    ensures r.Some? ==> r in vs
  {
    if vs == [] then None else if vs[0].Some? then vs[0] else FirstViolation(vs[1..])
  }

  predicate OccursAt(text: string, part: string, i: nat) { i + |part| <= |text| && text[i..i + |part|] == part }

  predicate Contains(text: string, part: string) {
    exists i | 0 <= i <= |text| - |part| :: OccursAt(text, part, i)
  }

  predicate IsBlanketAdd(req: Request) {
    || "." in req.args || "-A" in req.args || "--all" in req.args
    || Contains(req.command, "git add .") || Contains(req.command, "git add -A")
    || Contains(req.command, "git add --all")
  }

  predicate MutatesFiles(req: Request) { SourceMutation in req.classes || GitStage in req.classes }

  /** The grant the last consuming class of `cs` resolved to. */
  function NamedGrant(ctx: Context, taskId: string, cs: seq<MutationClass>): Option<GrantId> {
    if cs == [] then None
    else
      var c := cs[|cs| - 1];
      if Consumes(ctx.gate, c) then FirstMatching(ctx, ctx.order, RequiredToken(ctx.gate, c).value, c, taskId)
      else NamedGrant(ctx, taskId, cs[..|cs| - 1])
  }

  function Decide(ctx: Context, req: Request): Decision {
    var violation := FirstViolation(req.guardVerdicts);
    if violation.Some? then Deny(GuardViolation(violation.value))
    else if Unclassified in req.classes then RequireApproval
    else
      var denied := FirstFailing(DeniedByGate, ctx, req.taskId, req.classes);
      if denied.Some? then Deny(NotAllowedInGate(denied.value, ctx.gate))
      else
        var outside := FirstFailing(OutsideAllowedSet, ctx, req.taskId, req.classes);
        if outside.Some? then Deny(NotInAllowedSet(outside.value, ctx.gate))
        else
          var missing := FirstFailing(MissingGrant, ctx, req.taskId, req.classes);
          if missing.Some? then Deny(TokenRequired(RequiredToken(ctx.gate, missing.value).value))
          else if GitStage in req.classes && IsBlanketAdd(req) then Deny(BlanketGitAdd)
          else if EnforcesFileScope(ctx.gate) && req.targetFilePaths == [] && MutatesFiles(req) then
            Deny(TargetUnresolved)
          else if EnforcesFileScope(ctx.gate) && exists f | f in req.targetFilePaths :: f !in ctx.approvedFiles then
            Deny(FileNotInApprovedScope)
          else Allow(NamedGrant(ctx, req.taskId, req.classes))
  }

  // ---------------------------------------------------------------- the engine

  lemma FailingStep(k: ClassCheck, ctx: Context, taskId: string, cs: seq<MutationClass>, i: nat)
    requires i < |cs|
    ensures FirstFailing(k, ctx, taskId, cs[i..]) ==
      if Fails(k, ctx, taskId, cs[i]) then Some(cs[i]) else FirstFailing(k, ctx, taskId, cs[i + 1..])
  {
    assert cs[i..][0] == cs[i] && cs[i..][1..] == cs[i + 1..];
  }

  lemma NamedStep(ctx: Context, taskId: string, cs: seq<MutationClass>, i: nat)
    requires i < |cs|
    ensures NamedGrant(ctx, taskId, cs[..i + 1]) ==
      if Consumes(ctx.gate, cs[i]) then
        FirstMatching(ctx, ctx.order, RequiredToken(ctx.gate, cs[i]).value, cs[i], taskId)
      else NamedGrant(ctx, taskId, cs[..i])
  {
    assert cs[..i + 1][..i] == cs[..i] && cs[..i + 1][i] == cs[i];
  }

  /** The authority loop: the first class without a matching grant, else the grant to use up. */
  method CheckAuthority(ctx: Context, req: Request) returns (missing: Option<MutationClass>, grantedBy: Option<GrantId>)
    ensures missing == FirstFailing(MissingGrant, ctx, req.taskId, req.classes)
    ensures missing.None? ==> grantedBy == NamedGrant(ctx, req.taskId, req.classes)
  {
    grantedBy := None;
    for i := 0 to |req.classes|
      invariant FirstFailing(MissingGrant, ctx, req.taskId, req.classes) ==
        FirstFailing(MissingGrant, ctx, req.taskId, req.classes[i..])
      invariant grantedBy == NamedGrant(ctx, req.taskId, req.classes[..i])
    {
      var cls := req.classes[i];
      FailingStep(MissingGrant, ctx, req.taskId, req.classes, i);
      NamedStep(ctx, req.taskId, req.classes, i);
      var required := RequiredToken(ctx.gate, cls);
      if required.Some? {
        var matching := FirstMatching(ctx, ctx.order, required.value, cls, req.taskId);
        if matching.None? { return Some(cls), None; }
        if Consumes(ctx.gate, cls) { grantedBy := matching; }
      }
    }
    assert req.classes[..|req.classes|] == req.classes;
    return None, grantedBy;
  }

  /** The two gate loops of the matrix: denied classes first, then classes outside the allowed set. */
  method CheckClasses(ctx: Context, req: Request) returns (r: Option<PolicyRule>)
    ensures var denied := FirstFailing(DeniedByGate, ctx, req.taskId, req.classes);
            var outside := FirstFailing(OutsideAllowedSet, ctx, req.taskId, req.classes);
            r == if denied.Some? then Some(NotAllowedInGate(denied.value, ctx.gate))
                 else if outside.Some? then Some(NotInAllowedSet(outside.value, ctx.gate)) else None
  {
    for i := 0 to |req.classes|
      invariant FirstFailing(DeniedByGate, ctx, req.taskId, req.classes) ==
        FirstFailing(DeniedByGate, ctx, req.taskId, req.classes[i..])
    {
      FailingStep(DeniedByGate, ctx, req.taskId, req.classes, i);
      if req.classes[i] in DeniedClasses(ctx.gate) { return Some(NotAllowedInGate(req.classes[i], ctx.gate)); }
    }
    for i := 0 to |req.classes|
      invariant FirstFailing(OutsideAllowedSet, ctx, req.taskId, req.classes) ==
        FirstFailing(OutsideAllowedSet, ctx, req.taskId, req.classes[i..])
    {
      FailingStep(OutsideAllowedSet, ctx, req.taskId, req.classes, i);
      if req.classes[i] !in AllowedClasses(ctx.gate) { return Some(NotInAllowedSet(req.classes[i], ctx.gate)); }
    }
    return None;
  }

  method CheckGuards(verdicts: seq<Option<string>>) returns (violation: Option<string>)
    ensures violation == FirstViolation(verdicts)
  {
    for i := 0 to |verdicts|
      invariant FirstViolation(verdicts) == FirstViolation(verdicts[i..])
    {
      if verdicts[i].Some? { return verdicts[i]; }
    }
    return None;
  }

  /** File scope, at the gates that enforce it. */
  method CheckFiles(ctx: Context, req: Request) returns (r: Option<PolicyRule>)
    ensures r ==
      if EnforcesFileScope(ctx.gate) && req.targetFilePaths == [] && MutatesFiles(req) then Some(TargetUnresolved)
      else if EnforcesFileScope(ctx.gate) && exists f | f in req.targetFilePaths :: f !in ctx.approvedFiles then
        Some(FileNotInApprovedScope)
      else None
  {
    if EnforcesFileScope(ctx.gate) {
      if |req.targetFilePaths| == 0 {
        if MutatesFiles(req) { return Some(TargetUnresolved); }
      } else {
        for i := 0 to |req.targetFilePaths|
          invariant forall j | 0 <= j < i :: req.targetFilePaths[j] in ctx.approvedFiles
        {
          if req.targetFilePaths[i] !in ctx.approvedFiles { return Some(FileNotInApprovedScope); }
        }
      }
    }
    return None;
  }

  /** `ActionClassifyingPolicyEngine.evaluate`: guards, classification, matrix, authority, file scope. */
  method Evaluate(ctx: Context, req: Request) returns (d: Decision)
    ensures d == Decide(ctx, req)
  {
    var violation := CheckGuards(req.guardVerdicts);
    if violation.Some? { return Deny(GuardViolation(violation.value)); }
    if Unclassified in req.classes { return RequireApproval; }
    var rule := CheckClasses(ctx, req);
    if rule.Some? { return Deny(rule.value); }
    var missing, grantedBy := CheckAuthority(ctx, req);
    if missing.Some? { return Deny(TokenRequired(RequiredToken(ctx.gate, missing.value).value)); }
    if GitStage in req.classes && IsBlanketAdd(req) { return Deny(BlanketGitAdd); }
    var file := CheckFiles(ctx, req);
    if file.Some? { return Deny(file.value); }
    return Allow(grantedBy);
  }

  // ---------------------------------------------------------------- what an ALLOW means

  ghost predicate HasMatchingGrant(ctx: Context, taskId: string, c: MutationClass) {
    var t := RequiredToken(ctx.gate, c);
    t.Some? ==> exists id | id in ctx.order && id in ctx.grants :: Matches(ctx.grants[id], t.value, c, ctx.gate, taskId)
  }

  ghost predicate FilesInScope(ctx: Context, req: Request) {
    EnforcesFileScope(ctx.gate) ==>
      && (MutatesFiles(req) ==> req.targetFilePaths != [])
      && forall f | f in req.targetFilePaths :: f in ctx.approvedFiles
  }

  /** The engine allows exactly the clean, classified, in-gate, authorised, in-scope requests. */
  lemma AllowExactly(ctx: Context, req: Request)
    ensures Decide(ctx, req).Allow? <==>
      && (forall v | v in req.guardVerdicts :: v.None?)
      && (forall c | c in req.classes :: c in AllowedClasses(ctx.gate) && HasMatchingGrant(ctx, req.taskId, c))
      && !(GitStage in req.classes && IsBlanketAdd(req))
      && FilesInScope(ctx, req)
  {
    forall c | c in AllowedClasses(ctx.gate) ensures c !in DeniedClasses(ctx.gate) && c != Unclassified {
      AllowedIsNeverDenied(ctx.gate, c);
    }
  }

  lemma AllowedIsNeverDenied(g: Gate, c: MutationClass)
    requires c in AllowedClasses(g)
    ensures c !in DeniedClasses(g) && c != Unclassified
  {
    match g {
      case _ => match c { case _ => }
    }
  }

  // ---------------------------------------------------------------- what may be done where, class by class

  /** The gate matrix read the other way: the gates at which a class may run at all. */
  function GatesFor(c: MutationClass): set<Gate> {
    match c
    case ReadOnly =>
      {Audit, Plan, OwnerPlanReview, Implementation, Test, OwnerPrecommit, Commit, Push, Deploy, ProductionValidation,
       ProductionValidationReadOnly, OwnerFinalClosure}
    case LocalMutation => {Implementation, Test}
    case ProductionRead => {Audit, ProductionValidation, ProductionValidationReadOnly}
    case DatabaseRead => {Test}
    case SourceMutation => {Implementation}
    case GitStage | GitCommit => {Commit}
    case GitPush => {Push}
    case Deployment => {Deploy}
    case _ => {}
  }

  lemma MatrixIsTransposed(g: Gate, c: MutationClass)
    ensures c in AllowedClasses(g) <==> g in GatesFor(c)
  {
    match g {
      case _ => match c { case _ => }
    }
  }

  /** An ACTIVE grant of the token for the task, not bound to another gate or another action. */
  predicate HoldsFor(ctx: Context, id: GrantId, t: Token, taskId: string, bound: MutationClass) {
    && id in ctx.grants && ctx.grants[id].token == t && ctx.grants[id].status == Active
    && ctx.grants[id].taskId == taskId
    && (ctx.grants[id].boundToGate.None? || ctx.grants[id].boundToGate == Some(ctx.gate))
    && (ctx.grants[id].boundToAction == AnyAction || ctx.grants[id].boundToAction == Only(bound))
  }

  /** The same, bound to this very gate and this very action. */
  predicate BoundFor(ctx: Context, id: GrantId, t: Token, taskId: string, bound: MutationClass) {
    HoldsFor(ctx, id, t, taskId, bound) && ctx.grants[id].boundToGate.Some? && ctx.grants[id].boundToAction != AnyAction
  }

  /**
   * Sources are edited only under an ACTIVE grant for implementation, and nothing is staged, committed, pushed or
   * deployed but under an ACTIVE grant bound to exactly that gate and action, staging riding on the commit's. Every
   * other class that is ever allowed only reads, or touches nothing but the local machine.
   */
  lemma AllowedNeedsGrant(ctx: Context, req: Request, c: MutationClass)
    requires Decide(ctx, req).Allow? && c in req.classes
    ensures ctx.gate in GatesFor(c)
    ensures match c
      case SourceMutation => exists id :: HoldsFor(ctx, id, ImplementationApproved, req.taskId, SourceMutation)
      case GitStage | GitCommit => exists id :: BoundFor(ctx, id, CommitApproved, req.taskId, GitCommit)
      case GitPush => exists id :: BoundFor(ctx, id, PushApproved, req.taskId, GitPush)
      case Deployment => exists id :: BoundFor(ctx, id, DeployApproved, req.taskId, Deployment)
      case _ => c in {ReadOnly, LocalMutation, ProductionRead, DatabaseRead}
  {
    AllowExactly(ctx, req);
    MatrixIsTransposed(ctx.gate, c);
    TokenOf(ctx.gate, c);
    assert HasMatchingGrant(ctx, req.taskId, c);
    var t := RequiredToken(ctx.gate, c);
    if t.Some? {
      var id :| id in ctx.order && id in ctx.grants && Matches(ctx.grants[id], t.value, c, ctx.gate, req.taskId);
      MatchIsBound(ctx, id, t.value, c, req.taskId);
    }
  }

  lemma MatchIsBound(ctx: Context, id: GrantId, t: Token, c: MutationClass, taskId: string)
    requires id in ctx.grants && Matches(ctx.grants[id], t, c, ctx.gate, taskId)
    ensures HoldsFor(ctx, id, t, taskId, if t == CommitApproved && c == GitStage then GitCommit else c)
    ensures t in {CommitApproved, PushApproved, DeployApproved} ==>
      BoundFor(ctx, id, t, taskId, if t == CommitApproved && c == GitStage then GitCommit else c)
  {
  }

  lemma TokenOf(g: Gate, c: MutationClass)
    requires g in GatesFor(c)
    ensures RequiredToken(g, c) == match c
      case SourceMutation => Some(ImplementationApproved)
      case GitStage | GitCommit => Some(CommitApproved)
      case GitPush => Some(PushApproved)
      case Deployment => Some(DeployApproved)
      case _ => None
  {
    match c { case _ => }
  }

  /** Where sources are edited or staged the targets are known, and at both gates every one of them is approved. */
  lemma AllowedStaysInScope(ctx: Context, req: Request)
    requires Decide(ctx, req).Allow? && (ctx.gate == Implementation || ctx.gate == Commit)
    ensures SourceMutation in req.classes || GitStage in req.classes ==> req.targetFilePaths != []
    ensures forall f | f in req.targetFilePaths :: f in ctx.approvedFiles
  {
    AllowExactly(ctx, req);
  }

  /** What is staged is named: no argument stands for everything, and no part of the command adds everything. */
  lemma NothingIsStagedWholesale(ctx: Context, req: Request, i: nat, j: nat)
    requires Decide(ctx, req).Allow? && GitStage in req.classes && i <= j <= |req.command|
    ensures "." !in req.args && "-A" !in req.args && "--all" !in req.args
    ensures req.command[i..j] !in {"git add .", "git add -A", "git add --all"}
  {
    AllowExactly(ctx, req);
    NotContained(req.command, "git add .", i, j);
    NotContained(req.command, "git add -A", i, j);
    NotContained(req.command, "git add --all", i, j);
  }

  lemma NotContained(text: string, part: string, i: nat, j: nat)
    requires i <= j <= |text| && !Contains(text, part)
    ensures text[i..j] != part
  {
    if text[i..j] == part { assert OccursAt(text, part, i); }
  }

  /** What the rule of a denial claims about the request. */
  predicate Holds(ctx: Context, req: Request, rule: PolicyRule) {
    match rule
    case GuardViolation(code) => Some(code) in req.guardVerdicts
    case NotAllowedInGate(c, g) => g == ctx.gate && c in req.classes && g !in GatesFor(c)
    case NotInAllowedSet(c, g) => g == ctx.gate && c in req.classes && g !in GatesFor(c)
    case TokenRequired(t) =>
      exists c | c in req.classes :: ctx.gate in GatesFor(c) && RequiredToken(ctx.gate, c) == Some(t)
        && forall id | id in ctx.order && id in ctx.grants ::
             !Matches(ctx.grants[id], t, c, ctx.gate, req.taskId)
    case BlanketGitAdd => GitStage in req.classes
    case TargetUnresolved => (SourceMutation in req.classes || GitStage in req.classes) && req.targetFilePaths == []
    case FileNotInApprovedScope => exists f | f in req.targetFilePaths :: f !in ctx.approvedFiles
  }

  /** Every denial states a rule that the request does break. */
  lemma DenialIsTrue(ctx: Context, req: Request)
    requires Decide(ctx, req).Deny?
    ensures Holds(ctx, req, Decide(ctx, req).rule)
  {
    forall c ensures c in AllowedClasses(ctx.gate) <==> ctx.gate in GatesFor(c) { MatrixIsTransposed(ctx.gate, c); }
    forall c | c in AllowedClasses(ctx.gate) ensures c !in DeniedClasses(ctx.gate) {
      AllowedIsNeverDenied(ctx.gate, c);
    }
  }

  /** Approval is asked for exactly when no guard objects and some class is unknown. */
  lemma ApprovalAskedIff(ctx: Context, req: Request)
    ensures Decide(ctx, req) == RequireApproval <==>
      (forall v | v in req.guardVerdicts :: v.None?) && Unclassified in req.classes
  {
  }

  // ---------------------------------------------------------------- the grant that is used up

  /** The one gate, and the one token, that can ever authorise a consuming class. */
  function HomeGate(c: MutationClass): Gate
    requires c in {GitCommit, GitPush, Deployment}
  {
    match c case GitCommit => Commit case GitPush => Push case Deployment => Deploy
  }

  function TokenFor(c: MutationClass): Token
    requires c in {GitCommit, GitPush, Deployment}
  {
    match c case GitCommit => CommitApproved case GitPush => PushApproved case Deployment => DeployApproved
  }

  /** A grant issued for exactly this class at exactly its gate. */
  predicate BoundTo(a: Grant, c: MutationClass)
    requires c in {GitCommit, GitPush, Deployment}
  {
    a.token == TokenFor(c) && a.boundToGate == Some(HomeGate(c)) && a.boundToAction == Only(c)
  }

  /** An allowed commit, push or deployment names an ACTIVE grant bound to that very class. */
  lemma AllowNamesBoundGrant(ctx: Context, req: Request, c: MutationClass)
    requires Decide(ctx, req).Allow?
    requires c in {GitCommit, GitPush, Deployment} && c in req.classes
    ensures ctx.gate == HomeGate(c)
    ensures var g := Decide(ctx, req).grant;
      g.Some? && g.value in ctx.grants && ctx.grants[g.value].status == Active && BoundTo(ctx.grants[g.value], c)
  {
    assert c in AllowedClasses(ctx.gate);
    NamedGrantIsBound(ctx, req.taskId, req.classes, c);
    assert !Fails(MissingGrant, ctx, req.taskId, c);
  }

  lemma {:induction false} NamedGrantIsBound(ctx: Context, taskId: string, cs: seq<MutationClass>, c: MutationClass)
    requires c in {GitCommit, GitPush, Deployment} && c in cs && Consumes(ctx.gate, c)
    requires forall x | x in cs :: x in AllowedClasses(ctx.gate) && !Fails(MissingGrant, ctx, taskId, x)
    ensures NamedGrant(ctx, taskId, cs) == FirstMatching(ctx, ctx.order, TokenFor(c), c, taskId)
    ensures NamedGrant(ctx, taskId, cs).Some?
  {
    var last := cs[|cs| - 1];
    if Consumes(ctx.gate, last) {
      assert last == c;
    } else {
      NamedGrantIsBound(ctx, taskId, cs[..|cs| - 1], c);
    }
  }

  /** Conversely, a grant is named only for a consuming class of the request, and is bound to it. */
  lemma {:induction false} NamedGrantHasClass(ctx: Context, taskId: string, cs: seq<MutationClass>)
    requires NamedGrant(ctx, taskId, cs).Some?
    ensures var id := NamedGrant(ctx, taskId, cs).value;
      id in ctx.grants && ctx.grants[id].status == Active &&
      exists c | c in cs && c in {GitCommit, GitPush, Deployment} :: BoundTo(ctx.grants[id], c)
  {
    var last := cs[|cs| - 1];
    if Consumes(ctx.gate, last) {
      assert BoundTo(ctx.grants[NamedGrant(ctx, taskId, cs).value], last);
    } else {
      NamedGrantHasClass(ctx, taskId, cs[..|cs| - 1]);
    }
  }
}
