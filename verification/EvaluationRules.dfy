/** When an evaluation allows a target: the conditions on the record, the policy and the evidence, each by itself. */
module EvaluationRules {
  import opened Basics
  import opened States
  import opened Records
  import opened PolicySafety
  import opened BugLifecycle

  /** The targets an exact candidate is asked for, and those an artifact is asked for as well. */
  const CANDIDATE_TARGETS: set<State> := {
    PatchImplemented, RegressionTestProven, TargetedValidationPass, RegressionValidationPass, DiffForensicsPass,
    IndependentReviewPass, CiPass, PackageReleased, ReleaseArtifactVerified, ConsumerValidationPass, StagingPass,
    ReadyForOwnerRelease, ProductionReleased, PostDeployVerified, Closed}

  const ARTIFACT_TARGETS: set<State> := {
    PackageReleased, ReleaseArtifactVerified, ConsumerValidationPass, StagingPass, ReadyForOwnerRelease,
    ProductionReleased, PostDeployVerified, Closed}

  predicate PackageOnly(r: Record) { Lookup(r.subject.material, DeliveryModel) == Some("PACKAGE_OR_PLUGIN") }

  /** The policy is safe, lists the target and gives the case an exit to it; a package is never rolled back. */
  predicate PolicyAllows(ctx: Context, r: Record, target: State) {
    && Safe(ctx.policy) && target in ctx.policy.states && target in ctx.policy.Exits(LogicalCurrent(r.position))
    && (PackageOnly(r) ==> target != RollbackRequired && r.position.state != RollbackRequired)
  }

  /** No class is lowered: neither that of the case nor one its history records. */
  predicate RiskAllows(ctx: Context, r: Record) {
    var asked := if ctx.problem.Some? then ctx.problem.value.cls else KnownClass(r.risk);
    && ClassOrder(KnownClass(r.risk)) <= ClassOrder(asked)
    && forall i :: 0 <= i < |r.risk.history| && r.risk.history[i].cls.Some? ==> ClassOrder(r.risk.history[i].cls.value) <= ClassOrder(asked)
  }

  /** Among the evidence found there is a reference of each type. */
  predicate Shows(found: seq<EvidenceRefs>, types: set<string>) {
    forall t :: t in types ==> exists f :: f in found && f.kind == t && f.refs != []
  }

  predicate EvidenceAllows(ctx: Context, r: Record, target: State) {
    var asked := Asked(ctx, r, target);
    asked.required != {} ==> ctx.gates.ready(r) && Shows(ctx.gates.valid(r, asked.minimum), asked.required)
  }

  /** The candidate and the artifact are exact, and a resolution without code has a problem that is not one of code. */
  predicate SubjectAllows(ctx: Context, r: Record, target: State) {
    && (target in CANDIDATE_TARGETS ==>
          !Blank(r.subject.headSha) && !Blank(r.subject.diffHash) && !Blank(Lookup(r.subject.material, ChangeContract)))
    && (target in ARTIFACT_TARGETS ==> !Blank(Lookup(r.subject.material, ArtifactDigest)))
    && (target == ResolvedNoCode ==> ctx.problem.Some? && ctx.problem.value.nonCode)
  }

  /** A case closes where its delivery ends, or from a rollback with signed evidence of the recovery. */
  predicate ClosureAllows(ctx: Context, r: Record) {
    if r.position.state == RollbackRequired then
      var asked := Asked(ctx, r, Unknown("ROLLBACK_CLOSURE"));
      ctx.gates.ready(r) && Shows(ctx.gates.signed(r, asked.minimum), asked.required)
    else LogicalCurrent(r.position) == (if PackageOnly(r) then ConsumerValidationPass else PostDeployVerified)
  }

  lemma ModelIs(r: Record)
    ensures Model(r) == PACKAGE_OR_PLUGIN <==> PackageOnly(r)
  {
  }

  lemma CandidateTargets(target: State)
    ensures NeedsCandidate(target) <==> target in CANDIDATE_TARGETS
    ensures NeedsArtifact(target) <==> target in ARTIFACT_TARGETS
  {
  }

  lemma ShowsKinds(found: seq<EvidenceRefs>, types: set<string>)
    ensures types <= Kinds(found) <==> Shows(found, types)
  {
  }

  lemma EarlyIff(ctx: Context, r: Record, target: State)
    requires target in ctx.policy.states
    ensures EarlyReasons(ctx, r, target) == [] && !HistoryLowers(r.risk.history, RequestedClass(ctx, r))
       <==> PolicyAllows(ctx, r, target) && RiskAllows(ctx, r)
  {
    ModelIs(r);
  }

  lemma EvidenceIff(ctx: Context, r: Record, target: State)
    ensures EvidenceReasons(ctx, r, target) == [] <==> EvidenceAllows(ctx, r, target)
    ensures RollbackProven(ctx, r) <==>
      var asked := Asked(ctx, r, Unknown("ROLLBACK_CLOSURE"));
      ctx.gates.ready(r) && Shows(ctx.gates.signed(r, asked.minimum), asked.required)
  {
    ShowsKinds(ValidEvidence(ctx, r, target), Asked(ctx, r, target).required);
    var asked := Asked(ctx, r, Unknown("ROLLBACK_CLOSURE"));
    ShowsKinds(ctx.gates.signed(r, asked.minimum), asked.required);
  }

  lemma LateIff(ctx: Context, r: Record, target: State)
    ensures LateReasons(ctx, r, target) == [] <==>
      && !ctx.gates.findings(r, target) && EvidenceAllows(ctx, r, target) && SubjectAllows(ctx, r, target)
      && (target == Closed ==> ClosureAllows(ctx, r))
  {
    ModelIs(r);
    CandidateTargets(target);
    EvidenceIff(ctx, r, target);
  }

  /** An evaluation allows a target exactly under these conditions. */
  lemma AllowedIff(ctx: Context, r: Record, target: State)
    ensures Evaluate(ctx, r, target).allowed <==>
      && !ctx.gates.schemaErrors(r) && !ctx.gates.findings(r, target)
      && PolicyAllows(ctx, r, target) && RiskAllows(ctx, r) && EvidenceAllows(ctx, r, target) && SubjectAllows(ctx, r, target)
      && (target == Closed ==> ClosureAllows(ctx, r))
  {
    if target in ctx.policy.states {
      EarlyIff(ctx, r, target);
      LateIff(ctx, r, target);
    }
  }

  /** So a case that was not rolled back closes at CONSUMER_VALIDATION_PASS for a package, and otherwise at
      POST_DEPLOY_VERIFIED, also out of a block. */
  lemma ClosesWhereDeliveryEnds(ctx: Context, r: Record)
    requires Evaluate(ctx, r, Closed).allowed && r.position.state != RollbackRequired
    ensures LogicalCurrent(r.position)
         == if Lookup(r.subject.material, DeliveryModel) == Some("PACKAGE_OR_PLUGIN") then ConsumerValidationPass else PostDeployVerified
  {
    AllowedIff(ctx, r, Closed);
  }

  /** What is not allowed is answered with a rollback exactly for a readable case that was exposed in production. */
  lemma RefusedDecision(ctx: Context, r: Record, target: State)
    requires !Evaluate(ctx, r, target).allowed
    ensures Evaluate(ctx, r, target).decision == RollbackDecision <==>
      && OrderAccepted(ctx.policy) && !ctx.gates.schemaErrors(r) && target in ctx.policy.states
      && LogicalCurrent(r.position) in {ProductionReleased, PostDeployVerified, RollbackRequired}
    ensures Evaluate(ctx, r, target).decision == RollbackDecision || Evaluate(ctx, r, target).decision == BlockedDecision
  {
  }
}
