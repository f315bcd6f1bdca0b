/** Which policies are safe, exit by exit; and that there is one. */
module PolicyRules {
  import opened States
  import opened PolicySafety

  /** The states of a policy that may be left, other than by a block. */
  const LEFT: set<State> := {
    UnverifiedReport, SourceOfTruthResolved, IssueClassified, BugReproduced, RootCauseProven, BlastRadiusMapped, ChangePlanned,
    PatchImplemented, RegressionTestProven, TargetedValidationPass, RegressionValidationPass, DiffForensicsPass, IndependentReviewPass,
    CiPass, StagingPass, ReadyForOwnerRelease, ProductionReleased, PostDeployVerified,
    PackageReleased, ReleaseArtifactVerified, ConsumerValidationPass}

  /** The exits a policy must give such a state ... */
  function Must(s: State): set<State> {
    match s
    case UnverifiedReport => {SourceOfTruthResolved}
    case SourceOfTruthResolved => {IssueClassified}
    case IssueClassified => {BugReproduced, ResolvedNoCode}
    case BugReproduced => {RootCauseProven}
    case RootCauseProven => {BlastRadiusMapped}
    case BlastRadiusMapped => {ChangePlanned}
    case ChangePlanned => {PatchImplemented}
    case PatchImplemented => {RegressionTestProven}
    case RegressionTestProven => {TargetedValidationPass}
    case TargetedValidationPass => {RegressionValidationPass}
    case RegressionValidationPass => {DiffForensicsPass}
    case DiffForensicsPass => {IndependentReviewPass}
    case IndependentReviewPass => {CiPass}
    case CiPass => {StagingPass, PackageReleased}
    case StagingPass => {ReadyForOwnerRelease}
    case ReadyForOwnerRelease => {ProductionReleased}
    case ProductionReleased => {PostDeployVerified}
    case PostDeployVerified => {Closed}
    case PackageReleased => {ReleaseArtifactVerified}
    case ReleaseArtifactVerified => {ConsumerValidationPass}
    case ConsumerValidationPass => {Closed}
    case _ => {}
  }

  /** ... and those it may give it besides: a block, a rollback after production, and staging after the package. */
  function May(s: State): set<State> {
    if s == ProductionReleased || s == PostDeployVerified then {Blocked, RollbackRequired}
    else if s == ConsumerValidationPass then {Blocked, StagingPass}
    else {Blocked}
  }

  predicate ExitsFit(p: Policy, s: State) { Must(s) <= p.Exits(s) <= Must(s) + May(s) }

  const PACKAGE_WAY: seq<State> := [
    UnverifiedReport, SourceOfTruthResolved, IssueClassified, BugReproduced, RootCauseProven, BlastRadiusMapped, ChangePlanned,
    PatchImplemented, RegressionTestProven, TargetedValidationPass, RegressionValidationPass, DiffForensicsPass, IndependentReviewPass,
    CiPass, PackageReleased, ReleaseArtifactVerified, ConsumerValidationPass, Closed]

  const HOSTED_WAY: seq<State> := [
    UnverifiedReport, SourceOfTruthResolved, IssueClassified, BugReproduced, RootCauseProven, BlastRadiusMapped, ChangePlanned,
    PatchImplemented, RegressionTestProven, TargetedValidationPass, RegressionValidationPass, DiffForensicsPass, IndependentReviewPass,
    CiPass, StagingPass, ReadyForOwnerRelease, ProductionReleased, PostDeployVerified, Closed]

  const HYBRID_WAY: seq<State> := [
    UnverifiedReport, SourceOfTruthResolved, IssueClassified, BugReproduced, RootCauseProven, BlastRadiusMapped, ChangePlanned,
    PatchImplemented, RegressionTestProven, TargetedValidationPass, RegressionValidationPass, DiffForensicsPass, IndependentReviewPass,
    CiPass, PackageReleased, ReleaseArtifactVerified, ConsumerValidationPass,
    StagingPass, ReadyForOwnerRelease, ProductionReleased, PostDeployVerified, Closed]

  predicate WaysFit(lifecycles: map<string, seq<State>>) {
    && "PACKAGE_OR_PLUGIN" in lifecycles && lifecycles["PACKAGE_OR_PLUGIN"] == PACKAGE_WAY
    && "HOSTED_RUNTIME_SERVICE" in lifecycles && lifecycles["HOSTED_RUNTIME_SERVICE"] == HOSTED_WAY
    && "HYBRID" in lifecycles && lifecycles["HYBRID"] == HYBRID_WAY
  }

  predicate StatesFit(states: seq<State>) {
    && HOSTED_WAY <= states
    && {PackageReleased, ReleaseArtifactVerified, ConsumerValidationPass, Blocked, RollbackRequired, ResolvedNoCode} <= set s | s in states
  }

  /** A package takes no part of the release lane and no rollback, and all of its own way. */
  predicate ForbidsFit(forbidden: set<State>) {
    && {StagingPass, ProductionReleased, PostDeployVerified, RollbackRequired} <= forbidden
    && forall s :: s in PACKAGE_WAY ==> s !in forbidden
  }

  /** Every state has the exits it must have and none it may not; CLOSED has none and a rollback may be closed; and the ways of
      delivery are the three there are. */
  ghost predicate Fits(p: Policy) {
    && StatesFit(p.states) && AllExitsFit(p) && p.Exits(Closed) == {} && Closed in p.Exits(RollbackRequired)
    && WaysFit(p.lifecycles) && ForbidsFit(p.packageForbidden) && p.otherFindings == []
  }

  lemma WaysAre()
    ensures CODE_LIFECYCLE == HOSTED_WAY && DELIVERY_LIFECYCLES[PACKAGE_OR_PLUGIN] == PACKAGE_WAY
    ensures DELIVERY_LIFECYCLES[HYBRID] == HYBRID_WAY && DELIVERY_LIFECYCLES[HOSTED_RUNTIME_SERVICE] == HOSTED_WAY
  {
    assert CODE_LIFECYCLE[|COMMON_LIFECYCLE|..] == [StagingPass, ReadyForOwnerRelease, ProductionReleased, PostDeployVerified, Closed];
  }

  lemma WaysIff(p: Policy)
    ensures CanonicalDelivery(p) <==> WaysFit(p.lifecycles) && ForbidsFit(p.packageForbidden)
  {
    WaysAre();
  }

  /** The exits the validators name for the i-th state of the code lifecycle. */
  predicate CodeExits(p: Policy, i: nat)
    requires i < |CODE_LIFECYCLE| - 1
  {
    CODE_LIFECYCLE[i + 1] in p.Exits(CODE_LIFECYCLE[i]) && p.Exits(CODE_LIFECYCLE[i]) <= ExpectedExits(i)
  }

  lemma CodeTables(i: nat)
    requires i < |CODE_LIFECYCLE| - 1
    ensures var s := CODE_LIFECYCLE[i];
      && ExpectedExits(i) == Must(s) + May(s)
      && Must(s) == {CODE_LIFECYCLE[i + 1]} + (if s == IssueClassified then {ResolvedNoCode} else if s == CiPass then {PackageReleased} else {})
  {
  }

  lemma CodeExitsIff(p: Policy, i: nat)
    requires i < |CODE_LIFECYCLE| - 1
    requires CODE_LIFECYCLE[i] == IssueClassified ==> ResolvedNoCode in p.Exits(CODE_LIFECYCLE[i])
    requires CODE_LIFECYCLE[i] == CiPass ==> PackageReleased in p.Exits(CODE_LIFECYCLE[i])
    ensures CodeExits(p, i) <==> ExitsFit(p, CODE_LIFECYCLE[i])
  {
    CodeTables(i);
  }

  lemma PackageExitsIff(p: Policy, i: nat)
    requires i < |PACKAGE_STATES|
    ensures (PackageExitsOk(p, i) && Must(PACKAGE_STATES[i]) <= p.Exits(PACKAGE_STATES[i])) <==> ExitsFit(p, PACKAGE_STATES[i])
  {
  }

  lemma ListedLeft(i: nat)
    ensures i < |CODE_LIFECYCLE| - 1 ==> CODE_LIFECYCLE[i] in LEFT
    ensures i < |PACKAGE_STATES| ==> PACKAGE_STATES[i] in LEFT
  {
  }

  lemma SafeCodeExits(p: Policy, i: nat)
    requires Safe(p) && i < |CODE_LIFECYCLE| - 1
    ensures ExitsFit(p, CODE_LIFECYCLE[i])
  {
    CodeExitsIff(p, i);
  }

  lemma PackageEdges(p: Policy, i: nat)
    requires RetainsPackageEdges(p) && i < |PACKAGE_STATES|
    ensures Must(PACKAGE_STATES[i]) <= p.Exits(PACKAGE_STATES[i])
  {
    var s := PACKAGE_STATES[i];
    assert s == PackageReleased || s == ReleaseArtifactVerified || s == ConsumerValidationPass;
  }

  lemma SafePackageExits(p: Policy, i: nat)
    requires RetainsPackageEdges(p) && i < |PACKAGE_STATES| && PackageExitsOk(p, i)
    ensures ExitsFit(p, PACKAGE_STATES[i])
  {
    PackageEdges(p, i);
    PackageExitsIff(p, i);
  }

  lemma LeftIs(s: State)
    ensures s in LEFT <==> Ordered(s) && s != Closed
  {
  }

  lemma SafeHasExits(p: Policy, s: State)
    requires Safe(p) && s in LEFT
    ensures ExitsFit(p, s)
  {
    LeftIs(s);
    if PackageState(s) {
      var i := PackagePosition(s);
      assert PackageExitsOk(p, i);
      SafePackageExits(p, i);
    } else {
      var i := CodePosition(s);
      SafeCodeExits(p, i);
    }
  }

  ghost predicate AllExitsFit(p: Policy) { forall s :: s in LEFT ==> ExitsFit(p, s) }

  lemma FittingCodeExits(p: Policy, i: nat)
    requires AllExitsFit(p) && i < |CODE_LIFECYCLE| - 1
    ensures CodeExits(p, i)
  {
    ListedLeft(i);
    var s := CODE_LIFECYCLE[i];
    assert ExitsFit(p, s);
    CodeTables(i);
  }

  lemma FittingPackageExits(p: Policy, i: nat)
    requires AllExitsFit(p) && i < |PACKAGE_STATES|
    ensures PackageExitsOk(p, i)
  {
    ListedLeft(i);
    var s := PACKAGE_STATES[i];
    assert ExitsFit(p, s);
    PackageExitsIff(p, i);
  }

  lemma FitsSkipsNothing(p: Policy)
    requires AllExitsFit(p)
    ensures SkipFree(p) && forall i :: 0 <= i < |CODE_LIFECYCLE| - 1 ==> CODE_LIFECYCLE[i + 1] in p.Exits(CODE_LIFECYCLE[i])
  {
    forall i | 0 <= i < |CODE_LIFECYCLE| - 1
      ensures CODE_LIFECYCLE[i + 1] in p.Exits(CODE_LIFECYCLE[i]) && p.Exits(CODE_LIFECYCLE[i]) <= ExpectedExits(i)
    {
      FittingCodeExits(p, i);
    }
    forall i | 0 <= i < |PACKAGE_STATES| ensures PackageExitsOk(p, i) {
      FittingPackageExits(p, i);
    }
  }

  lemma FitsHasEdge(p: Policy, s: State, next: State)
    requires AllExitsFit(p) && Ordered(s) && s != Closed && next in Must(s)
    ensures next in p.Exits(s)
  {
    LeftIs(s);
    assert ExitsFit(p, s);
  }

  lemma FitsHasEdges(p: Policy)
    requires forall s, next :: Ordered(s) && s != Closed && next in Must(s) ==> next in p.Exits(s)
    ensures PackageReleased in p.Exits(CiPass) && ReleaseArtifactVerified in p.Exits(PackageReleased)
         && ConsumerValidationPass in p.Exits(ReleaseArtifactVerified) && Closed in p.Exits(ConsumerValidationPass)
         && ResolvedNoCode in p.Exits(IssueClassified)
  {
  }

  lemma StatesIff(p: Policy)
    ensures DeclaresStates(p) && (forall s :: s in PACKAGE_STATES ==> s in p.states) <==>
      {PackageReleased, ReleaseArtifactVerified, ConsumerValidationPass, Blocked, RollbackRequired, ResolvedNoCode} <= set s | s in p.states
  {
    assert PackageReleased in PACKAGE_STATES && ReleaseArtifactVerified in PACKAGE_STATES && ConsumerValidationPass in PACKAGE_STATES;
  }

  lemma SafeFits(p: Policy)
    requires Safe(p)
    ensures Fits(p)
  {
    WaysAre();
    WaysIff(p);
    StatesIff(p);
    forall s | s in LEFT ensures ExitsFit(p, s) {
      SafeHasExits(p, s);
    }
  }

  lemma FitsSafe(p: Policy)
    requires Fits(p)
    ensures Safe(p)
  {
    WaysAre();
    WaysIff(p);
    StatesIff(p);
    FitsSkipsNothing(p);
    forall s, next | Ordered(s) && s != Closed && next in Must(s) ensures next in p.Exits(s) {
      FitsHasEdge(p, s, next);
    }
    FitsHasEdges(p);
  }

  /** validate_policy_safety reports no error exactly for these policies. */
  lemma SafeIff(p: Policy)
    ensures Safe(p) <==> Fits(p)
  {
    if Safe(p) { SafeFits(p); }
    if Fits(p) { FitsSafe(p); }
  }

  /** A policy with just the exits there must be. */
  const OTHER_STATES: seq<State> := [PackageReleased, ReleaseArtifactVerified, ConsumerValidationPass, Blocked, RollbackRequired, ResolvedNoCode]

  const LEAST_EXITS: map<State, set<State>> := (map s | s in LEFT :: Must(s)) + map[RollbackRequired := {Closed}]

  const LEAST_WAYS: map<string, seq<State>> :=
    map["PACKAGE_OR_PLUGIN" := PACKAGE_WAY, "HOSTED_RUNTIME_SERVICE" := HOSTED_WAY, "HYBRID" := HYBRID_WAY]

  const LEAST := Policy(HOSTED_WAY + OTHER_STATES, LEAST_EXITS, LEAST_WAYS,
                        {StagingPass, ProductionReleased, PostDeployVerified, RollbackRequired}, [])

  lemma LeastExits(s: State)
    requires s in LEFT
    ensures s in LEAST_EXITS && LEAST_EXITS[s] == Must(s)
  {
    LeftIs(s);
  }

  lemma LeastEnds()
    ensures Closed !in LEAST_EXITS && RollbackRequired in LEAST_EXITS && LEAST_EXITS[RollbackRequired] == {Closed}
  {
    LeftIs(Closed);
  }

  lemma LeastStates(s: State)
    requires s in OTHER_STATES
    ensures s in HOSTED_WAY + OTHER_STATES
  {
  }

  lemma LeastExitsFit(p: Policy)
    requires p.transitions == LEAST_EXITS
    ensures AllExitsFit(p)
  {
    forall s | s in LEFT ensures ExitsFit(p, s) {
      LeastExits(s);
    }
  }

  lemma LeastWaysFit()
    ensures WaysFit(LEAST_WAYS)
  {
  }

  lemma LeastForbids()
    ensures ForbidsFit({StagingPass, ProductionReleased, PostDeployVerified, RollbackRequired})
  {
  }

  lemma LeastDeclares(states: seq<State>)
    requires states == HOSTED_WAY + OTHER_STATES
    ensures StatesFit(states)
  {
    forall s | s in OTHER_STATES ensures s in states {
      LeastStates(s);
    }
    OtherStates(states);
  }

  lemma LeastFits(p: Policy)
    requires p.states == HOSTED_WAY + OTHER_STATES && p.transitions == LEAST_EXITS && p.lifecycles == LEAST_WAYS
    requires p.packageForbidden == {StagingPass, ProductionReleased, PostDeployVerified, RollbackRequired} && p.otherFindings == []
    ensures Fits(p)
  {
    LeastExitsFit(p);
    LeastEnds();
    LeastWaysFit();
    LeastDeclares(p.states);
    LeastForbids();
  }

  lemma OtherStates(states: seq<State>)
    requires forall s :: s in OTHER_STATES ==> s in states
    ensures {PackageReleased, ReleaseArtifactVerified, ConsumerValidationPass, Blocked, RollbackRequired, ResolvedNoCode} <= set s | s in states
  {
    var found := set s | s in states;
    forall s | s in {PackageReleased, ReleaseArtifactVerified, ConsumerValidationPass, Blocked, RollbackRequired, ResolvedNoCode}
      ensures s in found
    {
      assert s in OTHER_STATES;
    }
  }

  lemma LeastIsSafe()
    ensures Safe(LEAST)
  {
    LeastFits(LEAST);
    FitsSafe(LEAST);
  }
}
