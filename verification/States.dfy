/** The authoritative lifecycle: states, their tables and their order (lifecycle_store.py, bug_protocol.py). */
module States {

  /** `Unknown` holds any other name a caller may write in a state field. */
  datatype State =
    | UnverifiedReport | SourceOfTruthResolved | IssueClassified | BugReproduced
    | RootCauseProven | BlastRadiusMapped | ChangePlanned | PatchImplemented
    | RegressionTestProven | TargetedValidationPass | RegressionValidationPass
    | DiffForensicsPass | IndependentReviewPass | CiPass
    | StagingPass | ReadyForOwnerRelease | ProductionReleased | PostDeployVerified | Closed
    | PackageReleased | ReleaseArtifactVerified | ConsumerValidationPass
    | ResolvedNoCode | Blocked | RollbackRequired
    | Unknown(name: string)

  datatype Decision =
    | Initialized | Proceed | BlockedDecision | RollbackDecision
    | SubjectBound | ArtifactBound | SubjectMutationInvalidated
    | UnknownDecision(text: string)

  const COMMON_LIFECYCLE: seq<State> := [
    UnverifiedReport, SourceOfTruthResolved, IssueClassified, BugReproduced, RootCauseProven,
    BlastRadiusMapped, ChangePlanned, PatchImplemented, RegressionTestProven,
    TargetedValidationPass, RegressionValidationPass, DiffForensicsPass, IndependentReviewPass, CiPass]

  const CODE_LIFECYCLE: seq<State> := COMMON_LIFECYCLE + [
    StagingPass, ReadyForOwnerRelease, ProductionReleased, PostDeployVerified, Closed]

  const PACKAGE_OR_PLUGIN := "PACKAGE_OR_PLUGIN"
  const HOSTED_RUNTIME_SERVICE := "HOSTED_RUNTIME_SERVICE"
  const HYBRID := "HYBRID"

  /** Position in STATE_ORDER, or -1 for a state that is not in it. */
  function Order(s: State): int {
    match s
    case UnverifiedReport => 0
    case SourceOfTruthResolved => 1
    case IssueClassified => 2
    case BugReproduced => 3
    case RootCauseProven => 4
    case BlastRadiusMapped => 5
    case ChangePlanned => 6
    case PatchImplemented => 7
    case RegressionTestProven => 8
    case TargetedValidationPass => 9
    case RegressionValidationPass => 10
    case DiffForensicsPass => 11
    case IndependentReviewPass => 12
    case CiPass => 13
    case PackageReleased => 14
    case ReleaseArtifactVerified => 15
    case ConsumerValidationPass => 16
    case StagingPass => 17
    case ReadyForOwnerRelease => 18
    case ProductionReleased => 19
    case PostDeployVerified => 20
    case Closed => 21
    case _ => -1
  }

  predicate Ordered(s: State) { Order(s) >= 0 }

  predicate PackageState(s: State) {
    s == PackageReleased || s == ReleaseArtifactVerified || s == ConsumerValidationPass
  }

  predicate RuntimeState(s: State) {
    s == StagingPass || s == ReadyForOwnerRelease || s == ProductionReleased || s == PostDeployVerified
  }

  /** AUTHORITATIVE_STATES: the code lifecycle, the package states and RESOLVED_NO_CODE. */
  predicate Authoritative(s: State) {
    Ordered(s) || s == ResolvedNoCode
  }

  predicate Terminal(s: State) { s == Closed || s == ResolvedNoCode }

  predicate ProtectedState(s: State) {
    PackageState(s) || s == ReadyForOwnerRelease || s == ProductionReleased || s == PostDeployVerified
    || s == Closed || s == ResolvedNoCode || s == RollbackRequired
  }

  /** ALLOWED_TRANSITIONS, with the empty set for a name that is no key of it. */
  function AllowedTransitions(s: State): set<State> {
    match s
    case UnverifiedReport => {SourceOfTruthResolved}
    case SourceOfTruthResolved => {IssueClassified}
    case IssueClassified => {BugReproduced, ResolvedNoCode}
    case BugReproduced => {RootCauseProven}
    case RootCauseProven => {BlastRadiusMapped}
    case BlastRadiusMapped => {ChangePlanned}
    case ChangePlanned => {PatchImplemented}
    case PatchImplemented => {RegressionTestProven}
    case RegressionTestProven => {TargetedValidationPass}
    case TargetedValidationPass => {RegressionValidationPass}
    case RegressionValidationPass => {DiffForensicsPass}
    case DiffForensicsPass => {IndependentReviewPass}
    case IndependentReviewPass => {CiPass}
    case CiPass => {StagingPass, PackageReleased}
    case StagingPass => {ReadyForOwnerRelease}
    case ReadyForOwnerRelease => {ProductionReleased}
    case ProductionReleased => {PostDeployVerified, RollbackRequired}
    case PostDeployVerified => {Closed, RollbackRequired}
    case PackageReleased => {ReleaseArtifactVerified}
    case ReleaseArtifactVerified => {ConsumerValidationPass}
    case ConsumerValidationPass => {Closed, StagingPass}
    case RollbackRequired => {ChangePlanned, Closed}
    case _ => {}
  }

  predicate BindingDecision(d: Decision) {
    d == SubjectBound || d == ArtifactBound || d == SubjectMutationInvalidated
  }

  predicate TransitionDecision(d: Decision) {
    d == Proceed || d == BlockedDecision || d == RollbackDecision || BindingDecision(d)
  }

  /** A state a case may be in only after it entered every state up to CI_PASS. */
  predicate PastCommon(s: State) {
    Order(s) > Order(CiPass) || s == RollbackRequired
  }
}
