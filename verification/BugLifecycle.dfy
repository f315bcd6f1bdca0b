/** Evaluating, advancing and committing a bug lifecycle (bug_lifecycle.py). */
module BugLifecycle {
  import opened Basics
  import opened States
  import opened Records
  import opened Events
  import opened Guards
  import opened SubjectUpdates
  import opened LedgerSteps
  import opened PolicySafety
  import opened EvidenceGates

  datatype ProblemCase = ProblemCase(level: Option<RiskLevel>, cls: RiskClass, fingerprint: string, nonCode: bool)

  datatype EvidenceRefs = EvidenceRefs(kind: string, refs: seq<string>)

  /** The parts of the policy that say what evidence a target takes. */
  datatype GatePolicy = GatePolicy(gates: map<State, Gate>, profiles: map<string, DomainProfile>, keepsBreadth: bool,
                                   progressive: map<RiskClass, set<string>>)

  /** The gate policy, and the schema, metadata, profile and evidence checks that look at one record. `ready`: the
      subject of the record is complete and an evidence schema is given; `valid` and `invalid` sort the evidence
      at hand by a minimum trust; `signed` is what is valid where an authoritative signature is asked for. */
  datatype Gates = Gates(
    policy: GatePolicy,
    schemaErrors: Record -> bool,
    findings: (Record, State) -> bool,
    ready: Record -> bool,
    valid: (Record, nat) -> seq<EvidenceRefs>,
    signed: (Record, nat) -> seq<EvidenceRefs>,
    invalid: (Record, nat) -> set<string>)

  /** Everything an evaluation is given besides the record and the target. */
  datatype Context = Context(policy: Policy, gates: Gates, problem: Option<ProblemCase>)

  datatype Reason = UnsafePolicy | PackageRollback | NotAllowed | RiskDowngrade | HistoryLowered | GateFinding
    | SubjectIncomplete | MissingEvidence
    | CandidateIncomplete | ArtifactMissing | CodeClassification | ClosureTooEarly | RollbackUnproven

  datatype Verdict = Verdict(allowed: bool, decision: Decision, reasons: seq<Reason>,
                             required: set<string>, valid: seq<EvidenceRefs>, invalid: set<string>)

  /** _logical_current */
  function LogicalCurrent(p: Position): State {
    if p.state == Blocked then
      (if p.resume.Some? && p.resume.value != Unknown("") then p.resume.value
       else if p.lastCompleted.Some? then p.lastCompleted.value else Unknown("None"))
    else p.state
  }

  function Model(r: Record): string {
    if DeliveryModel in r.subject.material && r.subject.material[DeliveryModel] != "" then r.subject.material[DeliveryModel]
    else HOSTED_RUNTIME_SERVICE
  }

  function KnownClass(r: RiskProfile): RiskClass {
    if r.cls.Some? then r.cls.value else if r.level.Some? then ClassOf(r.level.value) else Low
  }

  predicate NeedsCandidate(target: State) {
    Order(target) >= Order(PatchImplemented)
  }

  predicate NeedsArtifact(target: State) {
    Order(target) >= Order(PackageReleased)
  }

  /** POST_PRODUCTION_STATES of bug_lifecycle.py, which leaves CLOSED out. */
  predicate ProductionExposed(s: State) {
    s == ProductionReleased || s == PostDeployVerified || s == RollbackRequired
  }

  predicate ClosureReady(r: Record) {
    r.position.state == RollbackRequired
    || LogicalCurrent(r.position) == (if Model(r) == PACKAGE_OR_PLUGIN then ConsumerValidationPass else PostDeployVerified)
  }

  function If(condition: bool, reason: Reason): seq<Reason> { if condition then [reason] else [] }

  /** The class an evaluation asks for. */
  function RequestedClass(ctx: Context, r: Record): RiskClass {
    if ctx.problem.Some? then ctx.problem.value.cls else KnownClass(r.risk)
  }

  /** The reasons found before the risk history is looked at. */
  function EarlyReasons(ctx: Context, r: Record, target: State): seq<Reason> {
    If(!Safe(ctx.policy), UnsafePolicy)
    + If(Model(r) == PACKAGE_OR_PLUGIN && (target == RollbackRequired || r.position.state == RollbackRequired), PackageRollback)
    + If(target !in ctx.policy.Exits(LogicalCurrent(r.position)), NotAllowed)
    + If(ClassOrder(RequestedClass(ctx, r)) < ClassOrder(KnownClass(r.risk)), RiskDowngrade)
  }

  predicate HistoryLowers(history: seq<RiskEntry>, requested: RiskClass) {
    exists i :: 0 <= i < |history| && history[i].cls.Some? && ClassOrder(history[i].cls.value) > ClassOrder(requested)
  }

  predicate LacksCandidate(r: Record) {
    Blank(r.subject.headSha) || Blank(r.subject.diffHash) || Blank(Lookup(r.subject.material, ChangeContract))
  }

  // ---- Evidence ----

  function LevelText(l: Option<RiskLevel>): string {
    match l
    case None => ""
    case Some(R0) => "R0" case Some(R1) => "R1" case Some(R2) => "R2" case Some(R3) => "R3" case Some(R4) => "R4"
    case Some(OtherRisk(t)) => t
  }

  function ClassText(c: RiskClass): string {
    match c
    case Low => "LOW" case Medium => "MEDIUM" case High => "HIGH" case Critical => "CRITICAL"
    case OtherClass(t) => t
  }

  function GateOf(gates: map<State, Gate>, target: State): Gate {
    if target in gates then gates[target] else Gate(GatePart(None, {}), map[], map[], map[])
  }

  predicate WideTarget(target: State) {
    target == TargetedValidationPass || target == RegressionValidationPass || RuntimeState(target)
  }

  predicate HotfixMode(r: Record) { "mode" in r.other && r.other["mode"] == "HOTFIX" }

  /** What _gate_requirements reads of a record. */
  function SituationOf(p: GatePolicy, r: Record, target: State): Situation {
    var cls := KnownClass(r.risk);
    Situation(
      Model(r), LevelText(r.risk.level), ClassText(cls), r.domains.Or(Some([])).value, p.profiles,
      WideTarget(target), HotfixMode(r) && p.keepsBreadth,
      !Blank(Lookup(r.subject.material, MergedMain)) && (RuntimeState(target) || PackageState(target) || target == Closed),
      PackageState(target) || target == Closed,
      if target == ReadyForOwnerRelease && (cls == High || cls == Critical) && cls in p.progressive then p.progressive[cls] else {})
  }

  /** _gate_requirements of a record and a target. */
  function Asked(ctx: Context, r: Record, target: State): Requirements {
    GateRequirements(GateOf(ctx.gates.policy.gates, target), SituationOf(ctx.gates.policy, r, target))
  }

  /** The evidence is looked at only where some is required and the subject is complete. */
  predicate Examined(ctx: Context, r: Record, target: State) { Asked(ctx, r, target).required != {} && ctx.gates.ready(r) }

  function ValidEvidence(ctx: Context, r: Record, target: State): seq<EvidenceRefs> {
    if Examined(ctx, r, target) then ctx.gates.valid(r, Asked(ctx, r, target).minimum) else []
  }

  function RejectedEvidence(ctx: Context, r: Record, target: State): set<string> {
    if Examined(ctx, r, target) then ctx.gates.invalid(r, Asked(ctx, r, target).minimum) else {}
  }

  function Kinds(found: seq<EvidenceRefs>): set<string> { set f | f in found && f.refs != [] :: f.kind }

  function EvidenceReasons(ctx: Context, r: Record, target: State): seq<Reason> {
    if Asked(ctx, r, target).required == {} then []
    else if !ctx.gates.ready(r) then [SubjectIncomplete]
    else If(!(Asked(ctx, r, target).required <= Kinds(ValidEvidence(ctx, r, target))), MissingEvidence)
  }

  /** The name under which the policy keeps the gate of closing after a rollback. */
  const ROLLBACK_CLOSURE := Unknown("ROLLBACK_CLOSURE")

  /** Closing after a rollback takes signed evidence of every type that gate asks for. */
  predicate RollbackProven(ctx: Context, r: Record) {
    ctx.gates.ready(r) && Asked(ctx, r, ROLLBACK_CLOSURE).required <= Kinds(ctx.gates.signed(r, Asked(ctx, r, ROLLBACK_CLOSURE).minimum))
  }

  /** The reasons of the gates and of the target state. */
  function LateReasons(ctx: Context, r: Record, target: State): seq<Reason> {
    If(ctx.gates.findings(r, target), GateFinding)
    + EvidenceReasons(ctx, r, target)
    + If(NeedsCandidate(target) && LacksCandidate(r), CandidateIncomplete)
    + If(NeedsArtifact(target) && Blank(Lookup(r.subject.material, ArtifactDigest)), ArtifactMissing)
    + If(target == ResolvedNoCode && (ctx.problem.None? || !ctx.problem.value.nonCode), CodeClassification)
    + If(target == Closed && !ClosureReady(r), ClosureTooEarly)
    + If(target == Closed && r.position.state == RollbackRequired && !RollbackProven(ctx, r), RollbackUnproven)
  }

  function ReasonsAgainst(ctx: Context, r: Record, target: State): seq<Reason> {
    EarlyReasons(ctx, r, target) + If(HistoryLowers(r.risk.history, RequestedClass(ctx, r)), HistoryLowered) + LateReasons(ctx, r, target)
  }

  /** evaluate_bug_transition */
  function Evaluate(ctx: Context, r: Record, target: State): Verdict {
    if !OrderAccepted(ctx.policy) || ctx.gates.schemaErrors(r) || target !in ctx.policy.states then
      Verdict(false, BlockedDecision, [NotAllowed], {}, [], {})
    else
      var reasons := ReasonsAgainst(ctx, r, target);
      var decision := if reasons == [] then Proceed
                      else if ProductionExposed(LogicalCurrent(r.position)) then RollbackDecision else BlockedDecision;
      Verdict(reasons == [], decision, reasons, Asked(ctx, r, target).required, ValidEvidence(ctx, r, target), RejectedEvidence(ctx, r, target))
  }

  function MergeRefs(refs: References, found: seq<EvidenceRefs>): References {
    if found == [] then refs
    else
      var rest := MergeRefs(refs, found[..|found| - 1]);
      var last := found[|found| - 1];
      rest[last.kind := (if last.kind in rest then rest[last.kind] else {}) + SetOf(last.refs)]
  }

  function AdvancedRisk(r: RiskProfile, problem: Option<ProblemCase>, target: State): RiskProfile {
    var raised := if problem.Some? && problem.value.level.Some? && ClassOrder(problem.value.cls) >= ClassOrder(KnownClass(r))
                  then r.(level := problem.value.level, cls := Some(problem.value.cls)) else r;
    raised.(history := raised.history + [RiskEntry(raised.level, raised.cls, target)])
  }

  function ClosureOf(r: Record, target: State): Option<string> {
    if target == Closed then
      Some(if r.position.state == RollbackRequired then "ROLLBACK_CLOSURE"
           else if Model(r) == PACKAGE_OR_PLUGIN then "PACKAGE_RELEASE" else "CODE_FIX")
    else if target == ResolvedNoCode then Some("RESOLVED_NO_CODE")
    else None
  }

  function StateOfDecision(d: Decision): State {
    if d == RollbackDecision then RollbackRequired else Blocked
  }

  /** advance_bug_lifecycle: the record the evaluation leads to, marked as a projection. */
  function Advance(ctx: Context, r: Record, target: State): Record {
    var verdict := Evaluate(ctx, r, target);
    var projected := r.(authority := Authority(false, None, None, None, None));
    if !verdict.allowed then
      projected.(position := r.position.(state := StateOfDecision(verdict.decision), resume := Some(LogicalCurrent(r.position)),
                                         blockedTarget := Some(target), blockers := ["see the verdict"], finalState := None))
    else
      projected.(
        position := Position(target, Some(target), None, None, [], if Terminal(target) then Some(target) else None, ClosureOf(r, target)),
        other := if ctx.problem.Some? then r.other["problem_case_fingerprint" := ctx.problem.value.fingerprint] else r.other,
        risk := AdvancedRisk(r.risk, ctx.problem, target),
        evidence := r.evidence.(current := MergeRefs(r.evidence.current, verdict.valid)))
  }

  function Flatten(found: seq<EvidenceRefs>): seq<string> {
    if found == [] then [] else Flatten(found[..|found| - 1]) + found[|found| - 1].refs
  }

  function Filter(records: seq<Evidence>, ids: set<string>): seq<Evidence> {
    if records == [] then []
    else
      var rest := Filter(records[..|records| - 1], ids);
      if records[|records| - 1].evidenceId in ids then rest + [records[|records| - 1]] else rest
  }

  /** One call of commit_bug_lifecycle_transition. */
  datatype CommitCall = CommitCall(
    ctx: Context, record: Record, target: State, expectedVersion: int, actor: Option<string>,
    evidence: seq<Evidence>, authorization: Option<Authorization>, now: string)

  /** The transition the call asks of the store. */
  function CommitRequest(call: CommitCall): Request {
    var verdict := Evaluate(call.ctx, call.record, call.target);
    var updated := Advance(call.ctx, call.record, call.target);
    var accepted := Flatten(verdict.valid);
    Request(call.record.caseId, updated, call.actor, call.expectedVersion, call.target,
            if call.target == RollbackRequired then RollbackDecision else if verdict.allowed then Proceed else verdict.decision,
            verdict.required, accepted, Filter(call.evidence, SetOf(accepted)), verdict.invalid,
            Lookup(call.record.subject.material, PolicyBundle), Lookup(call.record.subject.material, Toolchain),
            Some(RiskSnapshot(updated.risk.level, updated.risk.cls)), Some(updated.domains),
            None, call.authorization, call.now)
  }

  /** The staleness check: version and recorded hash must be those of the authoritative read. */
  predicate Current(row: CaseRow, call: CommitCall) {
    call.expectedVersion == row.version && call.record.authority.recordHash == Some(row.currentHash)
  }

  /** commit_bug_lifecycle_transition after its verified read. */
  function CommitOutcome(env: Environment, l: Ledger, call: CommitCall): Outcome {
    if call.record.caseId !in l.cases || !Current(l.cases[call.record.caseId], call) then Rejected(RuntimeError)
    else TransitionOutcome(env, l, CommitRequest(call))
  }

  // ---- Binding a subject ----

  /** One binding of a candidate or an artifact: a subject update, written under a binding decision. */
  datatype BindCall = BindCall(updates: Updates, reason: string, artifact: bool, actor: Option<string>, now: string)

  /** The fields bind_candidate sets, and those it clears. */
  function CandidateUpdates(r: Record, contract: string, head: string, diff: string, policyHash: string, toolchain: string,
                            artifact: Option<string>): (updates: Updates)
    ensures {ProtectedBase, PrHead, ReviewedDiff, MergedMain} <= updates.Keys && updates[MergedMain].None?
  {
    map[ChangeContract := Some(contract), ProtectedBase := OrText(Lookup(r.subject.material, ProtectedBase), r.subject.baseSha),
        PrHead := Some(head), ReviewedDiff := Some(diff), MergedMain := None, MergeMethod := None, MergeProvenance := None,
        PostMergeCiRun := None, PolicyBundle := Some(policyHash), Toolchain := Some(toolchain), ArtifactDigest := artifact,
        ReleaseFingerprint := None, SbomDigest := None, ProvenanceDigest := None, AttestationDigest := None,
        ProductionRelease := None, DeployedRevision := None, ArtifactIdentity := None]
  }

  function WithAliases(r: Record): Record {
    r.(subject := r.subject.(baseSha := Lookup(r.subject.material, ProtectedBase), headSha := Lookup(r.subject.material, PrHead),
                             diffHash := Lookup(r.subject.material, ReviewedDiff)))
  }

  /** bind_candidate: the update, and then the three legacy aliases once more. */
  function BindCandidate(env: Environment, r: Record, contract: string, head: string, diff: string, policyHash: string,
                         toolchain: string, artifact: Option<string>, now: string): Result<Record>
  {
    var updates := CandidateUpdates(r, contract, head, diff, policyHash, toolchain, artifact);
    match ApplySubjectUpdate(env, r, updates, "candidate_subject_bound", now)
    case Err(f) => Err(f)
    case Ok(updated) => Ok(WithAliases(updated))
  }

  lemma UpdatedAliases(env: Environment, r: Record, updates: Updates, reason: string, now: string)
    requires ApplySubjectUpdate(env, r, updates, reason, now).Ok?
    requires {ProtectedBase, PrHead, ReviewedDiff, MergedMain} <= updates.Keys && updates[MergedMain].None?
    ensures WithAliases(ApplySubjectUpdate(env, r, updates, reason, now).value) == ApplySubjectUpdate(env, r, updates, reason, now).value
  {
    UpdateKeepsFields(env, r, updates, reason, now);
    AliasesInPlace(r, updates);
  }

  lemma UpdateKeepsFields(env: Environment, r: Record, updates: Updates, reason: string, now: string)
    requires ApplySubjectUpdate(env, r, updates, reason, now).Ok?
    ensures var s := ApplySubjectUpdate(env, r, updates, reason, now).value.subject; var w := WithUpdates(r, updates).subject;
      s.material == w.material && s.baseSha == w.baseSha && s.headSha == w.headSha && s.diffHash == w.diffHash
  {
    if MaterialChanges(SubjectOf(r), SubjectOf(WithUpdates(r, updates))) == {} {
    } else {
    }
  }

  lemma AliasesInPlace(r: Record, updates: Updates)
    requires {ProtectedBase, PrHead, ReviewedDiff, MergedMain} <= updates.Keys && updates[MergedMain].None?
    ensures WithAliases(WithUpdates(r, updates)) == WithUpdates(r, updates)
  {
    assert ProtectedBase in updates.Keys && PrHead in updates.Keys && ReviewedDiff in updates.Keys && MergedMain in updates.Keys;
  }

  /** The aliases are already in place: bind_candidate is a subject update and nothing else. */
  lemma BindCandidateIsUpdate(env: Environment, r: Record, contract: string, head: string, diff: string, policyHash: string,
                              toolchain: string, artifact: Option<string>, now: string)
    ensures var updates := CandidateUpdates(r, contract, head, diff, policyHash, toolchain, artifact);
      BindCandidate(env, r, contract, head, diff, policyHash, toolchain, artifact, now)
        == ApplySubjectUpdate(env, r, updates, "candidate_subject_bound", now)
  {
    var updates := CandidateUpdates(r, contract, head, diff, policyHash, toolchain, artifact);
    if ApplySubjectUpdate(env, r, updates, "candidate_subject_bound", now).Ok? {
      UpdatedAliases(env, r, updates, "candidate_subject_bound", now);
    }
  }

  /** The transition a binding asks of the store; its version is that of the record it was computed from. */
  function BindRequest(env: Environment, view: Record, bind: BindCall): Result<Request> {
    if view.authority.version.None? then Err(KeyError)
    else
      match ApplySubjectUpdate(env, view, bind.updates, bind.reason, bind.now)
      case Err(f) => Err(f)
      case Ok(updated) =>
        Ok(MutationRequest(updated, view.caseId, bind.actor, view.authority.version.value, bind.now)
             .(decision := if bind.artifact then ArtifactBound else SubjectBound))
  }

  function BindOutcome(env: Environment, l: Ledger, view: Record, bind: BindCall): Outcome {
    match BindRequest(env, view, bind)
    case Err(f) => Rejected(f)
    case Ok(req) => TransitionOutcome(env, l, req)
  }
}
