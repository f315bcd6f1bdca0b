/** What the committer and the binding commands ask of the store, field by field. */
module ProposalRules {
  import opened Basics
  import opened States
  import opened Records
  import opened Events
  import opened Guards
  import opened SubjectUpdates
  import opened LedgerSteps
  import opened PolicySafety
  import opened BugLifecycle
  import opened EvaluationRules
  import opened EvidenceTrail
  import opened SubjectRules

  // ---- The record an evaluation leads to ----

  /** The class a case is known by: the one it states, or the one of its level. */
  predicate KnownBy(risk: RiskProfile, c: RiskClass) {
    if risk.cls.Some? then c == risk.cls.value
    else match risk.level
      case None => c == Low
      case Some(R0) => c == Low
      case Some(R1) => c == Low
      case Some(R2) => c == Medium
      case Some(R3) => c == High
      case Some(R4) => c == Critical
      case Some(OtherRisk(t)) => c == OtherClass(t)
  }

  /** The classes not above this one. */
  predicate NotAbove(a: RiskClass, b: RiskClass) {
    match a
    case OtherClass(_) => true
    case Low => !b.OtherClass?
    case Medium => b == Medium || b == High || b == Critical
    case High => b == High || b == Critical
    case Critical => b == Critical
  }

  lemma ClassesOrdered(a: RiskClass, b: RiskClass)
    ensures ClassOrder(a) <= ClassOrder(b) <==> NotAbove(a, b)
  {
  }

  lemma KnownIs(risk: RiskProfile)
    ensures KnownBy(risk, KnownClass(risk))
  {
  }

  /** The risk after an allowed step: that of the problem case where it states a level and its class is not lower, and one
      more entry of the history in either case. */
  predicate RiskAdvanced(before: RiskProfile, problem: Option<ProblemCase>, target: State, after: RiskProfile) {
    var taken := problem.Some? && problem.value.level.Some? && NotAbove(KnownClass(before), problem.value.cls);
    && after.level == (if taken then problem.value.level else before.level)
    && after.cls == (if taken then Some(problem.value.cls) else before.cls)
    && after.history == before.history + [RiskEntry(after.level, after.cls, target)]
  }

  /** The position after an allowed step: the state it enters, and for a closing one how the case ends. */
  predicate Entered(r: Record, target: State, p: Position) {
    && p.state == target && p.lastCompleted == Some(target) && p.resume == None && p.blockedTarget == None && p.blockers == []
    && (target == Closed ==> p.finalState == Some(Closed) && p.closureClass == Some(
          if r.position.state == RollbackRequired then "ROLLBACK_CLOSURE" else if PackageOnly(r) then "PACKAGE_RELEASE" else "CODE_FIX"))
    && (target == ResolvedNoCode ==> p.finalState == Some(ResolvedNoCode) && p.closureClass == Some("RESOLVED_NO_CODE"))
    && (target != Closed && target != ResolvedNoCode ==> p.finalState == None && p.closureClass == None)
  }

  /** The position after a refused step: a block or a rollback that resumes where the case stood. */
  predicate Halted(r: Record, target: State, rollback: bool, p: Position) {
    && p.state == (if rollback then RollbackRequired else Blocked) && p.resume == Some(LogicalCurrent(r.position))
    && p.blockedTarget == Some(target) && p.blockers != [] && p.finalState == None
    && p.lastCompleted == r.position.lastCompleted && p.closureClass == r.position.closureClass
  }

  /** The record after a step: a projection without authority, and only the listed fields of it new. */
  ghost predicate Stepped(ctx: Context, r: Record, target: State, next: Record) {
    var verdict := Evaluate(ctx, r, target);
    && next.authority == Authority(false, None, None, None, None)
    && next.caseId == r.caseId && next.domains == r.domains && next.subject == r.subject && next.scheduling == r.scheduling
    && next.evidence.historical == r.evidence.historical
    && if verdict.allowed then
         && Entered(r, target, next.position) && RiskAdvanced(r.risk, ctx.problem, target, next.risk)
         && (forall t :: Held(next.evidence.current, t) == Held(r.evidence.current, t) + Found(verdict.valid, t))
         && next.other == (if ctx.problem.Some? then r.other["problem_case_fingerprint" := ctx.problem.value.fingerprint] else r.other)
       else
         && Halted(r, target, verdict.decision == RollbackDecision, next.position)
         && next.risk == r.risk && next.evidence == r.evidence && next.other == r.other
  }

  lemma EnteredIs(r: Record, target: State)
    ensures Entered(r, target, Position(target, Some(target), None, None, [], if Terminal(target) then Some(target) else None, ClosureOf(r, target)))
  {
    ModelIs(r);
  }

  lemma RiskIs(before: RiskProfile, problem: Option<ProblemCase>, target: State)
    ensures RiskAdvanced(before, problem, target, AdvancedRisk(before, problem, target))
  {
    if problem.Some? { ClassesOrdered(KnownClass(before), problem.value.cls); }
  }

  /** advance_bug_lifecycle */
  lemma AdvanceSteps(ctx: Context, r: Record, target: State)
    ensures Stepped(ctx, r, target, Advance(ctx, r, target))
  {
    EnteredIs(r, target);
    RiskIs(r.risk, ctx.problem, target);
    forall t ensures Held(MergeRefs(r.evidence.current, Evaluate(ctx, r, target).valid), t)
                  == Held(r.evidence.current, t) + Found(Evaluate(ctx, r, target).valid, t)
    {
      MergedHolds(r.evidence.current, Evaluate(ctx, r, target).valid, t);
    }
  }

  // ---- The request of a commit ----

  /** What the verdict says of the evidence: nothing where the policy, the record or the target cannot be read. */
  predicate ReportsEvidence(ctx: Context, r: Record, target: State, v: Verdict) {
    var asked := Asked(ctx, r, target);
    if !OrderAccepted(ctx.policy) || ctx.gates.schemaErrors(r) || target !in ctx.policy.states then
      v.required == {} && v.valid == [] && v.invalid == {}
    else
      && v.required == asked.required
      && v.valid == (if asked.required != {} && ctx.gates.ready(r) then ctx.gates.valid(r, asked.minimum) else [])
      && v.invalid == (if asked.required != {} && ctx.gates.ready(r) then ctx.gates.invalid(r, asked.minimum) else {})
  }

  lemma {:induction false} Flattened(found: seq<EvidenceRefs>, id: string)
    ensures id in Flatten(found) <==> exists f :: f in found && id in f.refs
  {
    if found != [] {
      var n := |found| - 1;
      assert found == found[..n] + [found[n]];
      Flattened(found[..n], id);
    }
  }

  lemma {:induction false} Filtered(records: seq<Evidence>, ids: set<string>, r: Evidence)
    ensures multiset(Filter(records, ids))[r] == if r.evidenceId in ids then multiset(records)[r] else 0
  {
    if records != [] {
      var n := |records| - 1;
      assert records == records[..n] + [records[n]];
      Filtered(records[..n], ids, r);
    }
  }

  /** The commit asks for its target with the record it stepped to: PROCEED where it is allowed, a rollback where one is asked
      for, and otherwise what the evaluation decided. It accepts every reference found valid, and offers the records of just
      those. */
  ghost predicate AsksFor(call: CommitCall, req: Request) {
    var verdict := Evaluate(call.ctx, call.record, call.target); var material := call.record.subject.material;
    && req.caseId == call.record.caseId && req.actor == call.actor && req.expectedVersion == call.expectedVersion
    && req.requested == call.target && req.key == None && req.authorization == call.authorization && req.now == call.now
    && req.decision == (if call.target == RollbackRequired then RollbackDecision else if verdict.allowed then Proceed else verdict.decision)
    && req.required == verdict.required && req.rejected == verdict.invalid
    && (forall id :: id in req.accepted <==> exists f :: f in verdict.valid && id in f.refs)
    && (forall r :: multiset(req.records)[r] == if r.evidenceId in req.accepted then multiset(call.evidence)[r] else 0)
    && req.policyHash == Lookup(material, PolicyBundle) && req.toolchainHash == Lookup(material, Toolchain)
    && req.risk == Some(RiskSnapshot(req.state.risk.level, req.state.risk.cls)) && req.domains == Some(call.record.domains)
  }

  lemma VerdictParts(ctx: Context, r: Record, target: State)
    requires OrderAccepted(ctx.policy) && !ctx.gates.schemaErrors(r) && target in ctx.policy.states
    ensures var v := Evaluate(ctx, r, target);
      && v.required == Asked(ctx, r, target).required && v.valid == ValidEvidence(ctx, r, target) && v.invalid == RejectedEvidence(ctx, r, target)
  {
  }

  lemma EvidenceParts(ctx: Context, r: Record, target: State)
    ensures var asked := Asked(ctx, r, target);
      && ValidEvidence(ctx, r, target) == (if asked.required != {} && ctx.gates.ready(r) then ctx.gates.valid(r, asked.minimum) else [])
      && RejectedEvidence(ctx, r, target) == (if asked.required != {} && ctx.gates.ready(r) then ctx.gates.invalid(r, asked.minimum) else {})
  {
  }

  lemma VerdictReports(ctx: Context, r: Record, target: State)
    ensures ReportsEvidence(ctx, r, target, Evaluate(ctx, r, target))
  {
    if OrderAccepted(ctx.policy) && !ctx.gates.schemaErrors(r) && target in ctx.policy.states {
      VerdictParts(ctx, r, target);
      EvidenceParts(ctx, r, target);
    }
  }

  /** commit_bug_lifecycle_transition */
  lemma CommitAsks(call: CommitCall)
    ensures AsksFor(call, CommitRequest(call)) && Stepped(call.ctx, call.record, call.target, CommitRequest(call).state)
  {
    var req := CommitRequest(call);
    AdvanceSteps(call.ctx, call.record, call.target);
    forall id ensures id in req.accepted <==> exists f :: f in Evaluate(call.ctx, call.record, call.target).valid && id in f.refs {
      Flattened(Evaluate(call.ctx, call.record, call.target).valid, id);
    }
    forall r ensures multiset(req.records)[r] == if r.evidenceId in req.accepted then multiset(call.evidence)[r] else 0 {
      Filtered(call.evidence, SetOf(req.accepted), r);
    }
  }

  // ---- The requests that change a subject ----

  /** The request writes this record under the decision: it requires and accepts no evidence, names the archived types as
      rejected and what the record was blocked on, if anything, as requested, and brings no key and no authorization. */
  ghost predicate AsksToBind(req: Request, updated: Record, caseId: string, actor: Option<string>, version: int, decision: Decision, now: string) {
    && req.caseId == caseId && req.state == updated && req.actor == actor && req.expectedVersion == version && req.now == now
    && req.requested == (if updated.position.blockedTarget.Some? then updated.position.blockedTarget.value else updated.position.state)
    && req.decision == decision && req.required == {} && req.accepted == [] && req.records == []
    && (forall t :: t in req.rejected <==> t in updated.evidence.historical)
    && req.policyHash == Lookup(updated.subject.material, PolicyBundle) && req.toolchainHash == Lookup(updated.subject.material, Toolchain)
    && req.risk == None && req.domains == None && req.key == None && req.authorization == None
  }

  /** mutate_subject asks for an invalidation. */
  lemma MutationAsks(r: Record, caseId: string, actor: Option<string>, version: int, now: string)
    ensures AsksToBind(MutationRequest(r, caseId, actor, version, now), r, caseId, actor, version, SubjectMutationInvalidated, now)
  {
  }

  /** A binding of a view asks for the view's own case and version, as a subject or as an artifact; it fails without a version,
      and on a subject that is not valid. */
  lemma BindingAsks(env: Environment, view: Record, bind: BindCall)
    ensures BindRequest(env, view, bind).Ok? <==> view.authority.version.Some? && env.subjectValid(SubjectOf(WithUpdates(view, bind.updates)))
    ensures BindRequest(env, view, bind).Err? ==>
      BindRequest(env, view, bind).failure == if view.authority.version.None? then KeyError else ValueError
    ensures BindRequest(env, view, bind).Ok? ==>
      AsksToBind(BindRequest(env, view, bind).value, ApplySubjectUpdate(env, view, bind.updates, bind.reason, bind.now).value, view.caseId,
                 bind.actor, view.authority.version.value, if bind.artifact then ArtifactBound else SubjectBound, bind.now)
  {
  }

  /** What binding a candidate makes of each field: the candidate's own are set, whatever was merged, built, released or
      deployed of an earlier one is cleared, and what the case delivers, and of which repository, stays. */
  predicate CandidateField(r: Record, f: MaterialField, contract: string, head: string, diff: string, policyHash: string,
                           toolchain: string, artifact: Option<string>, value: Option<string>)
  {
    match f
    case ChangeContract => value == Some(contract)
    case PrHead => value == Some(head)
    case ReviewedDiff => value == Some(diff)
    case PolicyBundle => value == Some(policyHash)
    case Toolchain => value == Some(toolchain)
    case ArtifactDigest => value == artifact
    case ProtectedBase =>
      value == if !Blank(Lookup(r.subject.material, ProtectedBase)) then Lookup(r.subject.material, ProtectedBase) else r.subject.baseSha
    case Repository => value == Lookup(r.subject.material, Repository)
    case DeliveryModel => value == Lookup(r.subject.material, DeliveryModel)
    case DeliveryModelProof => value == Lookup(r.subject.material, DeliveryModelProof)
    case _ => value == None
  }

  lemma CandidateBinds(env: Environment, r: Record, contract: string, head: string, diff: string, policyHash: string,
                       toolchain: string, artifact: Option<string>, now: string, f: MaterialField)
    requires BindCandidate(env, r, contract, head, diff, policyHash, toolchain, artifact, now).Ok?
    ensures var after := BindCandidate(env, r, contract, head, diff, policyHash, toolchain, artifact, now).value;
      && CandidateField(r, f, contract, head, diff, policyHash, toolchain, artifact, Lookup(after.subject.material, f))
      && after.subject.headSha == Some(head) && after.subject.diffHash == Some(diff)
      && after.subject.baseSha == Lookup(after.subject.material, ProtectedBase)
  {
    var updates := CandidateUpdates(r, contract, head, diff, policyHash, toolchain, artifact);
    UpdateKeepsFields(env, r, updates, "candidate_subject_bound", now);
    FieldUpdated(r.subject.material, updates);
    CandidateValue(r, f, contract, head, diff, policyHash, toolchain, artifact);
    CandidateValue(r, PrHead, contract, head, diff, policyHash, toolchain, artifact);
    CandidateValue(r, ReviewedDiff, contract, head, diff, policyHash, toolchain, artifact);
  }

  lemma CandidateValue(r: Record, f: MaterialField, contract: string, head: string, diff: string, policyHash: string,
                       toolchain: string, artifact: Option<string>)
    ensures var updates := CandidateUpdates(r, contract, head, diff, policyHash, toolchain, artifact);
      CandidateField(r, f, contract, head, diff, policyHash, toolchain, artifact, if f in updates then updates[f] else Lookup(r.subject.material, f))
  {
  }
}
