/** The controller of bug lifecycles: evaluating a transition, its evidence gates, and committing it (bug_lifecycle.py). */
module BugController {
  import opened Basics
  import opened States
  import opened Records
  import opened LedgerSteps
  import opened PolicySafety
  import opened EvidenceGates
  import opened BugLifecycle
  import opened LifecycleStoreModule

  // ---- Evaluation ----

  method FindEarly(ctx: Context, r: Record, target: State) returns (reasons: seq<Reason>)
    ensures reasons == EarlyReasons(ctx, r, target)
  {
    var policyErrors := ValidateSafety(ctx.policy);
    reasons := If(policyErrors != [], UnsafePolicy);
    reasons := reasons
      + If(Model(r) == PACKAGE_OR_PLUGIN && (target == RollbackRequired || r.position.state == RollbackRequired), PackageRollback);
    reasons := reasons + If(target !in ctx.policy.Exits(LogicalCurrent(r.position)), NotAllowed);
    reasons := reasons + If(ClassOrder(RequestedClass(ctx, r)) < ClassOrder(KnownClass(r.risk)), RiskDowngrade);
  }

  /** One reason for every snapshot above the requested class. */
  method FindLowered(history: seq<RiskEntry>, requested: RiskClass) returns (reasons: seq<Reason>)
    ensures SetOf(reasons) == SetOf(If(HistoryLowers(history, requested), HistoryLowered))
    ensures reasons == [] <==> !HistoryLowers(history, requested)
  {
    reasons := [];
    for i := 0 to |history|
      invariant forall reason :: reason in reasons ==> reason == HistoryLowered
      invariant reasons == [] <==> !HistoryLowers(history[..i], requested)
    {
      assert forall j :: 0 <= j < i ==> history[..i + 1][j] == history[..i][j];
      assert history[..i + 1][i] == history[i];
      if history[i].cls.Some? && ClassOrder(history[i].cls.value) > ClassOrder(requested) {
        reasons := reasons + [HistoryLowered];
      }
    }
    assert history[..|history|] == history;
    assert reasons != [] ==> reasons[0] in reasons;
  }

  /** The types with at least one valid record: the loop behind `missing_types`. */
  method FindKinds(found: seq<EvidenceRefs>) returns (kinds: set<string>)
    ensures kinds == Kinds(found)
  {
    kinds := {};
    for i := 0 to |found|
      invariant kinds == Kinds(found[..i])
    {
      assert found[..i + 1] == found[..i] + [found[i]];
      if found[i].refs != [] {
        kinds := kinds + {found[i].kind};
      }
    }
    assert found[..|found|] == found;
  }

  method FindMissing(ctx: Context, r: Record, target: State) returns (reasons: seq<Reason>)
    ensures reasons == EvidenceReasons(ctx, r, target)
  {
    var asked := ComputeRequirements(GateOf(ctx.gates.policy.gates, target), SituationOf(ctx.gates.policy, r, target));
    if asked.required == {} {
      return [];
    }
    if !ctx.gates.ready(r) {
      return [SubjectIncomplete];
    }
    var kinds := FindKinds(ctx.gates.valid(r, asked.minimum));
    return If(!(asked.required <= kinds), MissingEvidence);
  }

  method CheckRollback(ctx: Context, r: Record) returns (proven: bool)
    ensures proven <==> RollbackProven(ctx, r)
  {
    if !ctx.gates.ready(r) {
      return false;
    }
    var asked := ComputeRequirements(GateOf(ctx.gates.policy.gates, ROLLBACK_CLOSURE), SituationOf(ctx.gates.policy, r, ROLLBACK_CLOSURE));
    var kinds := FindKinds(ctx.gates.signed(r, asked.minimum));
    return asked.required <= kinds;
  }

  method FindLate(ctx: Context, r: Record, target: State) returns (reasons: seq<Reason>)
    ensures reasons == LateReasons(ctx, r, target)
  {
    reasons := If(ctx.gates.findings(r, target), GateFinding);
    var missing := FindMissing(ctx, r, target);
    reasons := reasons + missing;
    reasons := reasons + If(NeedsCandidate(target) && LacksCandidate(r), CandidateIncomplete);
    reasons := reasons + If(NeedsArtifact(target) && Blank(Lookup(r.subject.material, ArtifactDigest)), ArtifactMissing);
    reasons := reasons + If(target == ResolvedNoCode && (ctx.problem.None? || !ctx.problem.value.nonCode), CodeClassification);
    reasons := reasons + If(target == Closed && !ClosureReady(r), ClosureTooEarly);
    var proven := CheckRollback(ctx, r);
    reasons := reasons + If(target == Closed && r.position.state == RollbackRequired && !proven, RollbackUnproven);
  }

  lemma SetOfConcat<T>(a: seq<T>, b: seq<T>)
    ensures SetOf(a + b) == SetOf(a) + SetOf(b)
  {
  }

  /** The reasons in the order they are found; the source reports them as a set. */
  method FindReasons(ctx: Context, r: Record, target: State) returns (reasons: seq<Reason>)
    ensures SetOf(reasons) == SetOf(ReasonsAgainst(ctx, r, target))
    ensures reasons == [] <==> ReasonsAgainst(ctx, r, target) == []
  {
    var early := FindEarly(ctx, r, target);
    var lowered := FindLowered(r.risk.history, RequestedClass(ctx, r));
    var late := FindLate(ctx, r, target);
    reasons := early + lowered + late;
    SetOfConcat(early + lowered, late);
    SetOfConcat(early, lowered);
    ghost var middle := If(HistoryLowers(r.risk.history, RequestedClass(ctx, r)), HistoryLowered);
    SetOfConcat(early + middle, late);
    SetOfConcat(early, middle);
  }

  /** The requirements of the target, and the evidence at hand sorted by them. */
  method ExamineEvidence(ctx: Context, r: Record, target: State)
    returns (required: set<string>, valid: seq<EvidenceRefs>, invalid: set<string>)
    ensures required == Asked(ctx, r, target).required
    ensures valid == ValidEvidence(ctx, r, target) && invalid == RejectedEvidence(ctx, r, target)
  {
    var asked := ComputeRequirements(GateOf(ctx.gates.policy.gates, target), SituationOf(ctx.gates.policy, r, target));
    if asked.required == {} || !ctx.gates.ready(r) {
      return asked.required, [], {};
    }
    return asked.required, ctx.gates.valid(r, asked.minimum), ctx.gates.invalid(r, asked.minimum);
  }

  /** evaluate_bug_transition; the reasons are reported as a set. */
  method EvaluateBugTransition(ctx: Context, r: Record, target: State) returns (verdict: Verdict)
    ensures SetOf(verdict.reasons) == SetOf(Evaluate(ctx, r, target).reasons)
    ensures verdict.(reasons := Evaluate(ctx, r, target).reasons) == Evaluate(ctx, r, target)
  {
    if !OrderAccepted(ctx.policy) || ctx.gates.schemaErrors(r) || target !in ctx.policy.states {
      return Verdict(false, BlockedDecision, [NotAllowed], {}, [], {});
    }
    var reasons := FindReasons(ctx, r, target);
    var required, valid, invalid := ExamineEvidence(ctx, r, target);
    var decision := if reasons == [] then Proceed else if ProductionExposed(LogicalCurrent(r.position)) then RollbackDecision else BlockedDecision;
    verdict := Verdict(reasons == [], decision, reasons, required, valid, invalid);
  }

  // ---- Committing ----

  /** commit_bug_lifecycle_transition */
  method CommitTransition(store: LifecycleStore, call: CommitCall) returns (r: Result<Record>)
    modifies store
    ensures var before := old(store.Contents()); var read := ReadBack(store.env, before, call.record.caseId);
      var outcome := if read.Err? then Rejected(read.failure) else CommitOutcome(store.env, before, call);
      && store.Contents() == Commit(before, call.record.caseId, outcome)
      && r == WriteResult(store.env, before, call.record.caseId, outcome, true)
  {
    var authoritative := store.Get(call.record.caseId, true);
    if authoritative.Err? {
      return authoritative;
    }
    var current := authoritative.value.authority;
    if Some(call.expectedVersion) != current.version || call.record.authority.recordHash != current.recordHash {
      return Err(RuntimeError);
    }
    r := store.Transition(CommitRequest(call));
  }

  /** The bind-candidate and bind-artifact commands: a verified read, a subject update of it, and a transition at
      the version that was read. */
  method BindSubject(store: LifecycleStore, caseId: string, bind: BindCall) returns (r: Result<Record>)
    modifies store
    ensures var before := old(store.Contents()); var read := ReadBack(store.env, before, caseId);
      var bound := if read.Ok? then read.value.caseId else caseId;
      var outcome := if read.Err? then Rejected(read.failure) else BindOutcome(store.env, before, read.value, bind);
      && store.Contents() == Commit(before, bound, outcome)
      && r == WriteResult(store.env, before, bound, outcome, true)
  {
    var current := store.Get(caseId, true);
    if current.Err? {
      return current;
    }
    var req := BindRequest(store.env, current.value, bind);
    if req.Err? {
      return Err(req.failure);
    }
    r := store.Transition(req.value);
  }
}
