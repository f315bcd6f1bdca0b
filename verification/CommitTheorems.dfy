/** What one commit_bug_lifecycle_transition, and one binding of a subject, guarantee. */
module CommitTheorems {
  import opened Basics
  import opened States
  import opened Records
  import opened Events
  import opened Guards
  import opened SubjectUpdates
  import opened LedgerSteps
  import opened StoreTheorems
  import opened StoreRuns
  import opened NoSkip
  import opened PolicySafety
  import opened EvidenceGates
  import opened BugLifecycle

  /** Every position a committed row can have: the only other states a caller may name are refused. */
  predicate PositionLegal(p: Position) {
    Authoritative(p.state) || p.state == RollbackRequired || (p.state == Blocked && p.resume.Some? && Ordered(p.resume.value))
  }

  /** On a legal position the evaluator and the store mean the same logical state. */
  lemma LogicalAgrees(p: Position)
    requires PositionLegal(p)
    ensures LogicalCurrent(p) == Logical(p) && (Authoritative(Logical(p)) || Logical(p) == RollbackRequired)
  {
  }

  lemma OrderGuardLegal(current: Position, next: Position, requested: State, decision: Decision)
    requires Authoritative(next.state) || next.state == Blocked || next.state == RollbackRequired
    requires OrderGuard(current, next, requested, decision).Pass?
    ensures PositionLegal(next)
  {
  }

  lemma GuardedPositionLegal(env: Environment, row: CaseRow, req: Request)
    requires TransitionGuard(env, row, req).Pass?
    ensures PositionLegal(req.state.position)
  {
    GuardParts(env, row, req);
    OrderGuardLegal(Snapshot(row).position, Normalize(env, req.state).position, req.requested, req.decision);
  }

  // ---- What an evaluation proposes ----

  lemma AllowedMeans(ctx: Context, r: Record, target: State)
    requires Evaluate(ctx, r, target).allowed
    ensures Safe(ctx.policy) && target in ctx.policy.Exits(LogicalCurrent(r.position))
  {
  }

  /** The evaluator goes to the target, or blocks (or rolls back, after production) where the case stands. */
  lemma ProposedPosition(ctx: Context, r: Record, target: State)
    ensures var next := Advance(ctx, r, target).position; var at := LogicalCurrent(r.position);
      if Evaluate(ctx, r, target).allowed then next.state == target && next.resume == None && next.closureClass == ClosureOf(r, target)
      else
        && next.state == (if Evaluate(ctx, r, target).decision == RollbackDecision then RollbackRequired else Blocked)
        && (next.state == RollbackRequired ==> ProductionExposed(at))
        && next.resume == Some(at) && next.finalState == None && next.closureClass == r.position.closureClass
  {
  }

  // ---- What evidence a commit carries ----

  /** Nothing is allowed without valid evidence of every type its gate asks for, and closing after a rollback not
      without the signed evidence of the rollback closure. */
  lemma AllowedHasEvidence(ctx: Context, r: Record, target: State)
    requires Evaluate(ctx, r, target).allowed
    ensures Evaluate(ctx, r, target).required == Asked(ctx, r, target).required <= Kinds(Evaluate(ctx, r, target).valid)
    ensures target == Closed && r.position.state == RollbackRequired ==> RollbackProven(ctx, r)
  {
  }

  lemma {:induction false} FlattenHolds(found: seq<EvidenceRefs>, f: EvidenceRefs)
    requires f in found
    ensures SetOf(f.refs) <= SetOf(Flatten(found))
  {
    if f != found[|found| - 1] {
      assert found == found[..|found| - 1] + [found[|found| - 1]];
      FlattenHolds(found[..|found| - 1], f);
    }
  }

  /** A PROCEED that is committed names, for each type its gate asks for, an accepted record. */
  lemma CommitCarriesEvidence(call: CommitCall, t: string) returns (id: string)
    requires Evaluate(call.ctx, call.record, call.target).allowed && t in Asked(call.ctx, call.record, call.target).required
    ensures t in CommitRequest(call).required && id in CommitRequest(call).accepted
    ensures exists f :: f in Evaluate(call.ctx, call.record, call.target).valid && f.kind == t && id in f.refs
  {
    AllowedHasEvidence(call.ctx, call.record, call.target);
    var found := Evaluate(call.ctx, call.record, call.target).valid;
    var f :| f in found && f.refs != [] && f.kind == t;
    FlattenHolds(found, f);
    id := f.refs[0];
    assert id in SetOf(f.refs);
  }

  /** The same case with more domains, or with a merge recorded. */
  predicate Widens(r: Record, wider: Record) {
    && wider.risk == r.risk && wider.other == r.other && Model(wider) == Model(r)
    && r.domains.Or(Some([])).value <= wider.domains.Or(Some([])).value
    && (!Blank(Lookup(r.subject.material, MergedMain)) ==> !Blank(Lookup(wider.subject.material, MergedMain)))
  }

  /** An evaluation never asks less of a case once it has more domains or a merge. */
  lemma WideningAsksNoLess(ctx: Context, r: Record, wider: Record, target: State)
    requires Widens(r, wider)
    ensures AsksNoLess(Asked(ctx, r, target), Asked(ctx, wider, target))
  {
    var s, t := SituationOf(ctx.gates.policy, r, target), SituationOf(ctx.gates.policy, wider, target);
    WidenedSituation(ctx.gates.policy, r, wider, target);
    MoreIsNeverLess(GateOf(ctx.gates.policy.gates, target), s, t.domains[|s.domains|..], t.merged, {});
    assert s.progressive + {} == s.progressive;
  }

  lemma WidenedSituation(p: GatePolicy, r: Record, wider: Record, target: State)
    requires Widens(r, wider)
    ensures var s, t := SituationOf(p, r, target), SituationOf(p, wider, target);
      s.domains <= t.domains && t == s.(domains := s.domains + t.domains[|s.domains|..], merged := t.merged) && (s.merged ==> t.merged)
  {
    var s, t := SituationOf(p, r, target), SituationOf(p, wider, target);
    assert t.domains == s.domains + t.domains[|s.domains|..];
  }

  // ---- The two caller obligations of the store ----

  /** Of the two obligations the store leaves to its caller, a commit always meets the first; it meets the
      second exactly when an authorization comes only with an updated record in a protected state. */
  lemma CommitDisciplinedIff(call: CommitCall)
    ensures Disciplined(CommitRequest(call))
       <==> (call.authorization.Some? ==> ProtectedState(Advance(call.ctx, call.record, call.target).position.state))
  {
  }

  /** A policy that keeps rollback to cases that were exposed in production. */
  ghost predicate RollsBackExposedOnly(p: Policy) {
    forall s :: (Authoritative(s) || s == RollbackRequired) && RollbackRequired in p.Exits(s) ==> ProductionExposed(s)
  }

  lemma RollbackEdges(s: State)
    requires RollbackRequired in AllowedTransitions(s)
    ensures ProductionExposed(s)
  {
  }

  lemma ExposedRollback(p: Policy, s: State)
    requires Safe(p) && Authoritative(s) && s != ResolvedNoCode && RollbackRequired in p.Exits(s)
    ensures ProductionExposed(s)
  {
    SafePolicyRefinesStore(p, s);
    RollbackEdges(s);
  }

  /** The safety validator leaves one way to roll back an unexposed case: an exit of RESOLVED_NO_CODE. */
  lemma SafePolicyRollback(p: Policy)
    requires Safe(p)
    ensures RollsBackExposedOnly(p) <==> RollbackRequired !in p.Exits(ResolvedNoCode)
  {
    if RollbackRequired !in p.Exits(ResolvedNoCode) {
      forall s | (Authoritative(s) || s == RollbackRequired) && RollbackRequired in p.Exits(s) ensures ProductionExposed(s) {
        if s != RollbackRequired {
          ExposedRollback(p, s);
        }
      }
    }
  }

  /** Rollback starts only after production, and a block resumes where the case stood. */
  predicate Orderly(current: Position, next: Position) {
    && (next.state == RollbackRequired ==> ProductionExposed(Logical(current)))
    && (next.state == Blocked ==> Logical(next) == Logical(current) || Order(Logical(next)) <= Order(CiPass))
  }

  /** Of a sound case, orderly moves are lawful. */
  lemma OrderlyIsLawful(states: seq<State>, current: Position, next: Position)
    requires SkipsNothing(states) && Earned(states, current) && Orderly(current, next)
    requires next.state == Blocked ==> Ordered(Logical(current))
    ensures Lawful(states, next)
  {
    if next.state == RollbackRequired {
      assert Logical(current) in states;
      if Logical(current) != ProductionReleased {
        ProductionEntered(states, Logical(current));
      }
    }
  }

  lemma ProductionEntered(states: seq<State>, s: State)
    requires SkipsNothing(states) && s in states && (s == PostDeployVerified || s == RollbackRequired)
    ensures ProductionReleased in states
  {
    if s == RollbackRequired {
      RollbackImpliesProduction(states);
    } else {
      var from := Predecessor(states, PostDeployVerified);
    }
  }

  lemma EarliestIsCommon(changed: set<MaterialField>)
    ensures Order(EarliestRevalidation(changed)) <= Order(CiPass)
  {
  }

  lemma InvalidateOrderly(p: Position, changed: set<MaterialField>)
    ensures p.state == RollbackRequired || Orderly(p, p)
    ensures Invalidate(p, changed).state == RollbackRequired || Orderly(p, Invalidate(p, changed))
  {
    if !PostProduction(p.state) && !PackageState(p.state) {
      EarliestIsCommon(changed);
    }
  }

  /** The request writes a subject update of the case as it stands, and brings no authorization. */
  predicate BindsSubject(env: Environment, l: Ledger, req: Request, updates: Updates, reason: string, now: string) {
    && req.authorization.None? && req.decision != Proceed && req.caseId in l.cases
    && ApplySubjectUpdate(env, Snapshot(l.cases[req.caseId]), updates, reason, now) == Ok(req.state)
  }

  /** Changing the subject of a case is orderly by itself, under whatever binding decision. */
  lemma BindingOrderly(env: Environment, l: Ledger, req: Request, updates: Updates, reason: string, now: string)
    requires BindsSubject(env, l, req, updates, reason, now) && TransitionOutcome(env, l, req).Appended?
    ensures Disciplined(req) && Orderly(l.cases[req.caseId].state.position, req.state.position)
  {
    var current := Snapshot(l.cases[req.caseId]);
    UnauthorizedIsUnprotected(env, l, req);
    UpdatedPosition(env, current, updates, reason, now);
    InvalidateOrderly(current.position, MaterialChanges(SubjectOf(current), SubjectOf(WithUpdates(current, updates))));
  }

  lemma MutationBinds(env: Environment, l: Ledger, step: Step)
    requires step.MutateStep? && StepOutcome(env, l, step).Appended?
    ensures step.caseId in l.cases
    ensures ApplySubjectUpdate(env, Snapshot(l.cases[step.caseId]), step.updates, step.reason, step.now).Ok?
    ensures BindsSubject(env, l, MutationRequestOf(env, l, step), step.updates, step.reason, step.now)
    ensures StepOutcome(env, l, step) == TransitionOutcome(env, l, MutationRequestOf(env, l, step))
  {
    MutationIsTransition(env, l, step);
  }

  lemma GuardedBlock(env: Environment, row: CaseRow, req: Request)
    requires TransitionGuard(env, row, req).Pass? && req.state.position.state == Blocked
    ensures Ordered(Logical(row.state.position))
  {
    GuardParts(env, row, req);
  }

  /** An accepted orderly transition of a sound case is lawful. */
  lemma AcceptedOrderlyIsLawful(env: Environment, l: Ledger, req: Request)
    requires TransitionOutcome(env, l, req).Appended?
    requires CaseSound(History(l.events, req.caseId), l.cases[req.caseId].state.position)
    requires Orderly(l.cases[req.caseId].state.position, req.state.position)
    ensures Lawful(EnteredStates(History(l.events, req.caseId)), TransitionOutcome(env, l, req).row.state.position)
  {
    AcceptedTransition(env, l, req);
    var row := l.cases[req.caseId];
    if req.state.position.state == Blocked {
      GuardedBlock(env, row, req);
    }
    OrderlyIsLawful(EnteredStates(History(l.events, req.caseId)), row.state.position, Normalize(env, req.state).position);
  }

  lemma OrderlyFrom(current: Position, next: Position, at: State)
    requires at == Logical(current)
    requires next.state == RollbackRequired ==> ProductionExposed(at)
    requires next.state == Blocked ==> next.resume == None || next.resume == Some(at)
    ensures Orderly(current, next)
  {
  }

  /** The restriction the store does not make, and the evaluator does: where a rollback may start. */
  lemma CommitOrderly(call: CommitCall)
    requires PositionLegal(call.record.position)
    requires RollbackRequired !in call.ctx.policy.Exits(ResolvedNoCode)
    ensures Orderly(call.record.position, CommitRequest(call).state.position)
  {
    var p := call.record.position;
    LogicalAgrees(p);
    ProposedPosition(call.ctx, call.record, call.target);
    if Evaluate(call.ctx, call.record, call.target).allowed {
      AllowedMeans(call.ctx, call.record, call.target);
      SafePolicyRollback(call.ctx.policy);
    }
    CommitDecides(call);
    OrderlyFrom(p, Advance(call.ctx, call.record, call.target).position, Logical(p));
  }

  lemma CommitDecides(call: CommitCall)
    ensures !BindingDecision(CommitRequest(call).decision)
    ensures CommitRequest(call).requested == call.target
    ensures CommitRequest(call).state == Advance(call.ctx, call.record, call.target)
  {
  }

  // ---- Risk ----

  predicate RiskNotLower(before: RiskProfile, after: RiskProfile) {
    && (before.level.Some? ==> after.level.Some? && LevelOrder(before.level.value) <= LevelOrder(after.level.value))
    && before.history <= after.history
  }

  lemma RiskGuardMonotone(current: RiskProfile, next: Record)
    requires RiskGuard(current, next).Pass?
    ensures current.level.Some? && next.risk.level.Some? ==>
      LevelOrder(current.level.value) <= LevelOrder(next.risk.level.value)
    ensures DominatesHistory(next.risk)
  {
  }

  lemma GuardedRisk(env: Environment, row: CaseRow, req: Request)
    requires TransitionGuard(env, row, req).Pass?
    ensures RiskGuard(row.state.risk, Normalize(env, req.state)).Pass?
  {
  }

  lemma CommitKeepsRiskSet(call: CommitCall)
    ensures var before := call.record.risk; var after := CommitRequest(call).state.risk;
      (before.level.Some? ==> after.level.Some?) && before.history <= after.history
  {
  }

  /** The store makes the risk of a commit monotone and dominant over its history. */
  lemma CommitRisk(env: Environment, row: CaseRow, call: CommitCall)
    requires call.record.risk == row.state.risk && TransitionGuard(env, row, CommitRequest(call)).Pass?
    ensures RiskNotLower(row.state.risk, CommitRequest(call).state.risk)
    ensures DominatesHistory(CommitRequest(call).state.risk)
  {
    GuardedRisk(env, row, CommitRequest(call));
    RiskGuardMonotone(row.state.risk, Normalize(env, CommitRequest(call).state));
    CommitKeepsRiskSet(call);
  }

  /** The evaluator compares classes only: what it allows has a lower level than the case exactly when the problem
      case states a lower one. The class does not prevent that: it is the higher of the derived and the declared. */
  lemma AdvanceLowersLevelIff(ctx: Context, r: Record, target: State)
    requires Evaluate(ctx, r, target).allowed && r.risk.level.Some?
    ensures var after := Advance(ctx, r, target).risk;
      after.level.Some? &&
      (LevelOrder(after.level.value) < LevelOrder(r.risk.level.value) <==>
         && ctx.problem.Some? && ctx.problem.value.level.Some?
         && LevelOrder(ctx.problem.value.level.value) < LevelOrder(r.risk.level.value))
  {
  }

  /** The store then refuses the commit. */
  lemma LowerLevelRefused(env: Environment, row: CaseRow, call: CommitCall)
    requires call.record.risk == row.state.risk && row.state.risk.level.Some?
    requires Evaluate(call.ctx, call.record, call.target).allowed && call.ctx.problem.Some? && call.ctx.problem.value.level.Some?
    requires LevelOrder(call.ctx.problem.value.level.value) < LevelOrder(row.state.risk.level.value)
    ensures TransitionGuard(env, row, CommitRequest(call)).Fail?
  {
    AdvanceLowersLevelIff(call.ctx, call.record, call.target);
    CommitDecides(call);
    if TransitionGuard(env, row, CommitRequest(call)).Pass? {
      CommitRisk(env, row, call);
    }
  }

  /** The store alone lets a direct transition clear a recorded risk or rewrite its history, and nothing else. */
  lemma StoreRiskGuardExact(current: RiskProfile, next: Record)
    requires RiskGuard(current, next).Pass? && current.level.Some?
    ensures (next.risk.level.Some? && LevelOrder(current.level.value) <= LevelOrder(next.risk.level.value))
       <==> next.risk.level.Some?
    ensures RiskNotLower(current, next.risk) <==> next.risk.level.Some? && current.history <= next.risk.history
  {
  }

  // ---- Terminal states ----

  /** A row in a terminal state names how it was closed. */
  predicate TerminalMarked(p: Position) {
    Terminal(p.state) ==> !Blank(p.closureClass)
  }

  lemma GuardedClosure(env: Environment, row: CaseRow, req: Request)
    requires TransitionGuard(env, row, req).Pass?
    ensures var next := Normalize(env, req.state);
      ClosureGuard(DeliveryModelOf(next, Snapshot(row)), row.state.position.state, next.position, req.required).Pass?
  {
  }

  lemma CommitMarksTerminal(call: CommitCall)
    ensures TerminalMarked(CommitRequest(call).state.position)
  {
    ProposedPosition(call.ctx, call.record, call.target);
  }

  lemma ClosureStaysMarked(model: string, current: State, next: Position, required: set<string>)
    requires ClosureGuard(model, current, next, required).Pass?
    ensures !Terminal(next.state) ==> Blank(next.closureClass)
  {
  }

  lemma NoExitFromTerminal(current: Position, next: Position, requested: State, decision: Decision)
    requires Terminal(current.state) && Authoritative(next.state) && !BindingDecision(decision)
    ensures OrderGuard(current, next, requested, decision).Fail?
  {
  }

  lemma NoTerminalRollback(p: Policy, s: State)
    requires Safe(p) && Terminal(s) && RollbackRequired !in p.Exits(ResolvedNoCode)
    ensures RollbackRequired !in p.Exits(s)
  {
  }

  lemma TerminalProposal(ctx: Context, r: Record, target: State)
    requires TerminalMarked(r.position) && Terminal(r.position.state)
    requires RollbackRequired !in ctx.policy.Exits(ResolvedNoCode)
    ensures var next := Advance(ctx, r, target).position;
      if Evaluate(ctx, r, target).allowed then next.state == target != RollbackRequired
      else next.state == Blocked && !Blank(next.closureClass)
  {
    ProposedPosition(ctx, r, target);
    if Evaluate(ctx, r, target).allowed {
      AllowedMeans(ctx, r, target);
      NoTerminalRollback(ctx.policy, r.position.state);
    }
  }

  lemma GuardedRequest(env: Environment, row: CaseRow, req: Request)
    requires TransitionGuard(env, row, req).Pass?
    ensures Authoritative(req.requested) || req.requested == RollbackRequired
  {
  }

  /** From a terminal state every commit is refused, whatever else the policy, evidence and authorization say. */
  lemma TerminalIsAbsorbing(env: Environment, row: CaseRow, call: CommitCall)
    requires call.record.position == row.state.position && TerminalMarked(row.state.position) && Terminal(row.state.position.state)
    requires RollbackRequired !in call.ctx.policy.Exits(ResolvedNoCode)
    ensures TransitionGuard(env, row, CommitRequest(call)).Fail?
  {
    var req := CommitRequest(call);
    TerminalProposal(call.ctx, call.record, call.target);
    CommitDecides(call);
    RefusedProposal(env, row, req);
  }

  lemma RefusedProposal(env: Environment, row: CaseRow, req: Request)
    requires Terminal(row.state.position.state) && !BindingDecision(req.decision)
    requires req.state.position.state == req.requested || !Blank(req.state.position.closureClass)
    requires req.state.position.state != RollbackRequired
    ensures TransitionGuard(env, row, req).Fail?
  {
    if TransitionGuard(env, row, req).Pass? {
      GuardParts(env, row, req);
      GuardedClosure(env, row, req);
      GuardedRequest(env, row, req);
      var next := Normalize(env, req.state);
      if Authoritative(next.position.state) {
        NoExitFromTerminal(Snapshot(row).position, next.position, req.requested, req.decision);
      } else {
        ClosureStaysMarked(DeliveryModelOf(next, Snapshot(row)), row.state.position.state, next.position, req.required);
      }
    }
  }
}
