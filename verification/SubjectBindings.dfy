/** How far a change of the subject moves a case: what apply_subject_update proposes, and what the store accepts. */
module SubjectBindings {
  import opened States
  import opened Records
  import opened Events
  import opened Guards
  import opened SubjectUpdates
  import opened LedgerSteps
  import opened StoreTheorems
  import opened StoreRuns
  import opened CommitTheorems

  predicate ProductionChange(changed: set<MaterialField>) { exists f :: f in changed && ProductionField(f) }

  predicate ArtifactChange(changed: set<MaterialField>) { exists f :: f in changed && ArtifactField(f) }

  lemma EarliestIs(changed: set<MaterialField>)
    ensures EarliestRevalidation(changed)
         == if ProductionChange(changed) then RollbackRequired else if ArtifactChange(changed) then CiPass else ChangePlanned
  {
  }

  /** Where a case whose subject changed goes back to, given the earliest state to validate again. */
  function BackTo(p: Position, earliest: State): State {
    if PostProduction(p.state) then RollbackRequired else if PackageState(p.state) then CiPass
    else if BeforePatch(p.state) then Logical(p) else earliest
  }

  lemma InvalidatedLogical(p: Position, changed: set<MaterialField>)
    ensures Logical(Invalidate(p, changed)) == BackTo(p, EarliestRevalidation(changed))
  {
  }

  lemma BackToAheadIff(p: Position, earliest: State)
    requires PositionLegal(p)
    requires earliest == RollbackRequired || earliest == CiPass || earliest == ChangePlanned
    ensures Order(BackTo(p, earliest)) > Order(Logical(p)) <==>
      || (Order(PatchImplemented) <= Order(p.state) < Order(CiPass) && earliest == CiPass)
      || (p.state == ResolvedNoCode && earliest != RollbackRequired)
  {
  }

  /** apply_subject_update alone sends a case of the lifecycle ahead of where it stands in two situations: between
      PATCH_IMPLEMENTED and INDEPENDENT_REVIEW_PASS an artifact field changes and no production field does, and
      the case is to resume at CI_PASS; or a case at RESOLVED_NO_CODE, which never planned a change, is to resume
      at CHANGE_PLANNED or CI_PASS. */
  lemma InvalidateAheadIff(p: Position, changed: set<MaterialField>)
    requires PositionLegal(p)
    ensures Order(Logical(Invalidate(p, changed))) > Order(Logical(p)) <==>
      && !ProductionChange(changed)
      && (p.state == ResolvedNoCode || (Order(PatchImplemented) <= Order(p.state) < Order(CiPass) && ArtifactChange(changed)))
  {
    InvalidatedLogical(p, changed);
    EarliestIs(changed);
    BackToAheadIff(p, EarliestRevalidation(changed));
  }

  lemma GuardedNotAhead(current: Position, next: Position, requested: State, decision: Decision)
    requires OrderGuard(current, next, requested, decision).Pass? && BindingDecision(decision) && next.state != RollbackRequired
    ensures Order(Logical(next)) <= Order(Logical(current)) && (next.state == Blocked ==> Ordered(Logical(next)))
  {
  }

  /** The store never records such a step: an accepted binding leaves a case where it stands or further back. */
  lemma AcceptedBindingNotAhead(env: Environment, l: Ledger, req: Request)
    requires TransitionOutcome(env, l, req).Appended? && req.authorization.None? && BindingDecision(req.decision)
    ensures req.caseId in l.cases && Order(Logical(req.state.position)) <= Order(Logical(l.cases[req.caseId].state.position))
    ensures req.state.position.state == Blocked ==> Ordered(Logical(req.state.position))
  {
    AcceptedTransition(env, l, req);
    UnauthorizedIsUnprotected(env, l, req);
    GuardParts(env, l.cases[req.caseId], req);
    GuardedNotAhead(Snapshot(l.cases[req.caseId]).position, Normalize(env, req.state).position, req.requested, req.decision);
  }

  lemma UnorderedOrAhead(p: Position, changed: set<MaterialField>)
    requires Order(PatchImplemented) <= Order(p.state) < Order(CiPass) && (ArtifactChange(changed) || ProductionChange(changed))
    ensures var q := Invalidate(p, changed);
      q.state == Blocked && (!Ordered(Logical(q)) || Order(Logical(q)) > Order(Logical(p)))
  {
    EarliestIs(changed);
  }

  lemma RefusedMove(env: Environment, l: Ledger, req: Request)
    requires req.caseId in l.cases && req.authorization.None? && BindingDecision(req.decision)
    requires var q := req.state.position;
      q.state == Blocked && (!Ordered(Logical(q)) || Order(Logical(q)) > Order(Logical(l.cases[req.caseId].state.position)))
    ensures !TransitionOutcome(env, l, req).Appended?
  {
    if TransitionOutcome(env, l, req).Appended? {
      AcceptedBindingNotAhead(env, l, req);
    }
  }

  lemma AheadIsNotBack(p: Position, changed: set<MaterialField>)
    requires PositionLegal(p) && Order(Logical(Invalidate(p, changed))) > Order(Logical(p))
    ensures Invalidate(p, changed).state == Blocked
  {
    InvalidateAheadIff(p, changed);
  }

  /** No subject change that would send a case ahead is ever recorded. */
  lemma AheadRefused(env: Environment, l: Ledger, req: Request, updates: Updates, reason: string, now: string)
    requires BindsSubject(env, l, req, updates, reason, now) && BindingDecision(req.decision)
    requires var r := Snapshot(l.cases[req.caseId]);
      var changed := MaterialChanges(SubjectOf(r), SubjectOf(WithUpdates(r, updates)));
      changed != {} && PositionLegal(r.position) && Order(Logical(Invalidate(r.position, changed))) > Order(Logical(r.position))
    ensures !TransitionOutcome(env, l, req).Appended?
  {
    var r := Snapshot(l.cases[req.caseId]);
    var changed := MaterialChanges(SubjectOf(r), SubjectOf(WithUpdates(r, updates)));
    AheadIsNotBack(r.position, changed);
    UpdatedPosition(env, r, updates, reason, now);
    RefusedMove(env, l, req);
  }

  /** So between PATCH_IMPLEMENTED and INDEPENDENT_REVIEW_PASS no artifact or production field can change at all. */
  lemma EarlyArtifactRefused(env: Environment, l: Ledger, req: Request, updates: Updates, reason: string, now: string)
    requires BindsSubject(env, l, req, updates, reason, now) && BindingDecision(req.decision)
    requires Order(PatchImplemented) <= Order(l.cases[req.caseId].state.position.state) < Order(CiPass)
    requires var r := Snapshot(l.cases[req.caseId]);
      var changed := MaterialChanges(SubjectOf(r), SubjectOf(WithUpdates(r, updates)));
      ArtifactChange(changed) || ProductionChange(changed)
    ensures !TransitionOutcome(env, l, req).Appended?
  {
    var r := Snapshot(l.cases[req.caseId]);
    UnorderedOrAhead(r.position, MaterialChanges(SubjectOf(r), SubjectOf(WithUpdates(r, updates))));
    UpdatedPosition(env, r, updates, reason, now);
    RefusedMove(env, l, req);
  }
}
