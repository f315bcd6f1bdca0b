/** Commits of a record edited after it was read: what the staleness check lets through, and what still holds. */
module EditedCommits {
  import opened Basics
  import opened States
  import opened Records
  import opened Events
  import opened Guards
  import opened LedgerSteps
  import opened StoreTheorems
  import opened NoSkip
  import opened GuardGaps
  import opened BugLifecycle
  import opened CommitTheorems
  import opened CommitRuns

  lemma GuardedFields(env: Environment, row: CaseRow, req: Request)
    requires TransitionGuard(env, row, req).Pass? && !BindingDecision(req.decision)
    ensures OnlyLifecycleFieldsChanged(Snapshot(row), Normalize(env, req.state))
  {
  }

  /** The fields of a committed record that the store ties to the row: identity, domains, subject, archived
      evidence, and every other field as the evaluator leaves it. */
  predicate Pinned(env: Environment, row: CaseRow, call: CommitCall) {
    var r := call.record;
    && r.caseId == row.state.caseId && r.domains == row.state.domains
    && r.subject.(fingerprint := row.state.subject.fingerprint) == row.state.subject
    && row.state.subject.fingerprint == Some(env.Fingerprint(SubjectOf(r)))
    && r.evidence.historical == row.state.evidence.historical
    && CommitRequest(call).state.other == row.state.other && row.state.authority.binding.None?
  }

  /** The fields it does not tie. */
  predicate Unedited(row: CaseRow, r: Record) {
    && r.position == row.state.position && r.risk == row.state.risk && r.evidence.current == row.state.evidence.current
    && r.scheduling == row.state.scheduling && r.other == row.state.other
    && r.subject.fingerprint == row.state.subject.fingerprint
  }

  /** Whatever record is committed: if the store accepts, the pinned fields are those of the row. */
  lemma EditedCommitPins(env: Environment, row: CaseRow, call: CommitCall)
    requires TransitionGuard(env, row, CommitRequest(call)).Pass?
    ensures Pinned(env, row, call)
  {
    var req := CommitRequest(call);
    CommitDecides(call);
    GuardedFields(env, row, req);
    ProjectedFields(call);
    assert SubjectOf(req.state) == SubjectOf(call.record);
  }

  lemma ProjectedFields(call: CommitCall)
    ensures var next := CommitRequest(call).state;
      && next.caseId == call.record.caseId && next.domains == call.record.domains && next.subject == call.record.subject
      && next.evidence.historical == call.record.evidence.historical && next.scheduling == call.record.scheduling
      && next.authority.binding.None?
  {
  }

  /** So an accepted commit was evaluated against the state it replaced if and only if its position, risk, current
      evidence, scheduling, remaining fields and fingerprint were not edited. */
  lemma EditedCommitGenuineIff(env: Environment, row: CaseRow, call: CommitCall)
    requires TransitionGuard(env, row, CommitRequest(call)).Pass?
    ensures Genuine(row, call.record) <==> Unedited(row, call.record)
  {
    EditedCommitPins(env, row, call);
  }

  lemma GuardedOrder(env: Environment, row: CaseRow, req: Request)
    requires TransitionGuard(env, row, req).Pass? && !BindingDecision(req.decision)
    ensures var p := req.state.position; var at := Logical(row.state.position);
      && (Authoritative(p.state) ==> req.decision == Proceed && req.requested in AllowedTransitions(at))
      && (p.state == Blocked ==> 0 <= Order(Logical(p)) <= Order(at))
  {
    GuardParts(env, row, req);
  }

  /** And the order of the store binds every record: a state is entered only along an edge out of where the case
      really stands, and a block never resumes after it. */
  lemma EditedCommitOrdered(env: Environment, row: CaseRow, call: CommitCall)
    requires TransitionGuard(env, row, CommitRequest(call)).Pass?
    ensures var p := CommitRequest(call).state.position; var at := Logical(row.state.position);
      && (Authoritative(p.state) ==> p.state == call.target && call.target in AllowedTransitions(at))
      && (p.state == Blocked ==> 0 <= Order(Logical(p)) <= Order(at))
  {
    CommitDecides(call);
    GuardedOrder(env, row, CommitRequest(call));
    CommitDisciplinedIff(call.(authorization := None));
  }

  /** A recorded risk level is never lowered either; only clearing it is left open. */
  lemma EditedCommitRisk(env: Environment, row: CaseRow, call: CommitCall)
    requires TransitionGuard(env, row, CommitRequest(call)).Pass?
    ensures var before := row.state.risk.level; var after := CommitRequest(call).state.risk.level;
      before.Some? && after.Some? ==> LevelOrder(before.value) <= LevelOrder(after.value)
  {
    GuardedRisk(env, row, CommitRequest(call));
    RiskGuardMonotone(row.state.risk, Normalize(env, CommitRequest(call).state));
  }

  /** What is not tied shows: of a case at STAGING_PASS, a record that claims CONSUMER_VALIDATION_PASS passes the
      staleness check, and its refused transition blocks the case on the lane it never took. */
  lemma EditedStateBlocksElsewhere(env: Environment, row: CaseRow, call: CommitCall)
    requires row.state.position == STAGED_POSITION && DeliveryModelOf(row.state, row.state) == HOSTED_RUNTIME_SERVICE
    requires call.record == Snapshot(row).(position := STAGED_POSITION.(state := ConsumerValidationPass))
    requires call.expectedVersion == row.version && call.target == ReadyForOwnerRelease && call.authorization.None?
    requires OnlyMoves(env, row, CommitRequest(call)) && !Evaluate(call.ctx, call.record, call.target).allowed
    ensures Current(row, call) && !Genuine(row, call.record)
    ensures TransitionGuard(env, row, CommitRequest(call)).Pass? && !Lawful(STRAIGHT_ON, CommitRequest(call).state.position)
  {
    EditedProposal(call);
    ElsewhereBlockPasses(env, row, CommitRequest(call));
  }

  /** Blocked with CONSUMER_VALIDATION_PASS to resume at, on a refused request for READY_FOR_OWNER_RELEASE. */
  predicate BlocksElsewhere(req: Request) {
    var p := req.state.position;
    && req.decision == BlockedDecision && req.requested == ReadyForOwnerRelease && p.state == Blocked
    && p.resume == Some(ConsumerValidationPass) && p.finalState.None? && p.closureClass.None?
  }

  lemma ElsewhereBlockPasses(env: Environment, row: CaseRow, req: Request)
    requires OnlyMoves(env, row, req) && req.state.risk == row.state.risk && BlocksElsewhere(req)
    requires row.state.position == STAGED_POSITION && DeliveryModelOf(row.state, row.state) == HOSTED_RUNTIME_SERVICE
    ensures TransitionGuard(env, row, req).Pass? && !Lawful(STRAIGHT_ON, req.state.position)
  {
    ElsewherePositions(req.state.position, req.required);
    ElsewhereUnlawful(req.state.position);
    assert ProtectionGuard(env, row, req).Pass?;
    PlainMovePasses(env, row, req);
  }

  lemma EditedProposal(call: CommitCall)
    requires call.record.position == STAGED_POSITION.(state := ConsumerValidationPass)
    requires call.target == ReadyForOwnerRelease && !Evaluate(call.ctx, call.record, call.target).allowed
    ensures BlocksElsewhere(CommitRequest(call)) && CommitRequest(call).state.risk == call.record.risk
  {
    ProposedPosition(call.ctx, call.record, call.target);
  }

  lemma ElsewhereUnlawful(next: Position)
    requires next.state == Blocked && next.resume == Some(ConsumerValidationPass)
    ensures !Lawful(STRAIGHT_ON, next)
  {
    StraightStates(ConsumerValidationPass);
  }

  lemma ElsewherePositions(next: Position, required: set<string>)
    requires next.state == Blocked && next.resume == Some(ConsumerValidationPass) && next.finalState.None? && next.closureClass.None?
    ensures PositionsPass(HOSTED_RUNTIME_SERVICE, STAGED_POSITION, next, ReadyForOwnerRelease, BlockedDecision, required)
  {
  }
}
