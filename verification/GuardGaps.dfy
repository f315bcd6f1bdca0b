/** What the store's guards let through: an input for each property they do not ensure by themselves. */
module GuardGaps {
  import opened Basics
  import opened States
  import opened Records
  import opened Events
  import opened Guards
  import opened LedgerSteps
  import opened StoreTheorems
  import opened NoSkip

  const FIRST_POSITION := Position(UnverifiedReport, Some(UnverifiedReport), None, None, [], None, None)
  const REOPENED_POSITION := Position(Blocked, Some(Closed), Some(Closed), None, [], None, None)
  const ROLLED_BACK_POSITION := Position(RollbackRequired, Some(UnverifiedReport), None, None, [], None, None)
  const STAGED_POSITION := Position(StagingPass, Some(StagingPass), None, None, [], None, None)
  const LATERAL_POSITION := Position(Blocked, Some(StagingPass), Some(ConsumerValidationPass), None, [], None, None)
  const LATERAL_CLOSED_POSITION := Position(Closed, Some(Closed), None, None, [], Some(Closed), Some("CODE_FIX"))

  /** The case as it stands passes every check of its subject, and the request changes nothing but its
      position, its risk, its current evidence, its scheduling and the store's own markers. */
  predicate OnlyMoves(env: Environment, row: CaseRow, req: Request) {
    && row.state.subject.fingerprint == Some(env.Fingerprint(SubjectOf(row.state)))
    && SubjectGuard(env, Snapshot(row), Snapshot(row), req.decision).Pass?
    && TransitionDecision(req.decision) && !BindingDecision(req.decision)
    && req.state == row.state.(position := req.state.position, risk := req.state.risk, authority := req.state.authority,
                               scheduling := req.state.scheduling, evidence := req.state.evidence)
    && req.state.evidence.historical == row.state.evidence.historical
    && req.state.authority.binding == row.state.authority.binding
  }

  /** The guards that look at positions alone. */
  predicate PositionsPass(model: string, current: Position, next: Position, requested: State, decision: Decision, required: set<string>) {
    && (Authoritative(next.state) ==> next.lastCompleted == Some(next.state))
    && DeliveryGuard(model, next.state, requested).Pass?
    && OrderGuard(current, next, requested, decision).Pass?
    && ClosureGuard(model, current.state, next, required).Pass?
  }

  predicate MovesPass(row: CaseRow, req: Request) {
    PositionsPass(DeliveryModelOf(row.state, row.state), row.state.position, req.state.position, req.requested, req.decision, req.required)
  }

  lemma MovePassesSubject(env: Environment, row: CaseRow, req: Request)
    requires OnlyMoves(env, row, req) && RiskGuard(row.state.risk, req.state).Pass?
    ensures var next := Normalize(env, req.state);
      && SubjectGuard(env, Snapshot(row), next, req.decision).Pass? && FieldGuard(Snapshot(row), next, req.decision).Pass?
      && DeliveryModelOf(next, Snapshot(row)) == DeliveryModelOf(row.state, row.state)
  {
    var next := Normalize(env, req.state);
    assert SubjectOf(next) == SubjectOf(Snapshot(row)) == SubjectOf(row.state);
    assert next.subject == Snapshot(row).subject;
    assert RiskGuard(row.state.risk, next) == RiskGuard(row.state.risk, req.state);
  }

  /** Such a request is accepted as soon as the guards on positions, risk and protection pass. */
  lemma MovePassesGuards(env: Environment, row: CaseRow, req: Request)
    requires OnlyMoves(env, row, req) && RiskGuard(row.state.risk, req.state).Pass?
    requires MovesPass(row, req) && ProtectionGuard(env, row, req).Pass?
    ensures TransitionGuard(env, row, req).Pass?
  {
    MovePassesSubject(env, row, req);
    assert Normalize(env, req.state).position == req.state.position;
  }

  lemma UnprotectedPasses(env: Environment, row: CaseRow, req: Request)
    requires !ProtectedState(req.state.position.state)
    ensures ProtectionGuard(env, row, req).Pass?
  {
  }

  /** Without an authorization, and unless it proceeds somewhere else, a request is disciplined. */
  lemma UnauthorizedDisciplined(req: Request)
    requires req.authorization.None? && req.decision == BlockedDecision
    ensures Disciplined(req)
  {
  }

  lemma CurrentRiskPasses(env: Environment, row: CaseRow, req: Request)
    requires OnlyMoves(env, row, req)
    ensures RiskGuard(row.state.risk, Snapshot(row)).Pass?
  {
  }

  lemma SameRiskPasses(env: Environment, row: CaseRow, req: Request)
    requires OnlyMoves(env, row, req) && req.state.risk == row.state.risk
    ensures RiskGuard(row.state.risk, req.state).Pass?
  {
    assert SubjectGuard(env, Snapshot(row), Snapshot(row), req.decision).Pass?;
    assert RiskGuard(row.state.risk, req.state) == RiskGuard(row.state.risk, Snapshot(row));
  }

  lemma PlainMovePasses(env: Environment, row: CaseRow, req: Request)
    requires OnlyMoves(env, row, req) && req.state.risk == row.state.risk
    requires MovesPass(row, req) && ProtectionGuard(env, row, req).Pass?
    ensures TransitionGuard(env, row, req).Pass?
  {
    SameRiskPasses(env, row, req);
    MovePassesGuards(env, row, req);
  }

  // ---- Positions the guards let through ----

  lemma MismatchedPositions(model: string, required: set<string>)
    requires model != PACKAGE_OR_PLUGIN
    ensures PositionsPass(model, FIRST_POSITION, STAGED_POSITION, SourceOfTruthResolved, Proceed, required)
  {
  }

  lemma ReopenedPositions(model: string, closed: Position, required: set<string>)
    requires model != PACKAGE_OR_PLUGIN && closed.state == Closed
    ensures PositionsPass(model, closed, REOPENED_POSITION, StagingPass, BlockedDecision, required)
  {
  }

  lemma RolledBackPositions(model: string, required: set<string>)
    requires model != PACKAGE_OR_PLUGIN
    ensures PositionsPass(model, FIRST_POSITION, ROLLED_BACK_POSITION, RollbackRequired, RollbackDecision, required)
  {
  }

  lemma LateralPositions(staged: Position, required: set<string>)
    requires staged.state == StagingPass
    ensures PositionsPass(HOSTED_RUNTIME_SERVICE, staged, LATERAL_POSITION, ReadyForOwnerRelease, BlockedDecision, required)
  {
  }

  lemma LateralClosePositions(required: set<string>)
    ensures PositionsPass(HOSTED_RUNTIME_SERVICE, LATERAL_POSITION, LATERAL_CLOSED_POSITION, Closed, Proceed, required)
  {
  }

  /** Blocked where the case stands. */
  function InPlace(p: Position): Position { Position(Blocked, p.lastCompleted, Some(Logical(p)), None, [], None, None) }

  lemma InPlacePositions(model: string, p: Position, requested: State, required: set<string>)
    requires Ordered(Logical(p)) && DeliveryGuard(model, Blocked, requested).Pass?
    ensures PositionsPass(model, p, InPlace(p), requested, BlockedDecision, required)
  {
  }

  // ---- Transitions the store accepts ----

  /** A PROCEED that asks for the next state and writes a far later one: every case just initialized accepts it. */
  lemma MismatchedProceedPasses(env: Environment, row: CaseRow, req: Request)
    requires OnlyMoves(env, row, req) && req.state.risk == row.state.risk
    requires row.state.position == FIRST_POSITION && req.state.position == STAGED_POSITION
    requires DeliveryModelOf(row.state, row.state) != PACKAGE_OR_PLUGIN
    requires req.requested == SourceOfTruthResolved && req.decision == Proceed
    ensures TransitionGuard(env, row, req).Pass? && !Disciplined(req)
  {
    MismatchedPositions(DeliveryModelOf(row.state, row.state), req.required);
    UnprotectedPasses(env, row, req);
    PlainMovePasses(env, row, req);
  }

  /** CLOSED is not final for a direct transition: a BLOCKED write that drops the closure class is accepted. */
  lemma ClosedMayBeBlocked(env: Environment, row: CaseRow, req: Request)
    requires OnlyMoves(env, row, req) && req.state.risk == row.state.risk
    requires row.state.position.state == Closed && req.state.position == REOPENED_POSITION
    requires DeliveryModelOf(row.state, row.state) != PACKAGE_OR_PLUGIN
    requires req.requested == StagingPass && req.decision == BlockedDecision && req.authorization.None?
    ensures TransitionGuard(env, row, req).Pass? && Disciplined(req)
  {
    ReopenedPositions(DeliveryModelOf(row.state, row.state), row.state.position, req.required);
    UnprotectedPasses(env, row, req);
    UnauthorizedDisciplined(req);
    PlainMovePasses(env, row, req);
  }

  /** A rollback right after initialization is accepted like any other protected write, and none of the fourteen
      common states but the first has been entered. */
  lemma EarlyRollbackPasses(env: Environment, row: CaseRow, req: Request)
    requires OnlyMoves(env, row, req) && req.state.risk == row.state.risk
    requires row.state.position == FIRST_POSITION && req.state.position == ROLLED_BACK_POSITION
    requires DeliveryModelOf(row.state, row.state) != PACKAGE_OR_PLUGIN
    requires req.requested == RollbackRequired && req.decision == RollbackDecision
    requires ProtectionGuard(env, row, req).Pass?
    ensures TransitionGuard(env, row, req).Pass? && Disciplined(req)
    ensures !Lawful([UnverifiedReport], req.state.position)
    ensures !EnteredFirst([UnverifiedReport], RequiredBefore(req.state.position.state))
  {
    RolledBackPositions(DeliveryModelOf(row.state, row.state), req.required);
    PlainMovePasses(env, row, req);
    RollbackPresupposes();
  }

  lemma RollbackPresupposes()
    ensures !Lawful([UnverifiedReport], ROLLED_BACK_POSITION) && !EnteredFirst([UnverifiedReport], RequiredBefore(RollbackRequired))
  {
    assert COMMON_LIFECYCLE[1] == SourceOfTruthResolved;
    assert SourceOfTruthResolved !in [UnverifiedReport];
  }

  /** Any ordered case may be blocked where it stands with its risk, its class and its risk history wiped. */
  lemma RiskMayBeCleared(env: Environment, row: CaseRow, req: Request)
    requires OnlyMoves(env, row, req) && req.state.risk == RiskProfile(None, None, [])
    requires Ordered(Logical(row.state.position))
    requires req.state.position == InPlace(row.state.position)
    requires DeliveryGuard(DeliveryModelOf(row.state, row.state), Blocked, req.requested).Pass?
    requires req.decision == BlockedDecision && req.authorization.None?
    ensures TransitionGuard(env, row, req).Pass? && Disciplined(req)
  {
    InPlacePositions(DeliveryModelOf(row.state, row.state), row.state.position, req.requested, req.required);
    CurrentRiskPasses(env, row, req);
    UnprotectedPasses(env, row, req);
    UnauthorizedDisciplined(req);
    ClearedRiskPasses(row.state.risk, Snapshot(row), req.state);
    MovePassesGuards(env, row, req);
  }

  /** Or with the level kept and the risk history alone dropped. */
  lemma RiskHistoryMayBeDropped(env: Environment, row: CaseRow, req: Request)
    requires OnlyMoves(env, row, req) && req.state.risk == row.state.risk.(history := [])
    requires Ordered(Logical(row.state.position))
    requires req.state.position == InPlace(row.state.position)
    requires DeliveryGuard(DeliveryModelOf(row.state, row.state), Blocked, req.requested).Pass?
    requires req.decision == BlockedDecision && req.authorization.None?
    ensures TransitionGuard(env, row, req).Pass? && Disciplined(req)
  {
    InPlacePositions(DeliveryModelOf(row.state, row.state), row.state.position, req.requested, req.required);
    CurrentRiskPasses(env, row, req);
    UnprotectedPasses(env, row, req);
    UnauthorizedDisciplined(req);
    ShorterHistoryPasses(row.state.risk, Snapshot(row), req.state);
    MovePassesGuards(env, row, req);
  }

  lemma ClearedRiskPasses(current: RiskProfile, r: Record, next: Record)
    requires RiskGuard(current, r).Pass? && next.domains == r.domains && next.risk == RiskProfile(None, None, [])
    ensures RiskGuard(current, next).Pass?
  {
  }

  lemma ShorterHistoryPasses(current: RiskProfile, r: Record, next: Record)
    requires RiskGuard(current, r).Pass? && next.domains == r.domains && next.risk == r.risk.(history := [])
    ensures RiskGuard(current, next).Pass?
  {
  }

  // ---- An authorization nobody asked for ----

  lemma BlockInPlacePasses(env: Environment, row: CaseRow, req: Request)
    requires OnlyMoves(env, row, req) && req.state.risk == row.state.risk && Ordered(Logical(row.state.position))
    requires req.state.position == InPlace(row.state.position)
    requires DeliveryGuard(DeliveryModelOf(row.state, row.state), Blocked, req.requested).Pass? && req.decision == BlockedDecision
    ensures TransitionGuard(env, row, req).Pass?
  {
    InPlacePositions(DeliveryModelOf(row.state, row.state), row.state.position, req.requested, req.required);
    UnprotectedPasses(env, row, req);
    PlainMovePasses(env, row, req);
  }

  /** The store accepts an authorization with a state that takes none: blocking a case in place under one that
      names the commitment and the time of the event is appended, and no verified read follows. */
  lemma StrayAuthorizationPasses(env: Environment, l: Ledger, req: Request)
    requires req.caseId in l.cases && req.state.caseId == req.caseId && ResolveActor(env, req.actor).Pass?
    requires var row := l.cases[req.caseId];
      && row.version == req.expectedVersion && env.hash(RecordValue(row.state)) == row.currentHash
      && OnlyMoves(env, row, req) && req.state.risk == row.state.risk && Ordered(Logical(row.state.position))
      && req.state.position == InPlace(row.state.position)
      && DeliveryGuard(DeliveryModelOf(row.state, row.state), Blocked, req.requested).Pass? && req.decision == BlockedDecision
    requires req.authorization.Some? && var body := TransitionBody(env, l.cases[req.caseId].state.position.state, req);
      AppendEvent(env, l.events, body).Ok?
    ensures TransitionOutcome(env, l, req).Appended? && !Disciplined(req)
  {
    BlockInPlacePasses(env, l.cases[req.caseId], req);
    StrayUndisciplined(req);
    AppendedWhenGuarded(env, l, req);
  }

  lemma StrayUndisciplined(req: Request)
    requires req.authorization.Some? && !ProtectedState(req.state.position.state)
    ensures !Disciplined(req)
  {
  }

  lemma AppendedWhenGuarded(env: Environment, l: Ledger, req: Request)
    requires req.caseId in l.cases && req.state.caseId == req.caseId && ResolveActor(env, req.actor).Pass?
    requires var row := l.cases[req.caseId];
      && row.version == req.expectedVersion && env.hash(RecordValue(row.state)) == row.currentHash
      && TransitionGuard(env, row, req).Pass?
      && AppendEvent(env, l.events, TransitionBody(env, row.state.position.state, req)).Ok?
    ensures TransitionOutcome(env, l, req).Appended?
  {
    var body := TransitionBody(env, l.cases[req.caseId].state.position.state, req);
    assert !KeyUsed(l.events, body.key);
  }

  // ---- A block that resumes on the other lane ----

  /** A hosted case at STAGING_PASS may be blocked with CONSUMER_VALIDATION_PASS to resume at, a state of the
      package lane it never entered. */
  lemma LateralBlockPasses(env: Environment, row: CaseRow, req: Request)
    requires OnlyMoves(env, row, req) && req.state.risk == row.state.risk
    requires row.state.position.state == StagingPass && req.state.position == LATERAL_POSITION
    requires DeliveryModelOf(row.state, row.state) == HOSTED_RUNTIME_SERVICE
    requires req.requested == ReadyForOwnerRelease && req.decision == BlockedDecision && req.authorization.None?
    ensures TransitionGuard(env, row, req).Pass? && Disciplined(req)
  {
    LateralPositions(row.state.position, req.required);
    UnprotectedPasses(env, row, req);
    UnauthorizedDisciplined(req);
    PlainMovePasses(env, row, req);
  }

  /** From there a matching PROCEED to CLOSED is accepted like any other protected write. */
  lemma LateralClosePasses(env: Environment, row: CaseRow, req: Request)
    requires OnlyMoves(env, row, req) && req.state.risk == row.state.risk
    requires row.state.position == LATERAL_POSITION && req.state.position == LATERAL_CLOSED_POSITION
    requires DeliveryModelOf(row.state, row.state) == HOSTED_RUNTIME_SERVICE
    requires req.requested == Closed && req.decision == Proceed
    requires ProtectionGuard(env, row, req).Pass?
    ensures TransitionGuard(env, row, req).Pass? && Disciplined(req)
  {
    LateralClosePositions(req.required);
    PlainMovePasses(env, row, req);
  }

  const STRAIGHT_ON: seq<State> := COMMON_LIFECYCLE + [StagingPass]

  /** And so a case closes with neither lane complete: the block was not lawful, and nothing the case entered
      leads to CLOSED. */
  lemma LateralCloseSkips()
    ensures SkipsNothing(STRAIGHT_ON) && !Lawful(STRAIGHT_ON, LATERAL_POSITION) && !Led(STRAIGHT_ON + [Blocked], Closed)
    ensures !AllEntered(RELEASE_LANE, STRAIGHT_ON + [Blocked, Closed]) && !AllEntered(PACKAGE_LANE, STRAIGHT_ON + [Blocked, Closed])
  {
    StraightSkipsNothing();
    NothingLeadsToClosed();
    StraightStates(ConsumerValidationPass);
    LanesIncomplete();
  }

  lemma LanesIncomplete()
    ensures !AllEntered(RELEASE_LANE, STRAIGHT_ON + [Blocked, Closed]) && !AllEntered(PACKAGE_LANE, STRAIGHT_ON + [Blocked, Closed])
  {
    assert RELEASE_LANE[1] == ReadyForOwnerRelease && PACKAGE_LANE[0] == PackageReleased;
    StraightStates(ReadyForOwnerRelease);
    StraightStates(PackageReleased);
  }

  lemma StraightStates(s: State)
    ensures s in STRAIGHT_ON <==> 0 <= Order(s) <= Order(CiPass) || s == StagingPass
  {
    if 0 <= Order(s) <= Order(CiPass) {
      CommonPosition(s);
      assert STRAIGHT_ON[Order(s)] == s;
    } else if s == StagingPass {
      assert STRAIGHT_ON[|COMMON_LIFECYCLE|] == s;
    }
  }

  lemma NothingLeadsToClosed()
    ensures !Led(STRAIGHT_ON + [Blocked], Closed)
  {
    forall s | s in STRAIGHT_ON + [Blocked] ensures s != Closed && Closed !in AllowedTransitions(s) {
      StraightStates(s);
      SourcesInvert(s, Closed);
    }
  }

  lemma StraightSkipsNothing()
    ensures SkipsNothing(STRAIGHT_ON)
  {
    forall i | 0 <= i < |STRAIGHT_ON| ensures PresupposedAt(STRAIGHT_ON, i) {
      StraightOn(i);
    }
  }

  lemma StraightOn(i: nat)
    requires i < |STRAIGHT_ON|
    ensures PresupposedAt(STRAIGHT_ON, i)
  {
    assert forall k :: 0 <= k < |COMMON_LIFECYCLE| ==> Order(COMMON_LIFECYCLE[k]) == k;
    assert forall k :: 0 <= k < i && k < |COMMON_LIFECYCLE| ==> STRAIGHT_ON[..i][k] == COMMON_LIFECYCLE[k];
    if i > 0 {
      assert STRAIGHT_ON[i] in AllowedTransitions(STRAIGHT_ON[..i][i - 1]);
    }
  }
}
