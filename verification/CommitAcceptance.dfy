/** Which proposals of an evaluator the store takes, of a case as it stands. */
module CommitAcceptance {
  import opened Basics
  import opened States
  import opened Records
  import opened Events
  import opened Guards
  import opened LedgerSteps
  import opened GuardGaps
  import opened PolicySafety
  import opened BugLifecycle
  import opened EvaluationRules
  import opened StoreRules
  import opened CommitTheorems

  function DeliveryOf(r: Record): Option<string> { Lookup(r.subject.material, DeliveryModel) }

  predicate Hybrid(r: Record) { DeliveryOf(r) == Some("HYBRID") }

  /** The commit is of the case as it stands, and nothing is wrong with its subject, its risk and its signature. */
  predicate CommitsRow(env: Environment, row: CaseRow, call: CommitCall) {
    && PositionLegal(row.state.position) && call.record == Snapshot(row) && OnlyMoves(env, row, CommitRequest(call))
    && RiskGuard(row.state.risk, CommitRequest(call).state).Pass? && ProtectionGuard(env, row, CommitRequest(call)).Pass?
  }

  /** Of a move, the guards are those of its positions. */
  lemma MovePassesIff(env: Environment, row: CaseRow, req: Request)
    requires OnlyMoves(env, row, req) && RiskGuard(row.state.risk, req.state).Pass? && ProtectionGuard(env, row, req).Pass?
    requires Authoritative(req.state.position.state) ==> req.state.position.lastCompleted == Some(req.state.position.state)
    ensures TransitionGuard(env, row, req).Pass? <==> MovesPass(row, req)
  {
    MovePassesSubject(env, row, req);
    assert Normalize(env, req.state).position == req.state.position;
  }

  lemma ModelOfRow(row: CaseRow)
    ensures IsModel(DeliveryModelOf(row.state, row.state), DeliveryOf(row.state))
  {
  }

  // ---- Allowed targets ----

  /** The exits of ROLLBACK_REQUIRED and RESOLVED_NO_CODE, the two that no validator bounds, are those of the store. */
  predicate StoreExit(at: State, target: State) {
    && (at == RollbackRequired ==> target == ChangePlanned || target == Closed || target == RollbackRequired)
    && (at == ResolvedNoCode ==> target == RollbackRequired)
  }

  predicate AllowedFits(r: Record, target: State, required: set<string>) {
    && (Authoritative(target) || target == RollbackRequired)
    && OnLane(DeliveryOf(r), target) && StoreExit(r.position.state, target)
    && (target == Closed && Hybrid(r) ==> r.position.state != Blocked)
    && (target == ResolvedNoCode ==> "RESOLVED_NO_CODE_PROVEN" in required)
  }

  lemma OtherExits(at: State, target: State)
    requires at == RollbackRequired || at == ResolvedNoCode
    ensures Authoritative(target) ==> (target in AllowedTransitions(at) <==> StoreExit(at, target))
  {
  }

  lemma PolicyExits(p: Policy, at: State, target: State)
    requires Safe(p) && Ordered(at) && target in p.Exits(at) && Authoritative(target)
    ensures target in AllowedTransitions(at)
  {
    SafePolicyRefinesStore(p, at);
  }

  lemma OrderedExit(p: Position, target: State)
    requires Ordered(Logical(p))
    ensures StoreExit(p.state, target)
  {
  }

  lemma UnorderedPlace(p: Position)
    requires PositionLegal(p) && !Ordered(Logical(p))
    ensures Logical(p) == p.state && (p.state == RollbackRequired || p.state == ResolvedNoCode)
  {
  }

  lemma ExitsFit(policy: Policy, p: Position, target: State)
    requires Safe(policy) && PositionLegal(p) && target in policy.Exits(Logical(p)) && Authoritative(target)
    ensures target in AllowedTransitions(Logical(p)) <==> StoreExit(p.state, target)
  {
    if Ordered(Logical(p)) {
      PolicyExits(policy, Logical(p), target);
      OrderedExit(p, target);
    } else {
      UnorderedPlace(p);
      OtherExits(p.state, target);
    }
  }

  lemma AllowedOrder(p: Position, ctx: Context, r: Record, target: State)
    requires PositionLegal(p) && r.position == p && Evaluate(ctx, r, target).allowed && Authoritative(target)
    ensures target in AllowedTransitions(Logical(p)) <==> StoreExit(p.state, target)
  {
    LogicalAgrees(p);
    AllowedMeans(ctx, r, target);
    ExitsFit(ctx.policy, p, target);
  }

  /** The position an allowed evaluation proposes. */
  predicate Enters(r: Record, next: Position, target: State) {
    && next.state == target && next.lastCompleted == Some(target) && next.closureClass == ClosureOf(r, target)
    && next.finalState == (if target == Closed || target == ResolvedNoCode then Some(target) else None)
  }

  lemma EntersOrder(current: Position, next: Position, target: State)
    requires next.state == target && next.lastCompleted == Some(target) && (Authoritative(target) || target == RollbackRequired)
    ensures OrderGuard(current, next, target, if target == RollbackRequired then RollbackDecision else Proceed).Pass?
       <==> (Authoritative(target) ==> target in AllowedTransitions(Logical(current)))
  {
  }

  lemma EntersClosed(r: Record, current: State, model: string, next: Position, target: State, required: set<string>)
    requires Enters(r, next, target) && r.position.state == current
    requires IsModel(model, DeliveryOf(r))
    requires target == Closed && current != RollbackRequired && current != Blocked ==>
      current == if PackageOnly(r) then ConsumerValidationPass else PostDeployVerified
    ensures ClosureGuard(model, current, next, required).Pass? <==>
      && (target == Closed && Hybrid(r) ==> current != Blocked)
      && (target == ResolvedNoCode ==> "RESOLVED_NO_CODE_PROVEN" in required)
  {
    ModelIs(r);
  }

  lemma AllowedProposal(call: CommitCall)
    requires Evaluate(call.ctx, call.record, call.target).allowed
    ensures var req := CommitRequest(call);
      && Enters(call.record, req.state.position, call.target) && req.requested == call.target
      && req.decision == (if call.target == RollbackRequired then RollbackDecision else Proceed)
      && req.required == Asked(call.ctx, call.record, call.target).required
  {
  }

  /** An allowed target that is on no rollback of a package, and closes where it may. */
  lemma AllowedShape(ctx: Context, r: Record, target: State)
    requires PositionLegal(r.position) && Evaluate(ctx, r, target).allowed
    ensures PackageOnly(r) ==> target != RollbackRequired
    ensures target == Closed && r.position.state != RollbackRequired && r.position.state != Blocked ==>
      r.position.state == if PackageOnly(r) then ConsumerValidationPass else PostDeployVerified
    ensures Authoritative(target) ==>
      (target in AllowedTransitions(Logical(r.position)) <==> StoreExit(r.position.state, target))
    ensures target == RollbackRequired ==> StoreExit(r.position.state, target)
  {
    AllowedIff(ctx, r, target);
    if Authoritative(target) {
      AllowedOrder(r.position, ctx, r, target);
    }
  }

  lemma AllowedPositions(model: string, ctx: Context, r: Record, next: Position, target: State, required: set<string>)
    requires IsModel(model, DeliveryOf(r)) && PositionLegal(r.position) && Evaluate(ctx, r, target).allowed && Enters(r, next, target)
    ensures PositionsPass(model, r.position, next, target, if target == RollbackRequired then RollbackDecision else Proceed, required)
       <==> AllowedFits(r, target, required)
  {
    AllowedShape(ctx, r, target);
    DeliveryIff(model, DeliveryOf(r), target, target);
    EntersClosed(r, r.position.state, model, next, target, required);
    if Authoritative(target) || target == RollbackRequired {
      EntersOrder(r.position, next, target);
    }
  }

  /** Of a case as it stands, the store takes an allowed target exactly when it is on a lane of the delivery and along
      an exit of the store, a hybrid case is not closed out of a block, and a resolution without code has its proof
      among the required evidence. */
  lemma AllowedPassesIff(env: Environment, row: CaseRow, call: CommitCall)
    requires CommitsRow(env, row, call) && Evaluate(call.ctx, call.record, call.target).allowed
    ensures TransitionGuard(env, row, CommitRequest(call)).Pass? <==>
      AllowedFits(row.state, call.target, Asked(call.ctx, call.record, call.target).required)
  {
    var req := CommitRequest(call);
    AllowedProposal(call);
    MovePassesIff(env, row, req);
    ModelOfRow(row);
    AllowedPositions(DeliveryModelOf(row.state, row.state), call.ctx, call.record, req.state.position, call.target, req.required);
  }

  lemma CloseFits(r: Record, target: State, required: set<string>)
    requires target == Closed && (r.position.state == RollbackRequired || !Terminal(r.position.state))
    ensures AllowedFits(r, target, required) <==> !(Hybrid(r) && r.position.state == Blocked)
  {
  }

  lemma ClosesOpenCase(ctx: Context, r: Record, target: State)
    requires PositionLegal(r.position) && Evaluate(ctx, r, target).allowed && target == Closed
    ensures !Terminal(r.position.state)
  {
    AllowedShape(ctx, r, target);
  }

  /** So every allowed close passes, except of a hybrid case out of a block: that one the evaluator allows and the
      store refuses. */
  lemma AllowedClosePassesIff(env: Environment, row: CaseRow, call: CommitCall)
    requires CommitsRow(env, row, call) && Evaluate(call.ctx, call.record, call.target).allowed && call.target == Closed
    ensures TransitionGuard(env, row, CommitRequest(call)).Pass? <==> !(Hybrid(row.state) && row.state.position.state == Blocked)
  {
    AllowedPassesIff(env, row, call);
    ClosesOpenCase(call.ctx, call.record, call.target);
    CloseFits(row.state, call.target, Asked(call.ctx, call.record, call.target).required);
  }

  // ---- Refused targets ----

  predicate RefusedFits(r: Record, target: State, decision: Decision) {
    && (Authoritative(target) || (target == RollbackRequired && decision == RollbackDecision))
    && OnLane(DeliveryOf(r), target) && (PackageOnly(r) ==> decision != RollbackDecision && target != RollbackRequired)
    && Blank(r.position.closureClass)
    && (decision == BlockedDecision ==> Ordered(Logical(r.position)))
  }

  /** The position a refused evaluation proposes. */
  predicate Stays(p: Position, next: Position, decision: Decision) {
    && next.state == (if decision == RollbackDecision then RollbackRequired else Blocked)
    && next.resume == Some(Logical(p)) && next.closureClass == p.closureClass && next.finalState.None?
  }

  /** The request records a refused target. */
  predicate Refuses(req: Request, p: Position, target: State, decision: Decision) {
    && (decision == RollbackDecision || decision == BlockedDecision)
    && Stays(p, req.state.position, decision) && req.requested == target
    && req.decision == (if target == RollbackRequired then RollbackDecision else decision)
  }

  lemma RefusedProposes(call: CommitCall)
    requires !Evaluate(call.ctx, call.record, call.target).allowed && PositionLegal(call.record.position)
    ensures Refuses(CommitRequest(call), call.record.position, call.target, Evaluate(call.ctx, call.record, call.target).decision)
  {
    LogicalAgrees(call.record.position);
    RefusedDecision(call.ctx, call.record, call.target);
  }

  lemma StaysPasses(model: string, current: Position, next: Position, target: State, decision: Decision, required: set<string>)
    requires Stays(current, next, decision) && (decision == RollbackDecision || decision == BlockedDecision)
    ensures OrderGuard(current, next, target, if target == RollbackRequired then RollbackDecision else decision).Pass?
       <==> decision == RollbackDecision || (target != RollbackRequired && Ordered(Logical(current)))
    ensures ClosureGuard(model, current.state, next, required).Pass? <==> Blank(current.closureClass)
  {
  }

  lemma RefusedPositions(model: string, r: Record, next: Position, target: State, decision: Decision, required: set<string>)
    requires IsModel(model, DeliveryOf(r)) && Stays(r.position, next, decision) && (decision == RollbackDecision || decision == BlockedDecision)
    ensures PositionsPass(model, r.position, next, target, if target == RollbackRequired then RollbackDecision else decision, required)
       <==> RefusedFits(r, target, decision)
  {
    DeliveryIff(model, DeliveryOf(r), next.state, target);
    StaysPasses(model, r.position, next, target, decision, required);
  }

  lemma RefusalMoves(row: CaseRow, req: Request, target: State, decision: Decision)
    requires Refuses(req, row.state.position, target, decision)
    ensures !Authoritative(req.state.position.state)
    ensures MovesPass(row, req) <==> RefusedFits(row.state, target, decision)
  {
    ModelOfRow(row);
    RefusedPositions(DeliveryModelOf(row.state, row.state), row.state, req.state.position, target, decision, req.required);
  }

  lemma RefusalPasses(env: Environment, row: CaseRow, req: Request, target: State, decision: Decision)
    requires OnlyMoves(env, row, req) && RiskGuard(row.state.risk, req.state).Pass? && ProtectionGuard(env, row, req).Pass?
    requires Refuses(req, row.state.position, target, decision)
    ensures TransitionGuard(env, row, req).Pass? <==> RefusedFits(row.state, target, decision)
  {
    RefusalMoves(row, req, target, decision);
    MovePassesIff(env, row, req);
  }

  /** A refused target is recorded, as a block or a rollback, exactly when the target itself is one the store knows
      on a lane of the delivery, the case is not terminal, and a block has a place to resume at. */
  lemma RefusedPassesIff(env: Environment, row: CaseRow, call: CommitCall)
    requires CommitsRow(env, row, call) && !Evaluate(call.ctx, call.record, call.target).allowed
    ensures TransitionGuard(env, row, CommitRequest(call)).Pass? <==>
      RefusedFits(row.state, call.target, Evaluate(call.ctx, call.record, call.target).decision)
  {
    RefusedProposes(call);
    RefusalPasses(env, row, CommitRequest(call), call.target, Evaluate(call.ctx, call.record, call.target).decision);
  }
}
