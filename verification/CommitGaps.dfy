/** What a commit may do under a policy that rolls RESOLVED_NO_CODE back, which the validator accepts. */
module CommitGaps {
  import opened States
  import opened Records
  import opened Events
  import opened Guards
  import opened LedgerSteps
  import opened NoSkip
  import opened GuardGaps
  import opened BugLifecycle
  import opened CommitTheorems

  lemma RecordedEntryPasses(current: RiskProfile, r: Record, next: Record, entry: RiskEntry)
    requires RiskGuard(current, r).Pass? && r.risk == current && next.domains == r.domains
    requires next.risk == current.(history := current.history + [entry]) && entry.level == current.level
    ensures RiskGuard(current, next).Pass?
  {
    forall i | 0 <= i < |next.risk.history| ensures KnownLevel(next.risk.history[i].level) {
      assert i < |current.history| ==> next.risk.history[i] == current.history[i];
    }
    assert DominatesHistory(next.risk) by {
      assert forall i :: 0 <= i < |current.history| ==> next.risk.history[i] == current.history[i];
    }
  }

  lemma RollbackPositions(resolved: Position, next: Position, model: string, required: set<string>)
    requires resolved.state == ResolvedNoCode && model != PACKAGE_OR_PLUGIN
    requires next.state == RollbackRequired && next.finalState.None? && next.closureClass.None?
    ensures PositionsPass(model, resolved, next, RollbackRequired, RollbackDecision, required)
    ensures !Orderly(resolved, next)
  {
  }

  lemma RollbackProposal(call: CommitCall)
    requires call.target == RollbackRequired && Evaluate(call.ctx, call.record, call.target).allowed && call.ctx.problem.None?
    ensures var req := CommitRequest(call); var next := req.state.position;
      && req.requested == RollbackRequired && req.decision == RollbackDecision
      && next.state == RollbackRequired && next.finalState.None? && next.closureClass.None?
      && Model(call.record) != PACKAGE_OR_PLUGIN
      && req.state.domains == call.record.domains
      && req.state.risk == call.record.risk.(history := call.record.risk.history + [RiskEntry(call.record.risk.level, call.record.risk.cls, call.target)])
  {
  }

  /** The failing commit: where the policy lets RESOLVED_NO_CODE roll back, an allowed evaluation rolls back a case
      resolved without code, the store accepts it like any other protected write, and no production release was
      ever entered. */
  lemma NoCodeRollbackPasses(env: Environment, row: CaseRow, call: CommitCall, states: seq<State>)
    requires row.state.position.state == ResolvedNoCode && call.record == Snapshot(row)
    requires call.target == RollbackRequired && Evaluate(call.ctx, call.record, call.target).allowed && call.ctx.problem.None?
    requires OnlyMoves(env, row, CommitRequest(call)) && ProtectionGuard(env, row, CommitRequest(call)).Pass?
    requires ProductionReleased !in states
    ensures RollbackRequired in call.ctx.policy.Exits(ResolvedNoCode)
    ensures TransitionGuard(env, row, CommitRequest(call)).Pass?
    ensures !Orderly(row.state.position, CommitRequest(call).state.position) && !Lawful(states, CommitRequest(call).state.position)
  {
    var req := CommitRequest(call);
    RollbackProposal(call);
    AllowedMeans(call.ctx, call.record, call.target);
    RollbackPositions(row.state.position, req.state.position, DeliveryModelOf(row.state, row.state), req.required);
    assert RiskGuard(row.state.risk, Snapshot(row)).Pass?;
    RecordedEntryPasses(row.state.risk, Snapshot(row), req.state, RiskEntry(row.state.risk.level, row.state.risk.cls, call.target));
    MovePassesGuards(env, row, req);
  }
}
