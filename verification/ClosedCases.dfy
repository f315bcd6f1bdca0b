/** How a case leaves CLOSED. */
module ClosedCases {
  import opened States
  import opened Records
  import opened Events
  import opened Guards
  import opened LedgerSteps
  import opened StoreTheorems
  import opened StoreRuns
  import opened Runs

  predicate ClosedIn(l: Ledger, caseId: string) { caseId in l.cases && l.cases[caseId].state.position.state == Closed }

  lemma ClosedExit(current: Position, next: Position, requested: State, decision: Decision)
    requires current.state == Closed && OrderGuard(current, next, requested, decision).Pass?
    requires Authoritative(next.state) || next.state == Blocked || next.state == RollbackRequired
    ensures next.state == Closed || next.state == Blocked || next.state == RollbackRequired
    ensures next.state == Closed ==> BindingDecision(decision)
  {
  }

  /** An accepted transition of a closed case keeps it closed under a binding decision, or writes BLOCKED or
      ROLLBACK_REQUIRED. */
  lemma ClosedLeaves(env: Environment, l: Ledger, req: Request)
    requires ClosedIn(l, req.caseId) && TransitionOutcome(env, l, req).Appended?
    ensures var state := TransitionOutcome(env, l, req).row.state.position.state;
      state == Blocked || state == RollbackRequired || (state == Closed && BindingDecision(req.decision))
  {
    AcceptedTransition(env, l, req);
    GuardParts(env, l.cases[req.caseId], req);
    ClosedExit(Snapshot(l.cases[req.caseId]).position, Normalize(env, req.state).position, req.requested, req.decision);
  }

  /** A direct transition that is accepted and writes BLOCKED or ROLLBACK_REQUIRED for this case. */
  ghost predicate Reopens(env: Environment, l: Ledger, step: Step, caseId: string) {
    step.TransitionStep? && CaseOf(step) == caseId && StepOutcome(env, l, step).Appended? &&
    var state := StepOutcome(env, l, step).row.state.position.state; state == Blocked || state == RollbackRequired
  }

  lemma ClosedCall(env: Environment, l: Ledger, step: Step)
    requires ClosedIn(l, CaseOf(step)) && StepOutcome(env, l, step).Appended?
    ensures step.TransitionStep?
    ensures var state := StepOutcome(env, l, step).row.state.position.state; state == Blocked || state == RollbackRequired || state == Closed
  {
    match step
    case InitStep(r, actor, key, now) => AcceptedInit(env, l, r, actor, key, now);
    case TransitionStep(req) => ClosedLeaves(env, l, req);
    case MutateStep(_, _, _, _, _, _) => PostProductionMutationRefused(env, l, step);
  }

  lemma ClosedStep(env: Environment, l: Ledger, step: Step, caseId: string)
    requires ClosedIn(l, caseId)
    ensures ClosedIn(Next(env, l, step), caseId) <==> !Reopens(env, l, step, caseId)
  {
    if CaseOf(step) == caseId && StepOutcome(env, l, step).Appended? {
      ClosedCall(env, l, step);
    }
  }

  /** A closed case stays closed through a run of calls if and only if no direct transition of it that writes
      BLOCKED or ROLLBACK_REQUIRED is accepted on the way. */
  lemma ClosedThroughoutIff(env: Environment, l: Ledger, steps: seq<Step>, caseId: string)
    requires ClosedIn(l, caseId)
    ensures Throughout(Stepping(env), l => ClosedIn(l, caseId), l, steps)
       <==> AllAlong(Stepping(env), (l, step) => !Reopens(env, l, step, caseId), l, steps)
  {
    forall l: Ledger, step: Step | ClosedIn(l, caseId)
      ensures ClosedIn(Next(env, l, step), caseId) <==> !Reopens(env, l, step, caseId)
    {
      ClosedStep(env, l, step, caseId);
    }
    ThroughoutIff(Stepping(env), (l, step) => !Reopens(env, l, step, caseId),
                  l => ClosedIn(l, caseId), l, steps);
  }
}
