/** How a case says it was closed: what one accepted call, every run, and every interleaving of clients ensure. */
module ClosureClasses {
  import opened Basics
  import opened States
  import opened Records
  import opened Events
  import opened Guards
  import opened LedgerSteps
  import opened StoreTheorems
  import opened StoreRuns
  import opened NoSkip
  import opened BugLifecycle
  import opened EvaluationRules
  import opened StoreRules
  import opened CommitTheorems
  import opened CommitRuns
  import opened Runs

  // ---- What the store ensures ----

  /** A record written after one in state `before` names its end as it must. */
  predicate NamesEnd(before: State, after: Record, required: set<string>) {
    EndFits(Lookup(after.subject.material, DeliveryModel), before, after.position, required)
  }

  lemma GuardedEnd(before: Record, after: Record, required: set<string>)
    requires ClosureGuard(DeliveryModelOf(after, before), before.position.state, after.position, required).Pass?
    ensures NamesEnd(before.position.state, after, required)
  {
    DeliveryModelIs(before, after);
    EndIff(DeliveryModelOf(after, before), Delivers(before, after), before.position.state, after.position, required);
  }

  lemma WrittenEnd(env: Environment, prior: State, req: Request)
    ensures var b := TransitionBody(env, prior, req); b.state == Normalize(env, req.state) && b.required == req.required
  {
  }

  /** Whatever accepted transition writes a record, out of whatever state, names its end so. */
  lemma AcceptedEnd(env: Environment, l: Ledger, req: Request)
    requires TransitionOutcome(env, l, req).Appended?
    ensures req.caseId in l.cases
    ensures var outcome := TransitionOutcome(env, l, req);
      && outcome.row.state == outcome.event.body.state && outcome.event.body.caseId == req.caseId
      && NamesEnd(l.cases[req.caseId].state.position.state, outcome.row.state, outcome.event.body.required)
  {
    AcceptedTransition(env, l, req);
    var row, next := l.cases[req.caseId], Normalize(env, req.state);
    WrittenEnd(env, row.state.position.state, req);
    GuardedClosure(env, row, req);
    GuardedEnd(Snapshot(row), next, req.required);
  }

  predicate EndNamedAt(history: seq<Event>, i: nat)
    requires 0 < i < |history|
  {
    NamesEnd(history[i - 1].body.state.position.state, history[i].body.state, history[i].body.required)
  }

  /** Every event of a case but its first. */
  predicate EndsNamed(history: seq<Event>) {
    forall i :: 0 < i < |history| ==> EndNamedAt(history, i)
  }

  ghost predicate AllEndsNamed(l: Ledger) { forall c :: c in l.cases ==> EndsNamed(History(l.events, c)) }

  lemma EndsNamedAppend(history: seq<Event>, e: Event)
    requires EndsNamed(history)
    requires history != [] ==> NamesEnd(Last(history).body.state.position.state, e.body.state, e.body.required)
    ensures EndsNamed(history + [e])
  {
    var longer := history + [e];
    forall i | 0 < i < |longer| ensures EndNamedAt(longer, i) {
      assert longer[i - 1] == history[i - 1];
      if i < |history| {
        assert longer[i] == history[i] && EndNamedAt(history, i);
      } else {
        assert longer[i] == e;
      }
    }
  }

  lemma AppendedEnds(env: Environment, l: Ledger, e: Event, row: CaseRow)
    requires Tracks(env, l) && AllEndsNamed(l)
    requires e.body.caseId in l.cases ==> NamesEnd(l.cases[e.body.caseId].state.position.state, e.body.state, e.body.required)
    ensures AllEndsNamed(Commit(l, e.body.caseId, Appended(e, row)))
  {
    var after := Commit(l, e.body.caseId, Appended(e, row));
    forall c | c in after.cases ensures EndsNamed(History(after.events, c)) {
      HistoryAppend(l.events, e, c);
      if c !in l.cases {
        NoRowNoHistory(env, l, l.events, c);
      } else if c == e.body.caseId {
        assert RowTracks(env, History(l.events, c), c, l.cases[c]);
        EndsNamedAppend(History(l.events, c), e);
      }
    }
  }

  /** The event of an accepted call names the end of its own case. */
  predicate EventNamesEnd(l: Ledger, e: Event, caseId: string) {
    && e.body.caseId == caseId
    && (caseId in l.cases ==> NamesEnd(l.cases[caseId].state.position.state, e.body.state, e.body.required))
  }

  lemma MutationEnd(env: Environment, l: Ledger, step: Step)
    requires step.MutateStep? && StepOutcome(env, l, step).Appended?
    ensures EventNamesEnd(l, StepOutcome(env, l, step).event, CaseOf(step))
  {
    MutationIsTransition(env, l, step);
    AcceptedEnd(env, l, MutationRequestOf(env, l, step));
  }

  lemma StepEnd(env: Environment, l: Ledger, step: Step)
    requires StepOutcome(env, l, step).Appended?
    ensures EventNamesEnd(l, StepOutcome(env, l, step).event, CaseOf(step))
  {
    match step
    case InitStep(r, actor, key, now) => AcceptedInit(env, l, r, actor, key, now);
    case TransitionStep(req) => AcceptedEnd(env, l, req);
    case MutateStep(_, _, _, _, _, _) => MutationEnd(env, l, step);
  }

  lemma StepNamesEnds(env: Environment, l: Ledger, step: Step)
    requires Tracks(env, l) && AllEndsNamed(l)
    ensures AllEndsNamed(Next(env, l, step))
  {
    if StepOutcome(env, l, step).Appended? {
      StepEnd(env, l, step);
      AppendedEnds(env, l, StepOutcome(env, l, step).event, StepOutcome(env, l, step).row);
    }
  }

  /** After any run of calls, every event of every case but its first names the end of the case so. */
  lemma RunNamesEnds(env: Environment, steps: seq<Step>, caseId: string)
    requires caseId in Run(env, steps).cases
    ensures EndsNamed(History(Run(env, steps).events, caseId))
  {
    forall l: Ledger, step: Step | Tracks(env, l) && AllEndsNamed(l)
      ensures Tracks(env, Next(env, l, step)) && AllEndsNamed(Next(env, l, step))
    {
      NextTracks(env, l, step);
      StepNamesEnds(env, l, step);
    }
    InvariantAlong(Stepping(env), step => true, l => Tracks(env, l) && AllEndsNamed(l), EmptyLedger(env), steps);
  }

  // ---- What the committer adds ----

  /** A closed case went through the state its class stands for, and a package is never closed as a code fix. */
  predicate ClassEarned(states: seq<State>, r: Record) {
    r.position.state == Closed ==>
      || (r.position.closureClass == Some("CODE_FIX") && PostDeployVerified in states && !PackageOnly(r))
      || (r.position.closureClass == Some("PACKAGE_RELEASE") && ConsumerValidationPass in states && PackageOnly(r))
      || (r.position.closureClass == Some("ROLLBACK_CLOSURE") && RollbackRequired in states && !PackageOnly(r))
  }

  lemma ProposedClass(ctx: Context, r: Record, target: State, states: seq<State>)
    requires PositionLegal(r.position) && Earned(states, r.position)
    requires Evaluate(ctx, r, target).allowed && target == Closed
    ensures ClassEarned(states, Advance(ctx, r, target))
  {
    AllowedIff(ctx, r, target);
    LogicalAgrees(r.position);
    ProposedPosition(ctx, r, target);
    ModelIs(r);
  }

  lemma CommittedClass(call: CommitCall, states: seq<State>)
    requires PositionLegal(call.record.position) && Earned(states, call.record.position)
    ensures ClassEarned(states, CommitRequest(call).state)
  {
    CommitDecides(call);
    ProposedPosition(call.ctx, call.record, call.target);
    if CommitRequest(call).state.position.state == Closed {
      ProposedClass(call.ctx, call.record, call.target, states);
    }
  }

  lemma WrittenClass(env: Environment, l: Ledger, req: Request, states: seq<State>)
    requires TransitionOutcome(env, l, req).Appended? && ClassEarned(states, req.state)
    ensures ClassEarned(states, TransitionOutcome(env, l, req).row.state)
  {
    AcceptedTransition(env, l, req);
    WrittenEnd(env, l.cases[req.caseId].state.position.state, req);
  }

  lemma GenuineCommitClass(env: Environment, l: Ledger, call: CommitCall)
    requires Tracks(env, l) && AllSound(l) && TransitionOutcome(env, l, CommitRequest(call)).Appended?
    requires call.record.caseId in l.cases && RowLegal(l.cases[call.record.caseId])
    requires Genuine(l.cases[call.record.caseId], call.record)
    ensures ClassEarned(EnteredStates(History(l.events, call.record.caseId)), TransitionOutcome(env, l, CommitRequest(call)).row.state)
  {
    var states := EnteredStates(History(l.events, call.record.caseId));
    RowSound(env, l, call.record.caseId);
    CommittedClass(call, states);
    WrittenClass(env, l, CommitRequest(call), states);
  }

  lemma UnprotectedClass(env: Environment, l: Ledger, req: Request, states: seq<State>)
    requires TransitionOutcome(env, l, req).Appended? && req.authorization.None?
    ensures ClassEarned(states, TransitionOutcome(env, l, req).row.state)
  {
    UnauthorizedIsUnprotected(env, l, req);
    AcceptedTransition(env, l, req);
  }

  lemma ExplainedClass(env: Environment, l: Ledger, cause: Cause, outcome: Outcome)
    requires Tracks(env, l) && AllSound(l) && RowsLegal(l) && Explains(env, l, cause, outcome) && outcome.Appended?
    ensures ClassEarned(EnteredStates(History(l.events, CauseCase(cause))), outcome.row.state)
  {
    match cause
    case Opened(r, actor, key, now) => AcceptedInit(env, l, r, actor, key, now);
    case Changed(req, _, _, _) => UnprotectedClass(env, l, req, EnteredStates(History(l.events, req.caseId)));
    case Committed(call) =>
      assert RowLegal(l.cases[call.record.caseId]);
      GenuineCommitClass(env, l, call);
  }

  ghost predicate ClassesEarned(l: Ledger) {
    forall c :: c in l.cases ==> ClassEarned(EnteredStates(History(l.events, c)), l.cases[c].state)
  }

  lemma ClassStaysEarned(history: seq<Event>, e: Event, r: Record)
    requires ClassEarned(EnteredStates(history), r)
    ensures ClassEarned(EnteredStates(history + [e]), r)
  {
    EnteredStatesAppend(history, e);
  }

  lemma AppendedClasses(l: Ledger, e: Event, row: CaseRow)
    requires ClassesEarned(l) && ClassEarned(EnteredStates(History(l.events, e.body.caseId)), row.state)
    ensures ClassesEarned(Commit(l, e.body.caseId, Appended(e, row)))
  {
    var after := Commit(l, e.body.caseId, Appended(e, row));
    forall c | c in after.cases ensures ClassEarned(EnteredStates(History(after.events, c)), after.cases[c].state) {
      HistoryAppend(l.events, e, c);
      if c == e.body.caseId {
        ClassStaysEarned(History(l.events, c), e, row.state);
      }
    }
  }

  lemma ActClasses(env: Environment, s: System, a: Action)
    requires env.IdealHash() && Invariant(env, s) && Controlled(a) && ClassesEarned(s.ledger)
    ensures ClassesEarned(Act(env, s, a).ledger)
  {
    if ActionOutcome(env, s, a).Appended? {
      var cause := Explanation(env, s, a);
      AcceptedAction(env, s, a);
      StepEnd(env, s.ledger, StepOf(env, s, a));
      ExplainedClass(env, s.ledger, cause, ActionOutcome(env, s, a));
      AppendedClasses(s.ledger, ActionOutcome(env, s, a).event, ActionOutcome(env, s, a).row);
    }
  }

  ghost predicate Delivered(env: Environment, s: System) { Invariant(env, s) && ClassesEarned(s.ledger) }

  /** Through commits and bindings of any clients, a closed case is closed as a code fix only after POST_DEPLOY_VERIFIED,
      as a package release only after CONSUMER_VALIDATION_PASS and only a package, and otherwise after a rollback. */
  lemma ClosedAsDelivered(env: Environment, s: System, caseId: string)
    requires env.IdealHash() && Reached(env, s) && caseId in s.ledger.cases
    ensures ClassEarned(EnteredStates(History(s.ledger.events, caseId)), s.ledger.cases[caseId].state)
  {
    var actions :| AllControlled(actions) && s == Play(env, Start(env), actions);
    forall s: System, a: Action | Delivered(env, s) && Controlled(a) ensures Delivered(env, Act(env, s, a)) {
      ActKeepsInvariant(env, s, a);
      ActClasses(env, s, a);
    }
    assert Delivered(env, Start(env));
    InvariantAlong(Acting(env), a => Controlled(a), s => Delivered(env, s), Start(env), actions);
  }
}
