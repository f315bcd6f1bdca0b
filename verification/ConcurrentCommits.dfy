/** What holds over every interleaving of clients: verification, serial order, no skips, risk and closure. */
module ConcurrentCommits {
  import opened Basics
  import opened States
  import opened Records
  import opened Events
  import opened Guards
  import opened SubjectUpdates
  import opened LedgerSteps
  import opened ChainVerification
  import opened StoreTheorems
  import opened StoreRuns
  import opened Authorizations
  import opened NoSkip
  import opened BugLifecycle
  import opened CommitTheorems
  import opened CommitRuns
  import opened Runs

  // ---- Verification ----

  /** An authorization handed to an accepted commit belongs to a protected state. */
  ghost predicate ActionDisciplined(env: Environment, s: System, a: Action) {
    a.CommitView? && ActionOutcome(env, s, a).Appended? && a.call.authorization.Some? ==>
      ProtectedState(ActionOutcome(env, s, a).row.state.position.state)
  }

  ghost predicate PlayDisciplined(env: Environment, s: System, actions: seq<Action>) {
    AllAlong(Acting(env), (s, a) => ActionDisciplined(env, s, a), s, actions)
  }

  lemma CommittedDisciplinedIff(env: Environment, l: Ledger, call: CommitCall)
    requires TransitionOutcome(env, l, CommitRequest(call)).Appended?
    ensures Disciplined(CommitRequest(call)) <==>
      (call.authorization.Some? ==> ProtectedState(TransitionOutcome(env, l, CommitRequest(call)).row.state.position.state))
  {
    CommitDisciplinedIff(call);
    AcceptedTransition(env, l, CommitRequest(call));
    CommitDecides(call);
  }

  lemma AcceptedDisciplinedIff(env: Environment, s: System, a: Action)
    requires Indirect(a) && ActionOutcome(env, s, a).Appended?
    ensures Requests(env, s, a)
    ensures StepDisciplined(env, s.ledger, StepOf(env, s, a)) <==> ActionDisciplined(env, s, a)
  {
    AcceptedAction(env, s, a);
    if a.CommitView? {
      AcceptedCommit(env, s, a);
      CommittedDisciplinedIff(env, s.ledger, CallOf(s, a));
    }
  }

  lemma ActVerifiesIff(env: Environment, s: System, a: Action)
    requires env.Trusted() && Consistent(env, s) && Indirect(a)
    ensures EventsOk(env, Act(env, s, a).ledger.events) <==> EventsOk(env, s.ledger.events) && ActionDisciplined(env, s, a)
  {
    if ActionOutcome(env, s, a).Appended? {
      AcceptedAction(env, s, a);
      StepVerifiesIff(env, s.ledger, StepOf(env, s, a));
      AcceptedDisciplinedIff(env, s, a);
    }
  }

  lemma PlayEventsOk(env: Environment, s: System, actions: seq<Action>)
    requires env.Trusted() && Consistent(env, s) && All(a => Indirect(a), actions)
    ensures EventsOk(env, Play(env, s, actions).ledger.events)
       <==> EventsOk(env, s.ledger.events) && PlayDisciplined(env, s, actions)
  {
    ActsKeepConsistent(env);
    forall s: System, a: Action | Consistent(env, s) && Indirect(a)
      ensures EventsOk(env, Act(env, s, a).ledger.events) <==> EventsOk(env, s.ledger.events) && ActionDisciplined(env, s, a)
    {
      ActVerifiesIff(env, s, a);
    }
    SurvivesIff(Acting(env), a => Indirect(a), s => Consistent(env, s), (s, a) => ActionDisciplined(env, s, a),
                (s: System) => EventsOk(env, s.ledger.events), s, actions);
  }

  /** Through commits and bindings one obligation is left, for genuine and made-up records and under any policy:
      the ledger verifies if and only if no accepted commit brought an authorization to an unprotected state. */
  lemma PlayVerifiesIffDisciplined(env: Environment, actions: seq<Action>)
    requires env.Trusted() && All(a => Indirect(a), actions)
    ensures ChainValid(env, Play(env, Start(env), actions).ledger) <==> PlayDisciplined(env, Start(env), actions)
  {
    PlayKeepsConsistent(env, Start(env), actions);
    TrackedRowsVerify(env, Play(env, Start(env), actions).ledger);
    PlayEventsOk(env, Start(env), actions);
  }

  // ---- No skips ----

  /** Under safe policies that never roll back RESOLVED_NO_CODE, no interleaving of commits and bindings lets a
      case skip a state. */
  lemma {:induction false} CommitsSkipNothing(env: Environment, s: System, caseId: string)
    requires env.IdealHash() && Reached(env, s) && caseId in s.ledger.cases
    ensures var states := EnteredStates(History(s.ledger.events, caseId));
      SkipsNothing(states) && Earned(states, s.ledger.cases[caseId].state.position)
  {
    ReachedInvariant(env, s);
    RowSound(env, s.ledger, caseId);
  }

  // ---- Serial commits ----

  /** A commit or a binding that was accepted. */
  ghost predicate Accepted(env: Environment, s: System, a: Action) {
    (a.CommitView? || a.BindView?) && ActionOutcome(env, s, a).Appended?
  }

  /** The version of the case a commit or a binding was computed from. */
  function BaseVersion(s: System, a: Action): Option<int>
    requires (a.CommitView? || a.BindView?) && Ready(s, a)
  {
    if a.CommitView? then Some(a.call.expectedVersion) else s.views[a.client].authority.version
  }

  /** Each accepted commit of a view was evaluated against exactly the state it replaced, however long ago it was
      read, and in every system any actions of others lead to. */
  lemma CommitsAreSerial(env: Environment, s: System, a: Action)
    requires env.IdealHash() && Reachable(env, s) && Accepted(env, s, a) && a.CommitView? && !a.edited
    ensures a.client in s.views && ActionCase(s, a) in s.ledger.cases
    ensures var row := s.ledger.cases[ActionCase(s, a)]; var view := s.views[a.client];
      && Genuine(row, view) && row.version == a.call.expectedVersion
      && (view.authority.version == Some(a.call.expectedVersion) ==> view == Snapshot(row))
  {
    ReachableConsistent(env, s);
    AcceptedCommit(env, s, a);
    CurrentViewIsGenuine(env, s.ledger, CallOf(s, a));
  }

  /** Each accepted binding rewrote exactly the row it replaced; that takes no property of the hash. */
  lemma BindingsAreSerial(env: Environment, s: System, a: Action)
    requires Reachable(env, s) && Accepted(env, s, a) && a.BindView?
    ensures a.client in s.views && ActionCase(s, a) in s.ledger.cases
    ensures s.views[a.client] == Snapshot(s.ledger.cases[ActionCase(s, a)])
  {
    ReachableConsistent(env, s);
    BoundViewIsCurrent(env, s, a);
  }

  /** An action only appends events, and touches no case but its own. */
  lemma ActFrame(env: Environment, s: System, a: Action, caseId: string)
    requires caseId in s.ledger.cases
    ensures s.ledger.events <= Act(env, s, a).ledger.events
    ensures caseId in Act(env, s, a).ledger.cases
    ensures Act(env, s, a).ledger.cases[caseId]
         == if ActionOutcome(env, s, a).Appended? && caseId == ActionCase(s, a) then ActionOutcome(env, s, a).row
            else s.ledger.cases[caseId]
  {
  }

  lemma VersionsGrow(env: Environment, earlier: Ledger, later: Ledger, caseId: string)
    requires CaseTracks(env, earlier, caseId) && CaseTracks(env, later, caseId) && earlier.events <= later.events
    ensures earlier.cases[caseId].version <= later.cases[caseId].version
  {
    HistoryOfPrefix(earlier.events, later.events, caseId);
  }

  predicate VersionNotLower(caseId: string, s: System, t: System) {
    caseId in s.ledger.cases ==>
      caseId in t.ledger.cases && s.ledger.cases[caseId].version <= t.ledger.cases[caseId].version
  }

  lemma ActVersion(env: Environment, s: System, a: Action, caseId: string)
    requires Consistent(env, s)
    ensures VersionNotLower(caseId, s, Act(env, s, a))
  {
    if caseId in s.ledger.cases {
      ActFrame(env, s, a, caseId);
      ActKeepsConsistent(env, s, a);
      VersionsGrow(env, s.ledger, Act(env, s, a).ledger, caseId);
    }
  }

  lemma VersionsNeverFall(env: Environment, s: System, actions: seq<Action>, caseId: string)
    requires Consistent(env, s)
    ensures VersionNotLower(caseId, s, Play(env, s, actions))
  {
    ActsKeepConsistent(env);
    forall s: System, a: Action | Consistent(env, s) ensures VersionNotLower(caseId, s, Act(env, s, a)) {
      ActVersion(env, s, a, caseId);
    }
    RelatedAlong(Acting(env), a => true, s => Consistent(env, s), (s, t) => VersionNotLower(caseId, s, t), s, actions);
  }

  lemma CommitAdvancesVersion(env: Environment, s: System, a: Action)
    requires Accepted(env, s, a)
    ensures Ready(s, a) && ActionCase(s, a) in s.ledger.cases && ActionCase(s, a) in Act(env, s, a).ledger.cases
    ensures BaseVersion(s, a) == Some(s.ledger.cases[ActionCase(s, a)].version)
    ensures Act(env, s, a).ledger.cases[ActionCase(s, a)].version == s.ledger.cases[ActionCase(s, a)].version + 1
  {
    if a.CommitView? {
      AcceptedCommit(env, s, a);
      AcceptedTransition(env, s.ledger, CommitRequest(CallOf(s, a)));
    } else {
      AcceptedBind(env, s, a);
      AcceptedTransition(env, s.ledger, BindRequest(env, s.views[a.client], a.bind).value);
    }
  }

  /** At most one commit or binding per version of a case: a later one, after any actions of anyone, has a later
      base. */
  lemma OneWriterPerVersion(env: Environment, s: System, first: Action, between: seq<Action>, second: Action)
    requires Reachable(env, s)
    requires Accepted(env, s, first) && Accepted(env, Play(env, Act(env, s, first), between), second)
    requires ActionCase(Play(env, Act(env, s, first), between), second) == ActionCase(s, first)
    ensures Ready(s, first) && Ready(Play(env, Act(env, s, first), between), second)
    ensures var t := Play(env, Act(env, s, first), between);
      BaseVersion(s, first).Some? && BaseVersion(t, second).Some? && BaseVersion(s, first).value < BaseVersion(t, second).value
  {
    ReachableConsistent(env, s);
    CommitAdvancesVersion(env, s, first);
    ActKeepsConsistent(env, s, first);
    VersionsNeverFall(env, Act(env, s, first), between, ActionCase(s, first));
    CommitAdvancesVersion(env, Play(env, Act(env, s, first), between), second);
  }

  /** Retrying an accepted transition never reaches the store's idempotent path: its version is stale. */
  lemma RetryIsStale(env: Environment, l: Ledger, req: Request)
    requires TransitionOutcome(env, l, req).Appended?
    ensures TransitionOutcome(env, Commit(l, req.caseId, TransitionOutcome(env, l, req)), req) == Rejected(RuntimeError)
  {
    AcceptedTransition(env, l, req);
  }

  // ---- Risk ----

  lemma UpdateKeepsRisk(env: Environment, r: Record, updates: Updates, reason: string, now: string)
    requires ApplySubjectUpdate(env, r, updates, reason, now).Ok?
    ensures ApplySubjectUpdate(env, r, updates, reason, now).value.risk == r.risk
  {
  }

  lemma GenuineCommitRisk(env: Environment, l: Ledger, call: CommitCall)
    requires TransitionOutcome(env, l, CommitRequest(call)).Appended? && call.record.caseId in l.cases
    requires Genuine(l.cases[call.record.caseId], call.record)
    ensures RiskNotLower(l.cases[call.record.caseId].state.risk, TransitionOutcome(env, l, CommitRequest(call)).row.state.risk)
  {
    AcceptedTransition(env, l, CommitRequest(call));
    CommitRisk(env, l.cases[call.record.caseId], call);
  }

  lemma BindingRisk(env: Environment, l: Ledger, req: Request, updates: Updates, reason: string, now: string)
    requires BindsSubject(env, l, req, updates, reason, now) && TransitionOutcome(env, l, req).Appended?
    ensures RiskNotLower(l.cases[req.caseId].state.risk, TransitionOutcome(env, l, req).row.state.risk)
  {
    AcceptedTransition(env, l, req);
    UpdateKeepsRisk(env, Snapshot(l.cases[req.caseId]), updates, reason, now);
  }

  lemma ExplainedRisk(env: Environment, l: Ledger, cause: Cause, outcome: Outcome)
    requires Explains(env, l, cause, outcome) && outcome.Appended? && CauseCase(cause) in l.cases
    ensures RiskNotLower(l.cases[CauseCase(cause)].state.risk, outcome.row.state.risk)
  {
    match cause
    case Opened(r, actor, key, now) => AcceptedInit(env, l, r, actor, key, now);
    case Changed(req, updates, reason, at) => BindingRisk(env, l, req, updates, reason, at);
    case Committed(call) => GenuineCommitRisk(env, l, call);
  }

  predicate CaseRiskNotLower(caseId: string, s: System, t: System) {
    caseId in s.ledger.cases ==>
      caseId in t.ledger.cases && RiskNotLower(s.ledger.cases[caseId].state.risk, t.ledger.cases[caseId].state.risk)
  }

  lemma ActRisk(env: Environment, s: System, a: Action, caseId: string)
    requires env.IdealHash() && Invariant(env, s) && Controlled(a)
    ensures CaseRiskNotLower(caseId, s, Act(env, s, a))
  {
    if caseId in s.ledger.cases {
      ActFrame(env, s, a, caseId);
      if ActionOutcome(env, s, a).Appended? && caseId == ActionCase(s, a) {
        var cause := Explanation(env, s, a);
        ExplainedRisk(env, s.ledger, cause, ActionOutcome(env, s, a));
      }
    }
  }

  lemma PlayRisk(env: Environment, s: System, actions: seq<Action>, caseId: string)
    requires env.IdealHash() && Invariant(env, s) && AllControlled(actions)
    ensures CaseRiskNotLower(caseId, s, Play(env, s, actions))
  {
    ActsKeepInvariant(env);
    forall s: System, a: Action | Invariant(env, s) && Controlled(a) ensures CaseRiskNotLower(caseId, s, Act(env, s, a)) {
      ActRisk(env, s, a, caseId);
    }
    RelatedAlong(Acting(env), a => Controlled(a), s => Invariant(env, s), (s, t) => CaseRiskNotLower(caseId, s, t), s, actions);
  }

  /** From every reachable system on: a recorded risk is never lowered or cleared, its history only grows,
      and it is never below anything that history records. */
  lemma RiskNeverFalls(env: Environment, s: System, actions: seq<Action>, caseId: string)
    requires env.IdealHash() && Reached(env, s) && AllControlled(actions) && caseId in s.ledger.cases
    ensures caseId in Play(env, s, actions).ledger.cases
    ensures var before := s.ledger.cases[caseId].state.risk; var after := Play(env, s, actions).ledger.cases[caseId].state.risk;
      RiskNotLower(before, after) && DominatesHistory(after)
  {
    ReachedInvariant(env, s);
    PlayRisk(env, s, actions, caseId);
    PlayKeepsInvariant(env, s, actions);
    assert RowLegal(Play(env, s, actions).ledger.cases[caseId]);
  }

  // ---- Terminal states ----

  lemma TerminalInvalidated(p: Position, changed: set<MaterialField>)
    requires Terminal(p.state) && TerminalMarked(p)
    ensures ProtectedState(p.state)
    ensures var q := Invalidate(p, changed); ProtectedState(q.state) || (!Terminal(q.state) && !Blank(q.closureClass))
  {
  }

  lemma GuardedUnmarked(env: Environment, row: CaseRow, req: Request)
    requires TransitionGuard(env, row, req).Pass? && !Terminal(req.state.position.state)
    ensures Blank(req.state.position.closureClass)
  {
    GuardedClosure(env, row, req);
    var next := Normalize(env, req.state);
    ClosureStaysMarked(DeliveryModelOf(next, Snapshot(row)), row.state.position.state, next.position, req.required);
  }

  lemma UnprotectedMutation(env: Environment, l: Ledger, req: Request)
    requires TransitionOutcome(env, l, req).Appended? && req.authorization.None?
    ensures !ProtectedState(req.state.position.state) && Blank(req.state.position.closureClass)
  {
    UnauthorizedIsUnprotected(env, l, req);
    AcceptedTransition(env, l, req);
    GuardedUnmarked(env, l.cases[req.caseId], req);
  }

  /** The subject of a closed or resolved case can no longer be changed, under any binding decision. */
  lemma TerminalBindingRefused(env: Environment, l: Ledger, req: Request, updates: Updates, reason: string, now: string)
    requires BindsSubject(env, l, req, updates, reason, now)
    requires Terminal(l.cases[req.caseId].state.position.state) && TerminalMarked(l.cases[req.caseId].state.position)
    ensures !TransitionOutcome(env, l, req).Appended?
  {
    if TransitionOutcome(env, l, req).Appended? {
      var r := Snapshot(l.cases[req.caseId]);
      UpdatedPosition(env, r, updates, reason, now);
      TerminalInvalidated(r.position, MaterialChanges(SubjectOf(r), SubjectOf(WithUpdates(r, updates))));
      UnprotectedMutation(env, l, req);
    }
  }

  lemma GenuineTerminalRefused(env: Environment, l: Ledger, call: CommitCall)
    requires RowsLegal(l) && call.record.caseId in l.cases && Genuine(l.cases[call.record.caseId], call.record)
    requires Terminal(l.cases[call.record.caseId].state.position.state)
    requires RollbackRequired !in call.ctx.policy.Exits(ResolvedNoCode)
    ensures !TransitionOutcome(env, l, CommitRequest(call)).Appended?
  {
    assert RowLegal(l.cases[call.record.caseId]);
    TerminalIsAbsorbing(env, l.cases[call.record.caseId], call);
    if TransitionOutcome(env, l, CommitRequest(call)).Appended? {
      AcceptedTransition(env, l, CommitRequest(call));
    }
  }

  lemma ExplainedTerminal(env: Environment, l: Ledger, cause: Cause, outcome: Outcome)
    requires RowsLegal(l) && Explains(env, l, cause, outcome)
    requires CauseCase(cause) in l.cases && Terminal(l.cases[CauseCase(cause)].state.position.state)
    ensures !outcome.Appended?
  {
    assert RowLegal(l.cases[CauseCase(cause)]);
    match cause
    case Opened(r, actor, key, now) => if outcome.Appended? { AcceptedInit(env, l, r, actor, key, now); }
    case Changed(req, updates, reason, at) => TerminalBindingRefused(env, l, req, updates, reason, at);
    case Committed(call) => GenuineTerminalRefused(env, l, call);
  }

  lemma TerminalActRefused(env: Environment, s: System, a: Action)
    requires env.IdealHash() && Invariant(env, s) && Controlled(a)
    requires ActionCase(s, a) in s.ledger.cases && Terminal(s.ledger.cases[ActionCase(s, a)].state.position.state)
    ensures !ActionOutcome(env, s, a).Appended?
  {
    if ActionOutcome(env, s, a).Appended? {
      var cause := Explanation(env, s, a);
      ExplainedTerminal(env, s.ledger, cause, ActionOutcome(env, s, a));
    }
  }

  predicate TerminalKept(caseId: string, s: System, t: System) {
    caseId in s.ledger.cases && Terminal(s.ledger.cases[caseId].state.position.state) ==>
      caseId in t.ledger.cases && t.ledger.cases[caseId] == s.ledger.cases[caseId]
  }

  lemma ActTerminal(env: Environment, s: System, a: Action, caseId: string)
    requires env.IdealHash() && Invariant(env, s) && Controlled(a)
    ensures TerminalKept(caseId, s, Act(env, s, a))
  {
    if caseId in s.ledger.cases && Terminal(s.ledger.cases[caseId].state.position.state) {
      ActFrame(env, s, a, caseId);
      if caseId == ActionCase(s, a) {
        TerminalActRefused(env, s, a);
      }
    }
  }

  lemma PlayTerminal(env: Environment, s: System, actions: seq<Action>, caseId: string)
    requires env.IdealHash() && Invariant(env, s) && AllControlled(actions)
    ensures TerminalKept(caseId, s, Play(env, s, actions))
  {
    ActsKeepInvariant(env);
    forall s: System, a: Action | Invariant(env, s) && Controlled(a) ensures TerminalKept(caseId, s, Act(env, s, a)) {
      ActTerminal(env, s, a, caseId);
    }
    RelatedAlong(Acting(env), a => Controlled(a), s => Invariant(env, s), (s, t) => TerminalKept(caseId, s, t), s, actions);
  }

  /** CLOSED and RESOLVED_NO_CODE are final: whatever anyone does, the row of such a case never changes. */
  lemma ClosedForever(env: Environment, s: System, actions: seq<Action>, caseId: string)
    requires env.IdealHash() && Reached(env, s) && AllControlled(actions)
    requires caseId in s.ledger.cases && Terminal(s.ledger.cases[caseId].state.position.state)
    ensures caseId in Play(env, s, actions).ledger.cases
    ensures Play(env, s, actions).ledger.cases[caseId] == s.ledger.cases[caseId]
  {
    ReachedInvariant(env, s);
    PlayTerminal(env, s, actions, caseId);
  }
}
