/** Concurrent clients that read, evaluate and commit lifecycle transitions through the controller. */
module CommitRuns {
  import opened Basics
  import opened States
  import opened Records
  import opened Events
  import opened Guards
  import opened SubjectUpdates
  import opened LedgerSteps
  import opened ChainVerification
  import opened StoreTheorems
  import opened StoreRuns
  import opened VerifiedLedgers
  import opened Authorizations
  import opened NoSkip
  import opened BugLifecycle
  import opened CommitTheorems
  import opened Runs

  /** The store, and the snapshot each client last read. */
  datatype System = System(ledger: Ledger, views: map<string, Record>)

  /** One atomic action. A commit evaluates the view its client holds, however old that is, or a record the
      client made up; a binding rewrites the subject of the view. */
  datatype Action =
    | StoreCall(step: Step)
    | ReadCase(client: string, caseId: string)
    | CommitView(client: string, call: CommitCall, edited: bool)
    | BindView(client: string, bind: BindCall)

  /** The client holds the record the action works on. */
  predicate Ready(s: System, a: Action) {
    match a
    case CommitView(client, _, edited) => edited || client in s.views
    case BindView(client, _) => client in s.views
    case _ => true
  }

  function CallOf(s: System, a: Action): CommitCall
    requires a.CommitView? && Ready(s, a)
  {
    if a.edited then a.call else a.call.(record := s.views[a.client])
  }

  function ActionCase(s: System, a: Action): string {
    match a
    case StoreCall(step) => CaseOf(step)
    case ReadCase(_, c) => c
    case CommitView(_, _, _) => if Ready(s, a) then CallOf(s, a).record.caseId else ""
    case BindView(client, _) => if client in s.views then s.views[client].caseId else ""
  }

  /** A commit first takes a verified read of the case. */
  ghost function ActionOutcome(env: Environment, s: System, a: Action): Outcome {
    match a
    case StoreCall(step) => StepOutcome(env, s.ledger, step)
    case ReadCase(_, _) => Replayed
    case CommitView(_, _, _) =>
      if Ready(s, a) && ChainValid(env, s.ledger) then CommitOutcome(env, s.ledger, CallOf(s, a)) else Rejected(RuntimeError)
    case BindView(client, bind) =>
      if client in s.views then BindOutcome(env, s.ledger, s.views[client], bind) else Rejected(KeyError)
  }

  ghost function Act(env: Environment, s: System, a: Action): System {
    if a.ReadCase? then
      if a.caseId in s.ledger.cases then s.(views := s.views[a.client := Snapshot(s.ledger.cases[a.caseId])]) else s
    else s.(ledger := Commit(s.ledger, ActionCase(s, a), ActionOutcome(env, s, a)))
  }

  ghost function Start(env: Environment): System { System(EmptyLedger(env), map[]) }

  ghost function Acting(env: Environment): (System, Action) -> System { (s, a) => Act(env, s, a) }

  /** Where a run of actions leads from a given system. */
  ghost function Play(env: Environment, s: System, actions: seq<Action>): System {
    RunOf(Acting(env), s, actions)
  }

  /** No transition but through commits and bindings. */
  predicate Indirect(a: Action) { a.StoreCall? ==> !a.step.TransitionStep? }

  /** Commits evaluate what was read, under policies in which RESOLVED_NO_CODE does not roll back. */
  predicate Controlled(a: Action) {
    Indirect(a) && (a.CommitView? ==> !a.edited && RollbackRequired !in a.call.ctx.policy.Exits(ResolvedNoCode))
  }

  ghost predicate AllControlled(actions: seq<Action>) {
    All(a => Controlled(a), actions)
  }

  // ---- The call of the store an accepted action amounts to ----

  ghost predicate Requests(env: Environment, s: System, a: Action) {
    !a.ReadCase? && Ready(s, a) && (a.BindView? ==> BindRequest(env, s.views[a.client], a.bind).Ok?)
  }

  ghost function StepOf(env: Environment, s: System, a: Action): Step
    requires Requests(env, s, a)
  {
    match a
    case StoreCall(step) => step
    case CommitView(_, _, _) => TransitionStep(CommitRequest(CallOf(s, a)))
    case BindView(client, bind) => TransitionStep(BindRequest(env, s.views[client], bind).value)
  }

  lemma CommittedCall(env: Environment, l: Ledger, call: CommitCall)
    requires CommitOutcome(env, l, call).Appended?
    ensures var c := call.record.caseId;
      c in l.cases && Current(l.cases[c], call) && CommitRequest(call).caseId == c
    ensures CommitOutcome(env, l, call) == TransitionOutcome(env, l, CommitRequest(call))
  {
  }

  lemma BoundCall(env: Environment, l: Ledger, view: Record, bind: BindCall)
    requires BindOutcome(env, l, view, bind).Appended?
    ensures BindRequest(env, view, bind).Ok? && BindRequest(env, view, bind).value.caseId == view.caseId
    ensures BindOutcome(env, l, view, bind) == TransitionOutcome(env, l, BindRequest(env, view, bind).value)
  {
  }

  lemma AcceptedCommit(env: Environment, s: System, a: Action)
    requires a.CommitView? && ActionOutcome(env, s, a).Appended?
    ensures Ready(s, a) && ChainValid(env, s.ledger)
    ensures var call := CallOf(s, a); var c := call.record.caseId;
      && c in s.ledger.cases && Current(s.ledger.cases[c], call) && CommitRequest(call).caseId == c
      && ActionOutcome(env, s, a) == TransitionOutcome(env, s.ledger, CommitRequest(call))
  {
    CommittedCall(env, s.ledger, CallOf(s, a));
  }

  lemma AcceptedBind(env: Environment, s: System, a: Action)
    requires a.BindView? && ActionOutcome(env, s, a).Appended?
    ensures a.client in s.views && BindRequest(env, s.views[a.client], a.bind).Ok?
    ensures var req := BindRequest(env, s.views[a.client], a.bind).value;
      req.caseId == s.views[a.client].caseId && ActionOutcome(env, s, a) == TransitionOutcome(env, s.ledger, req)
  {
    BoundCall(env, s.ledger, s.views[a.client], a.bind);
  }

  lemma CommitRequests(env: Environment, s: System, a: Action)
    requires a.CommitView? && ActionOutcome(env, s, a).Appended?
    ensures Requests(env, s, a) && CaseOf(StepOf(env, s, a)) == ActionCase(s, a)
    ensures ActionOutcome(env, s, a) == StepOutcome(env, s.ledger, StepOf(env, s, a))
  {
    AcceptedCommit(env, s, a);
  }

  lemma BindRequests(env: Environment, s: System, a: Action)
    requires a.BindView? && ActionOutcome(env, s, a).Appended?
    ensures Requests(env, s, a) && CaseOf(StepOf(env, s, a)) == ActionCase(s, a)
    ensures ActionOutcome(env, s, a) == StepOutcome(env, s.ledger, StepOf(env, s, a))
  {
    AcceptedBind(env, s, a);
  }

  lemma AcceptedAction(env: Environment, s: System, a: Action)
    requires ActionOutcome(env, s, a).Appended?
    ensures Requests(env, s, a) && CaseOf(StepOf(env, s, a)) == ActionCase(s, a)
    ensures ActionOutcome(env, s, a) == StepOutcome(env, s.ledger, StepOf(env, s, a))
    ensures Act(env, s, a) == System(Next(env, s.ledger, StepOf(env, s, a)), s.views)
  {
    match a
    case StoreCall(_) =>
    case ReadCase(_, _) =>
    case CommitView(_, _, _) => CommitRequests(env, s, a);
    case BindView(_, _) => BindRequests(env, s, a);
  }

  // ---- What every run keeps ----

  predicate RowLegal(row: CaseRow) {
    PositionLegal(row.state.position) && TerminalMarked(row.state.position) && DominatesHistory(row.state.risk)
  }

  ghost predicate RowsLegal(l: Ledger) {
    forall c :: c in l.cases ==> RowLegal(l.cases[c])
  }

  function RowAt(history: seq<Event>, n: nat): CaseRow
    requires 0 < n <= |history|
  {
    var b := history[n - 1].body;
    CaseRow(n, b.epoch, b.state, b.recordHash)
  }

  /** A view is the snapshot of some version of its case. */
  predicate ViewOk(events: seq<Event>, v: Record) {
    var history := History(events, v.caseId);
    v.authority.version.Some? && 0 < v.authority.version.value <= |history|
      && v == Snapshot(RowAt(history, v.authority.version.value))
  }

  ghost predicate ViewsOk(s: System) {
    forall client :: client in s.views ==> ViewOk(s.ledger.events, s.views[client])
  }

  /** What every action keeps, also direct transitions and commits of made-up records. */
  ghost predicate Consistent(env: Environment, s: System) { Tracks(env, s.ledger) && ViewsOk(s) }

  ghost predicate Invariant(env: Environment, s: System) {
    Consistent(env, s) && RowsLegal(s.ledger) && AllSound(s.ledger)
  }

  lemma ViewStaysOk(earlier: seq<Event>, later: seq<Event>, v: Record)
    requires earlier <= later && ViewOk(earlier, v)
    ensures ViewOk(later, v)
  {
    HistoryOfPrefix(earlier, later, v.caseId);
  }

  lemma FreshViewOk(env: Environment, l: Ledger, caseId: string)
    requires CaseTracks(env, l, caseId)
    ensures ViewOk(l.events, Snapshot(l.cases[caseId]))
  {
  }

  // ---- A commit that is accepted was evaluated against the state it replaces ----

  /** The snapshot differs from the row at most in the authority markers the store strips and adds. */
  predicate Genuine(row: CaseRow, v: Record) {
    v.(authority := row.state.authority) == row.state
  }

  /** The staleness check compares a version and a hash; with an ideal hash that is enough. */
  lemma CurrentViewIsGenuine(env: Environment, l: Ledger, call: CommitCall)
    requires env.IdealHash() && EventsOk(env, l.events)
    requires ViewOk(l.events, call.record) && CaseTracks(env, l, call.record.caseId)
    requires Current(l.cases[call.record.caseId], call)
    ensures Genuine(l.cases[call.record.caseId], call.record)
    ensures call.record.authority.version == Some(call.expectedVersion) ==> call.record == Snapshot(l.cases[call.record.caseId])
  {
    var c := call.record.caseId;
    var history := History(l.events, c);
    var n := call.record.authority.version.value;
    HistoriesVerify(env, l.events, c);
    assert CaseVerifiedAt(env, history, n - 1);
    assert env.SameHash(RecordValue(history[n - 1].body.state), RecordValue(l.cases[c].state));
  }

  lemma AcceptedCommitGenuine(env: Environment, s: System, a: Action)
    requires env.IdealHash() && Consistent(env, s) && a.CommitView? && !a.edited && ActionOutcome(env, s, a).Appended?
    ensures a.client in s.views && s.views[a.client].caseId in s.ledger.cases
    ensures Genuine(s.ledger.cases[s.views[a.client].caseId], s.views[a.client])
  {
    AcceptedCommit(env, s, a);
    CurrentViewIsGenuine(env, s.ledger, CallOf(s, a));
  }

  lemma VersionIsCurrent(env: Environment, l: Ledger, view: Record)
    requires Tracks(env, l) && ViewOk(l.events, view) && view.caseId in l.cases
    requires view.authority.version == Some(l.cases[view.caseId].version)
    ensures view == Snapshot(l.cases[view.caseId])
  {
    assert RowTracks(env, History(l.events, view.caseId), view.caseId, l.cases[view.caseId]);
  }

  lemma BoundVersion(env: Environment, l: Ledger, view: Record, bind: BindCall)
    requires BindOutcome(env, l, view, bind).Appended?
    ensures view.caseId in l.cases && view.authority.version == Some(l.cases[view.caseId].version)
  {
    BoundCall(env, l, view, bind);
    AcceptedTransition(env, l, BindRequest(env, view, bind).value);
  }

  /** A binding is accepted only at the version it was computed from, so its view is the row itself. */
  lemma BoundView(env: Environment, l: Ledger, view: Record, bind: BindCall)
    requires Tracks(env, l) && ViewOk(l.events, view) && BindOutcome(env, l, view, bind).Appended?
    ensures view.caseId in l.cases && view == Snapshot(l.cases[view.caseId])
  {
    BoundVersion(env, l, view, bind);
    VersionIsCurrent(env, l, view);
  }

  lemma BoundViewIsCurrent(env: Environment, s: System, a: Action)
    requires Consistent(env, s) && a.BindView? && ActionOutcome(env, s, a).Appended?
    ensures a.client in s.views && s.views[a.client].caseId in s.ledger.cases
    ensures s.views[a.client] == Snapshot(s.ledger.cases[s.views[a.client].caseId])
  {
    BoundView(env, s.ledger, s.views[a.client], a.bind);
  }

  lemma BoundSubject(env: Environment, l: Ledger, view: Record, bind: BindCall)
    requires Tracks(env, l) && ViewOk(l.events, view) && BindOutcome(env, l, view, bind).Appended?
    ensures BindRequest(env, view, bind).Ok?
    ensures BindsSubject(env, l, BindRequest(env, view, bind).value, bind.updates, bind.reason, bind.now)
  {
    BoundCall(env, l, view, bind);
    BoundView(env, l, view, bind);
  }

  // ---- What an accepted action amounts to ----

  /** A case is opened, its subject is changed as it stands, or a genuine view of it is committed. */
  datatype Cause =
    | Opened(record: Record, actor: Option<string>, key: Option<string>, now: string)
    | Changed(req: Request, updates: Updates, reason: string, at: string)
    | Committed(call: CommitCall)

  function CauseCase(cause: Cause): string {
    match cause
    case Opened(r, _, _, _) => r.caseId
    case Changed(req, _, _, _) => req.caseId
    case Committed(call) => call.record.caseId
  }

  predicate Explains(env: Environment, l: Ledger, cause: Cause, outcome: Outcome) {
    match cause
    case Opened(r, actor, key, now) => outcome == InitOutcome(env, l, r, actor, key, now)
    case Changed(req, updates, reason, at) =>
      BindsSubject(env, l, req, updates, reason, at) && outcome == TransitionOutcome(env, l, req)
    case Committed(call) =>
      && call.record.caseId in l.cases && Genuine(l.cases[call.record.caseId], call.record)
      && RollbackRequired !in call.ctx.policy.Exits(ResolvedNoCode)
      && outcome == TransitionOutcome(env, l, CommitRequest(call))
  }

  lemma ExplainCommit(env: Environment, s: System, a: Action) returns (cause: Cause)
    requires env.IdealHash() && Consistent(env, s) && Controlled(a) && a.CommitView? && ActionOutcome(env, s, a).Appended?
    ensures Explains(env, s.ledger, cause, ActionOutcome(env, s, a)) && CauseCase(cause) == ActionCase(s, a)
    ensures cause.Committed? && Ready(s, a) && cause.call == CallOf(s, a)
  {
    AcceptedCommitGenuine(env, s, a);
    AcceptedCommit(env, s, a);
    cause := Committed(CallOf(s, a));
  }

  lemma ExplainBound(env: Environment, l: Ledger, view: Record, bind: BindCall) returns (cause: Cause)
    requires Tracks(env, l) && ViewOk(l.events, view) && BindOutcome(env, l, view, bind).Appended?
    ensures cause.Changed? && BindRequest(env, view, bind) == Ok(cause.req) && cause.req.caseId == view.caseId
    ensures Explains(env, l, cause, BindOutcome(env, l, view, bind))
  {
    BoundCall(env, l, view, bind);
    BoundSubject(env, l, view, bind);
    cause := Changed(BindRequest(env, view, bind).value, bind.updates, bind.reason, bind.now);
  }

  lemma ExplainBind(env: Environment, s: System, a: Action) returns (cause: Cause)
    requires Consistent(env, s) && a.BindView? && ActionOutcome(env, s, a).Appended?
    ensures Explains(env, s.ledger, cause, ActionOutcome(env, s, a)) && CauseCase(cause) == ActionCase(s, a)
    ensures cause.Changed? && a.client in s.views && BindRequest(env, s.views[a.client], a.bind) == Ok(cause.req)
  {
    cause := ExplainBound(env, s.ledger, s.views[a.client], a.bind);
  }

  lemma ExplainStep(env: Environment, l: Ledger, step: Step) returns (cause: Cause)
    requires !step.TransitionStep? && StepOutcome(env, l, step).Appended?
    ensures Explains(env, l, cause, StepOutcome(env, l, step)) && CauseCase(cause) == CaseOf(step) && !cause.Committed?
  {
    match step
    case InitStep(r, actor, key, now) => cause := Opened(r, actor, key, now);
    case MutateStep(_, updates, reason, _, _, now) =>
      MutationBinds(env, l, step);
      cause := Changed(MutationRequestOf(env, l, step), updates, reason, now);
  }

  lemma Explanation(env: Environment, s: System, a: Action) returns (cause: Cause)
    requires env.IdealHash() && Consistent(env, s) && Controlled(a) && ActionOutcome(env, s, a).Appended?
    ensures Explains(env, s.ledger, cause, ActionOutcome(env, s, a)) && CauseCase(cause) == ActionCase(s, a)
    ensures Requests(env, s, a)
    ensures StepOf(env, s, a).TransitionStep? ==>
      StepOf(env, s, a) == TransitionStep(if cause.Committed? then CommitRequest(cause.call) else if cause.Changed? then cause.req else StepOf(env, s, a).req)
    ensures StepOf(env, s, a).TransitionStep? ==> !cause.Opened?
  {
    match a
    case StoreCall(step) => cause := ExplainStep(env, s.ledger, step);
    case CommitView(_, _, _) => cause := ExplainCommit(env, s, a);
    case BindView(_, _) => cause := ExplainBind(env, s, a);
  }

  // ---- One action ----

  lemma CommitRowLegal(env: Environment, row: CaseRow, call: CommitCall, updated: CaseRow)
    requires Genuine(row, call.record) && TransitionGuard(env, row, CommitRequest(call)).Pass?
    requires updated.state == Normalize(env, CommitRequest(call).state)
    ensures RowLegal(updated)
  {
    GuardedPositionLegal(env, row, CommitRequest(call));
    CommitMarksTerminal(call);
    CommitRisk(env, row, call);
  }

  lemma MutationRowLegal(env: Environment, row: CaseRow, req: Request, updated: CaseRow)
    requires TransitionGuard(env, row, req).Pass? && !ProtectedState(req.state.position.state)
    requires updated.state == Normalize(env, req.state)
    ensures RowLegal(updated)
  {
    GuardedPositionLegal(env, row, req);
    GuardedRisk(env, row, req);
    RiskGuardMonotone(row.state.risk, Normalize(env, req.state));
  }

  lemma InitRowLegal(env: Environment, r: Record, actor: Option<string>, row: CaseRow)
    requires InitGuard(env, r, actor).Pass? && row.state == InitialRecord(env, r)
    ensures RowLegal(row)
  {
    RiskGuardMonotone(RiskProfile(None, None, []), r);
  }

  lemma GenuineCommitLegal(env: Environment, l: Ledger, call: CommitCall)
    requires TransitionOutcome(env, l, CommitRequest(call)).Appended? && call.record.caseId in l.cases
    requires Genuine(l.cases[call.record.caseId], call.record)
    ensures RowLegal(TransitionOutcome(env, l, CommitRequest(call)).row)
  {
    AcceptedTransition(env, l, CommitRequest(call));
    CommitRowLegal(env, l.cases[call.record.caseId], call, TransitionOutcome(env, l, CommitRequest(call)).row);
  }

  lemma BindingRowLegal(env: Environment, l: Ledger, req: Request)
    requires TransitionOutcome(env, l, req).Appended? && req.authorization.None?
    ensures RowLegal(TransitionOutcome(env, l, req).row)
  {
    AcceptedTransition(env, l, req);
    UnauthorizedIsUnprotected(env, l, req);
    MutationRowLegal(env, l.cases[req.caseId], req, TransitionOutcome(env, l, req).row);
  }

  lemma OpenedRowLegal(env: Environment, l: Ledger, cause: Cause, outcome: Outcome)
    requires cause.Opened? && Explains(env, l, cause, outcome) && outcome.Appended?
    ensures RowLegal(outcome.row)
  {
    AcceptedInit(env, l, cause.record, cause.actor, cause.key, cause.now);
    OpeningGuarded(env, l, cause.record, cause.actor, cause.key, cause.now);
    InitRowLegal(env, cause.record, cause.actor, outcome.row);
  }

  lemma OpeningGuarded(env: Environment, l: Ledger, r: Record, actor: Option<string>, key: Option<string>, now: string)
    requires InitOutcome(env, l, r, actor, key, now).Appended?
    ensures InitGuard(env, r, actor).Pass?
  {
  }

  lemma ExplainedLegal(env: Environment, l: Ledger, cause: Cause, outcome: Outcome)
    requires Explains(env, l, cause, outcome) && outcome.Appended?
    ensures RowLegal(outcome.row)
  {
    match cause
    case Opened(_, _, _, _) => OpenedRowLegal(env, l, cause, outcome);
    case Changed(req, _, _, _) => BindingRowLegal(env, l, req);
    case Committed(call) => GenuineCommitLegal(env, l, call);
  }

  // ---- An accepted action matches and is lawful ----

  lemma GenuineCommitLawful(env: Environment, l: Ledger, call: CommitCall)
    requires Tracks(env, l) && AllSound(l) && TransitionOutcome(env, l, CommitRequest(call)).Appended?
    requires call.record.caseId in l.cases && RowLegal(l.cases[call.record.caseId])
    requires Genuine(l.cases[call.record.caseId], call.record)
    requires RollbackRequired !in call.ctx.policy.Exits(ResolvedNoCode)
    ensures EntersRequested(CommitRequest(call))
    ensures Lawful(EnteredStates(History(l.events, call.record.caseId)),
                   TransitionOutcome(env, l, CommitRequest(call)).row.state.position)
  {
    RowSound(env, l, call.record.caseId);
    CommitOrderly(call);
    CommitDisciplinedIff(call.(authorization := None));
    AcceptedOrderlyIsLawful(env, l, CommitRequest(call));
  }

  lemma BindingLawful(env: Environment, l: Ledger, req: Request, updates: Updates, reason: string, now: string)
    requires Tracks(env, l) && AllSound(l)
    requires BindsSubject(env, l, req, updates, reason, now) && TransitionOutcome(env, l, req).Appended?
    ensures EntersRequested(req)
    ensures Lawful(EnteredStates(History(l.events, req.caseId)), TransitionOutcome(env, l, req).row.state.position)
  {
    RowSound(env, l, req.caseId);
    BindingOrderly(env, l, req, updates, reason, now);
    AcceptedOrderlyIsLawful(env, l, req);
  }

  lemma ExplainedLawful(env: Environment, l: Ledger, cause: Cause, outcome: Outcome)
    requires Tracks(env, l) && AllSound(l) && RowsLegal(l) && Explains(env, l, cause, outcome) && outcome.Appended?
    ensures cause.Changed? ==> EntersRequested(cause.req)
    ensures cause.Committed? ==> EntersRequested(CommitRequest(cause.call))
    ensures CauseCase(cause) in l.cases ==>
      Lawful(EnteredStates(History(l.events, CauseCase(cause))), outcome.row.state.position)
  {
    match cause
    case Opened(r, actor, key, now) => AcceptedInit(env, l, r, actor, key, now);
    case Changed(req, updates, reason, at) => BindingLawful(env, l, req, updates, reason, at);
    case Committed(call) =>
      assert RowLegal(l.cases[call.record.caseId]);
      GenuineCommitLawful(env, l, call);
  }

  lemma AcceptedLawful(env: Environment, s: System, a: Action)
    requires env.IdealHash() && Invariant(env, s) && Controlled(a) && ActionOutcome(env, s, a).Appended?
    ensures Requests(env, s, a) && StepMatching(env, s.ledger, StepOf(env, s, a)) && StepLawful(env, s.ledger, StepOf(env, s, a))
  {
    AcceptedAction(env, s, a);
    var cause := Explanation(env, s, a);
    ExplainedLawful(env, s.ledger, cause, ActionOutcome(env, s, a));
  }

  lemma AppendedKeepsInvariant(env: Environment, s: System, a: Action)
    requires env.IdealHash() && Invariant(env, s) && Controlled(a) && ActionOutcome(env, s, a).Appended?
    ensures RowsLegal(Act(env, s, a).ledger) && AllSound(Act(env, s, a).ledger)
  {
    AcceptedLawful(env, s, a);
    AcceptedAction(env, s, a);
    var step := StepOf(env, s, a);
    var cause := Explanation(env, s, a);
    ExplainedLegal(env, s.ledger, cause, ActionOutcome(env, s, a));
    StepKeepsLegal(env, s.ledger, step);
    StepSoundIff(env, s.ledger, step);
  }

  lemma ActKeepsConsistent(env: Environment, s: System, a: Action)
    requires Consistent(env, s)
    ensures Consistent(env, Act(env, s, a))
  {
    if a.ReadCase? {
      if a.caseId in s.ledger.cases {
        FreshViewOk(env, s.ledger, a.caseId);
      }
    } else if ActionOutcome(env, s, a).Appended? {
      AcceptedAction(env, s, a);
      var step := StepOf(env, s, a);
      StepGrows(env, s.ledger, step);
      NextTracks(env, s.ledger, step);
      ViewsStayOk(s, System(Next(env, s.ledger, step), s.views));
    }
  }

  lemma StepKeepsLegal(env: Environment, l: Ledger, step: Step)
    requires RowsLegal(l) && StepOutcome(env, l, step).Appended? && RowLegal(StepOutcome(env, l, step).row)
    ensures RowsLegal(Next(env, l, step))
  {
  }

  lemma StepGrows(env: Environment, l: Ledger, step: Step)
    ensures l.events <= Next(env, l, step).events
  {
  }

  lemma ActKeepsInvariant(env: Environment, s: System, a: Action)
    requires env.IdealHash() && Invariant(env, s) && Controlled(a)
    ensures Invariant(env, Act(env, s, a))
  {
    ActKeepsConsistent(env, s, a);
    if ActionOutcome(env, s, a).Appended? {
      AppendedKeepsInvariant(env, s, a);
    }
  }

  lemma ViewsStayOk(s: System, after: System)
    requires ViewsOk(s) && after.views == s.views && s.ledger.events <= after.ledger.events
    ensures ViewsOk(after)
  {
    forall client | client in after.views ensures ViewOk(after.ledger.events, after.views[client]) {
      ViewStaysOk(s.ledger.events, after.ledger.events, s.views[client]);
    }
  }

  lemma ActsKeepInvariant(env: Environment)
    requires env.IdealHash()
    ensures Keeps(Acting(env), a => Controlled(a), s => Invariant(env, s))
  {
    forall s: System, a: Action | Invariant(env, s) && Controlled(a) ensures Invariant(env, Act(env, s, a)) {
      ActKeepsInvariant(env, s, a);
    }
  }

  lemma PlayKeepsInvariant(env: Environment, s: System, actions: seq<Action>)
    requires env.IdealHash() && Invariant(env, s) && AllControlled(actions)
    ensures Invariant(env, Play(env, s, actions))
  {
    ActsKeepInvariant(env);
    InvariantAlong(Acting(env), a => Controlled(a), s => Invariant(env, s), s, actions);
  }

  lemma ActsKeepConsistent(env: Environment)
    ensures Keeps(Acting(env), a => true, s => Consistent(env, s))
  {
    forall s: System, a: Action | Consistent(env, s) ensures Consistent(env, Act(env, s, a)) {
      ActKeepsConsistent(env, s, a);
    }
  }

  lemma PlayKeepsConsistent(env: Environment, s: System, actions: seq<Action>)
    requires Consistent(env, s)
    ensures Consistent(env, Play(env, s, actions))
  {
    ActsKeepConsistent(env);
    InvariantAlong(Acting(env), a => true, s => Consistent(env, s), s, actions);
  }

  /** The systems that some run of any actions of any clients leads to, and those of controlled actions. */
  ghost predicate Reachable(env: Environment, s: System) {
    exists actions :: s == Play(env, Start(env), actions)
  }

  ghost predicate Reached(env: Environment, s: System) {
    exists actions :: AllControlled(actions) && s == Play(env, Start(env), actions)
  }

  lemma ReachableConsistent(env: Environment, s: System)
    requires Reachable(env, s)
    ensures Consistent(env, s)
  {
    var actions :| s == Play(env, Start(env), actions);
    PlayKeepsConsistent(env, Start(env), actions);
  }

  lemma ReachedInvariant(env: Environment, s: System)
    requires env.IdealHash() && Reached(env, s)
    ensures Invariant(env, s)
  {
    var actions :| AllControlled(actions) && s == Play(env, Start(env), actions);
    assert Invariant(env, Start(env));
    PlayKeepsInvariant(env, Start(env), actions);
  }
}
