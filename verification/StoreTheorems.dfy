/** When the ledger verifies: one step, whole runs, and what a bad commit costs. */
module StoreTheorems {
  import opened Basics
  import opened States
  import opened Records
  import opened HashChain
  import opened Events
  import opened Guards
  import opened LedgerSteps
  import opened ChainVerification

  // ---- What every run keeps ----

  predicate RowTracks(env: Environment, history: seq<Event>, caseId: string, row: CaseRow) {
    && history != []
    && row.state == Last(history).body.state
    && row.currentHash == Last(history).body.recordHash
    && row.currentHash == env.hash(RecordValue(row.state))
    && row.version == |history|
    && row.state.caseId == caseId
    && row.epoch == Last(history).body.epoch
  }

  /** Every row repeats the last event of its case, and every event has a row. */
  ghost predicate Tracks(env: Environment, l: Ledger) {
    && l.binding == env.binding
    && Linked(env.Hasher(), l.events)
    && (forall c :: c in l.cases ==> RowTracks(env, History(l.events, c), c, l.cases[c]))
    && (forall i :: 0 <= i < |l.events| ==> l.events[i].body.caseId in l.cases)
  }

  lemma {:induction false} NoRowNoHistory(env: Environment, l: Ledger, events: seq<Event>, caseId: string)
    requires caseId !in l.cases
    requires forall i :: 0 <= i < |events| ==> events[i].body.caseId in l.cases
    ensures History(events, caseId) == []
  {
    if events != [] {
      NoRowNoHistory(env, l, events[..|events| - 1], caseId);
    }
  }

  lemma AppendTracks(env: Environment, l: Ledger, e: Event, row: CaseRow)
    requires Tracks(env, l)
    requires e == NextLink(env.Hasher(), l.events, e.body)
    requires row.state == e.body.state && row.currentHash == e.body.recordHash == env.hash(RecordValue(row.state))
    requires row.version == |History(l.events, e.body.caseId)| + 1 && row.state.caseId == e.body.caseId
    requires row.epoch == e.body.epoch
    ensures Tracks(env, Commit(l, e.body.caseId, Appended(e, row)))
  {
    AppendLinked(env.Hasher(), l.events, e);
    var after := Commit(l, e.body.caseId, Appended(e, row));
    forall c | c in after.cases ensures RowTracks(env, History(after.events, c), c, after.cases[c]) {
      HistoryAppend(l.events, e, c);
    }
  }

  /** What an accepted transition has been through, and the event it appends. */
  lemma AcceptedTransition(env: Environment, l: Ledger, req: Request)
    requires TransitionOutcome(env, l, req).Appended?
    ensures req.caseId in l.cases && l.cases[req.caseId].version == req.expectedVersion
    ensures TransitionGuard(env, l.cases[req.caseId], req).Pass?
    ensures TransitionOutcome(env, l, req).event
         == NextLink(env.Hasher(), l.events, TransitionBody(env, l.cases[req.caseId].state.position.state, req))
    ensures var b := TransitionOutcome(env, l, req).event.body;
      TransitionOutcome(env, l, req).row == CaseRow(req.expectedVersion + 1, b.epoch, b.state, b.recordHash)
  {
  }

  lemma AcceptedCase(env: Environment, l: Ledger, req: Request)
    requires TransitionOutcome(env, l, req).Appended?
    ensures req.state.caseId == req.caseId
  {
  }

  lemma TransitionTracks(env: Environment, l: Ledger, req: Request)
    requires Tracks(env, l)
    ensures Tracks(env, Commit(l, req.caseId, TransitionOutcome(env, l, req)))
  {
    var outcome := TransitionOutcome(env, l, req);
    if outcome.Appended? {
      AcceptedTransition(env, l, req);
      AcceptedCase(env, l, req);
      BodyParts(env, l.cases[req.caseId].state.position.state, req);
      assert RowTracks(env, History(l.events, req.caseId), req.caseId, l.cases[req.caseId]);
      AppendTracks(env, l, outcome.event, outcome.row);
    }
  }

  lemma BodyParts(env: Environment, prior: State, req: Request)
    ensures var b := TransitionBody(env, prior, req);
      b.caseId == req.caseId && b.state == Normalize(env, req.state) && b.state.caseId == req.state.caseId
      && b.recordHash == env.hash(RecordValue(b.state))
  {
  }

  lemma AcceptedInit(env: Environment, l: Ledger, r: Record, actor: Option<string>, key: Option<string>, now: string)
    requires InitOutcome(env, l, r, actor, key, now).Appended?
    ensures r.caseId !in l.cases
    ensures var outcome := InitOutcome(env, l, r, actor, key, now); var b := outcome.event.body;
      && outcome.event == NextLink(env.Hasher(), l.events, b)
      && b.caseId == r.caseId && b.state == InitialRecord(env, r) && b.state.position.state == UnverifiedReport
      && outcome.row == CaseRow(1, b.epoch, b.state, b.recordHash)
  {
  }

  lemma InitTracks(env: Environment, l: Ledger, r: Record, actor: Option<string>, key: Option<string>, now: string)
    requires Tracks(env, l)
    ensures Tracks(env, Commit(l, r.caseId, InitOutcome(env, l, r, actor, key, now)))
  {
    var outcome := InitOutcome(env, l, r, actor, key, now);
    if outcome.Appended? {
      NoRowNoHistory(env, l, l.events, r.caseId);
      AppendTracks(env, l, outcome.event, outcome.row);
    }
  }

  /** On a tracked ledger, verification is a statement about the events alone. */
  lemma TrackedRowsVerify(env: Environment, l: Ledger)
    requires Tracks(env, l)
    ensures ChainValid(env, l) <==> EventsOk(env, l.events)
  {
    forall c | c in l.cases ensures RowOk(env, History(l.events, c), l.cases[c]) {
      assert RowTracks(env, History(l.events, c), c, l.cases[c]);
    }
  }

  // ---- One transition: verification survives exactly when the caller kept two obligations ----

  /** A PROCEED that enters the state it asked for; the store does not reject any other. */
  predicate EntersRequested(req: Request) {
    req.decision == Proceed ==> req.state.position.state == req.requested
  }

  /** What `transition` leaves to its caller and `verify_event_chain` then insists on. */
  predicate Disciplined(req: Request) {
    && EntersRequested(req)
    && (req.authorization.Some? ==> ProtectedState(req.state.position.state))
  }

  /** The evidence a protected commit keeps is evidence the verifier accepts again. */
  lemma KeptEvidenceVerifies(env: Environment, row: CaseRow, req: Request)
    requires ProtectedState(req.state.position.state)
    requires EvidenceGuard(env, req, SubjectOf(Normalize(env, req.state))).Pass?
    ensures EvidenceOk(env, KeptRecords(req), req.caseId, SubjectOf(Normalize(env, req.state)), req.required, SetOf(req.accepted))
  {
    var kept := KeptRecords(req);
    forall r | r in kept ensures r in multiset(req.records) && kept[r] == 1 && r.evidenceId in req.accepted {}
    forall id | id in SetOf(req.accepted) ensures exists r :: r in kept && r.evidenceId == id {
      var r :| r in multiset(req.records) && r.evidenceId == id;
      assert r in kept;
    }
  }

  lemma OrderGuardMatches(current: Position, next: Position, requested: State, decision: Decision)
    requires TransitionDecision(decision)
    requires Authoritative(next.state) || next.state == Blocked || next.state == RollbackRequired
    requires OrderGuard(current, next, requested, decision).Pass?
    ensures decision == Proceed ==> requested in AllowedTransitions(Logical(current))
    ensures decision == BlockedDecision ==> next.state == Blocked
    ensures decision == RollbackDecision ==> next.state == RollbackRequired
    ensures BindingDecision(decision) ==> next.state == current.state || next.state == Blocked || next.state == RollbackRequired
  {
  }

  lemma SnapshotKeepsSubject(env: Environment, row: CaseRow, next: Record)
    ensures SubjectOf(Snapshot(row)) == SubjectOf(row.state)
    ensures EpochStepOk(env, Snapshot(row), next) == EpochStepOk(env, row.state, next)
  {
  }

  lemma GuardParts(env: Environment, row: CaseRow, req: Request)
    requires TransitionGuard(env, row, req).Pass?
    ensures var current := Snapshot(row); var next := Normalize(env, req.state);
      && (Authoritative(next.position.state) || next.position.state == Blocked || next.position.state == RollbackRequired)
      && TransitionDecision(req.decision)
      && EpochStepOk(env, current, next)
      && OrderGuard(current.position, next.position, req.requested, req.decision).Pass?
      && ProtectionGuard(env, row, req).Pass?
  {
  }

  lemma CommittedProtection(env: Environment, row: CaseRow, req: Request, version: int, prevHash: Digest)
    requires ProtectionGuard(env, row, req).Pass?
    requires row.version == req.expectedVersion == version && prevHash == row.currentHash
    ensures Protection(env, version, prevHash, TransitionBody(env, row.state.position.state, req))
        <==> (req.authorization.Some? ==> ProtectedState(req.state.position.state))
  {
    var b := TransitionBody(env, row.state.position.state, req);
    if ProtectedState(req.state.position.state) {
      KeptEvidenceVerifies(env, row, req);
      assert EventClaim(env, version, prevHash, b) == ExpectedClaim(env, row, req);
    }
  }

  lemma CommittedFollows(env: Environment, row: CaseRow, req: Request)
    requires TransitionGuard(env, row, req).Pass?
    ensures FollowsHistory(env, row.state, TransitionBody(env, row.state.position.state, req))
        <==> EntersRequested(req)
  {
    GuardParts(env, row, req);
    var next := Normalize(env, req.state);
    SnapshotKeepsSubject(env, row, next);
    OrderGuardMatches(Snapshot(row).position, next.position, req.requested, req.decision);
  }

  /** The body an accepted transition appends verifies exactly when the request is disciplined. */
  lemma CommittedBodyOk(env: Environment, history: seq<Event>, row: CaseRow, req: Request)
    requires env.Trusted() && RowTracks(env, history, req.caseId, row)
    requires row.version == req.expectedVersion && TransitionGuard(env, row, req).Pass?
    ensures BodyOk(env, history, TransitionBody(env, row.state.position.state, req)) <==> Disciplined(req)
  {
    GuardParts(env, row, req);
    CommittedProtection(env, row, req, |history|, Last(history).body.recordHash);
    CommittedFollows(env, row, req);
    assert SelfConsistent(env, TransitionBody(env, row.state.position.state, req));
  }

  /** An accepted transition leaves a verified ledger verified if and only if it was disciplined. */
  lemma TransitionVerifiesIffDisciplined(env: Environment, l: Ledger, req: Request)
    requires env.Trusted() && Tracks(env, l) && ChainValid(env, l)
    requires TransitionOutcome(env, l, req).Appended?
    ensures ChainValid(env, Commit(l, req.caseId, TransitionOutcome(env, l, req))) <==> Disciplined(req)
  {
    AcceptedTransition(env, l, req);
    var e := TransitionOutcome(env, l, req).event;
    TransitionTracks(env, l, req);
    TrackedRowsVerify(env, Commit(l, req.caseId, TransitionOutcome(env, l, req)));
    EventsOkAppend(env, l.events, e);
    CommittedBodyOk(env, History(l.events, req.caseId), l.cases[req.caseId], req);
  }
}
