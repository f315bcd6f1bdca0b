/** The evidence references of a case: archived when its subject changes, added to by commits, and never lost. */
module EvidenceTrail {
  import opened Basics
  import opened States
  import opened Records
  import opened Events
  import opened Guards
  import opened SubjectUpdates
  import opened LedgerSteps
  import opened StoreTheorems
  import opened GuardGaps
  import opened BugLifecycle
  import opened CommitTheorems
  import opened CommitRuns
  import opened ConcurrentCommits
  import opened Runs

  /** The references of one type. */
  function Held(refs: References, kind: string): set<string> { if kind in refs then refs[kind] else {} }

  /** The archive of every type is now the old archive together with what was current, and nothing is current. */
  ghost predicate Archived(before: Evidenced, after: Evidenced) {
    after.current == map[] && forall t :: Held(after.historical, t) == Held(before.historical, t) + Held(before.current, t)
  }

  /** The archive is as it was, and no current reference is gone. */
  ghost predicate OnlyAdded(before: Evidenced, after: Evidenced) {
    after.historical == before.historical && forall t :: Held(before.current, t) <= Held(after.current, t)
  }

  // ---- A change of the subject ----

  lemma UpdatedEvidence(env: Environment, r: Record, updates: Updates, reason: string, now: string)
    requires ApplySubjectUpdate(env, r, updates, reason, now).Ok?
    ensures ApplySubjectUpdate(env, r, updates, reason, now).value.evidence
         == if MaterialChanges(SubjectOf(r), SubjectOf(WithUpdates(r, updates))) == {} then r.evidence
            else Evidenced(map[], Archive(r.evidence.current, r.evidence.historical))
  {
  }

  lemma ArchiveHolds(before: Evidenced)
    ensures Archived(before, Evidenced(map[], Archive(before.current, before.historical)))
  {
    var archive := Archive(before.current, before.historical);
    forall t ensures Held(archive, t) == Held(before.historical, t) + Held(before.current, t) {}
  }

  /** An update archives exactly if it changes the material of the subject, and otherwise leaves the evidence alone. */
  lemma UpdateArchivesIff(env: Environment, r: Record, updates: Updates, reason: string, now: string)
    requires ApplySubjectUpdate(env, r, updates, reason, now).Ok?
    ensures var after := ApplySubjectUpdate(env, r, updates, reason, now).value;
      if SubjectOf(WithUpdates(r, updates)).material != SubjectOf(r).material then Archived(r.evidence, after.evidence)
      else after.evidence == r.evidence
  {
    UpdatedEvidence(env, r, updates, reason, now);
    ArchiveHolds(r.evidence);
  }

  lemma WrittenEvidence(env: Environment, l: Ledger, req: Request)
    requires TransitionOutcome(env, l, req).Appended?
    ensures req.caseId in l.cases && TransitionOutcome(env, l, req).row.state.evidence == req.state.evidence
  {
    AcceptedTransition(env, l, req);
  }

  /** The same of the row of the case: an accepted mutation or binding archives exactly if it changes the material. */
  lemma BindingArchivesIff(env: Environment, l: Ledger, req: Request, updates: Updates, reason: string, now: string)
    requires BindsSubject(env, l, req, updates, reason, now) && TransitionOutcome(env, l, req).Appended?
    ensures var before := l.cases[req.caseId].state; var after := TransitionOutcome(env, l, req).row.state;
      if SubjectOf(WithUpdates(before, updates)).material != SubjectOf(before).material then Archived(before.evidence, after.evidence)
      else after.evidence == before.evidence
  {
    WrittenEvidence(env, l, req);
    SnapshotUpdates(l.cases[req.caseId], updates);
    UpdateArchivesIff(env, Snapshot(l.cases[req.caseId]), updates, reason, now);
  }

  lemma SnapshotUpdates(row: CaseRow, updates: Updates)
    ensures SubjectOf(WithUpdates(Snapshot(row), updates)) == SubjectOf(WithUpdates(row.state, updates))
    ensures SubjectOf(Snapshot(row)) == SubjectOf(row.state) && Snapshot(row).evidence == row.state.evidence
  {
  }

  // ---- A commit ----

  /** The references found of one type. */
  function Found(found: seq<EvidenceRefs>, kind: string): set<string> {
    set f, id | f in found && f.kind == kind && id in f.refs :: id
  }

  lemma {:induction false} MergedHolds(refs: References, found: seq<EvidenceRefs>, kind: string)
    ensures Held(MergeRefs(refs, found), kind) == Held(refs, kind) + Found(found, kind)
  {
    if found != [] {
      var n := |found| - 1;
      MergedHolds(refs, found[..n], kind);
      assert found == found[..n] + [found[n]];
      assert Found(found, kind) == Found(found[..n], kind) + (if found[n].kind == kind then SetOf(found[n].refs) else {});
    }
  }

  /** A commit that is allowed adds the valid evidence it found, by type; one that is not changes no evidence. */
  lemma CommitAddsEvidence(call: CommitCall, kind: string)
    ensures var before := call.record.evidence; var after := CommitRequest(call).state.evidence;
      var verdict := Evaluate(call.ctx, call.record, call.target);
      && after.historical == before.historical
      && Held(after.current, kind) == Held(before.current, kind) + (if verdict.allowed then Found(verdict.valid, kind) else {})
  {
    var verdict := Evaluate(call.ctx, call.record, call.target);
    CommitDecides(call);
    MergedHolds(call.record.evidence.current, verdict.valid, kind);
  }

  lemma CommitOnlyAdds(call: CommitCall)
    ensures OnlyAdded(call.record.evidence, CommitRequest(call).state.evidence)
  {
    CommitAddsEvidence(call, "");
    forall t ensures Held(call.record.evidence.current, t) <= Held(CommitRequest(call).state.evidence.current, t) {
      CommitAddsEvidence(call, t);
    }
  }

  // ---- Every interleaving ----

  /** Every reference still is one, and an archived one stays archived. */
  ghost predicate NothingLost(before: Evidenced, after: Evidenced) {
    forall t ::
      && Held(before.historical, t) <= Held(after.historical, t)
      && Held(before.current, t) <= Held(after.current, t) + Held(after.historical, t)
  }

  lemma MovesLoseNothing(before: Evidenced, after: Evidenced)
    requires Archived(before, after) || OnlyAdded(before, after)
    ensures NothingLost(before, after)
  {
  }

  lemma BindingLosesNothing(env: Environment, l: Ledger, req: Request, updates: Updates, reason: string, now: string)
    requires BindsSubject(env, l, req, updates, reason, now) && TransitionOutcome(env, l, req).Appended?
    ensures NothingLost(l.cases[req.caseId].state.evidence, TransitionOutcome(env, l, req).row.state.evidence)
  {
    BindingArchivesIff(env, l, req, updates, reason, now);
    MovesLoseNothing(l.cases[req.caseId].state.evidence, TransitionOutcome(env, l, req).row.state.evidence);
  }

  lemma CommitLosesNothing(env: Environment, l: Ledger, call: CommitCall)
    requires TransitionOutcome(env, l, CommitRequest(call)).Appended? && call.record.caseId in l.cases
    requires Genuine(l.cases[call.record.caseId], call.record)
    ensures NothingLost(l.cases[call.record.caseId].state.evidence, TransitionOutcome(env, l, CommitRequest(call)).row.state.evidence)
  {
    WrittenEvidence(env, l, CommitRequest(call));
    CommitOnlyAdds(call);
    MovesLoseNothing(call.record.evidence, CommitRequest(call).state.evidence);
  }

  lemma ExplainedEvidence(env: Environment, l: Ledger, cause: Cause, outcome: Outcome)
    requires Explains(env, l, cause, outcome) && outcome.Appended? && CauseCase(cause) in l.cases
    ensures NothingLost(l.cases[CauseCase(cause)].state.evidence, outcome.row.state.evidence)
  {
    match cause
    case Opened(r, actor, key, now) => AcceptedInit(env, l, r, actor, key, now);
    case Changed(req, updates, reason, at) => BindingLosesNothing(env, l, req, updates, reason, at);
    case Committed(call) => CommitLosesNothing(env, l, call);
  }

  ghost predicate TrailKept(caseId: string, s: System, t: System) {
    caseId in s.ledger.cases ==>
      caseId in t.ledger.cases && NothingLost(s.ledger.cases[caseId].state.evidence, t.ledger.cases[caseId].state.evidence)
  }

  lemma ActTrail(env: Environment, s: System, a: Action, caseId: string)
    requires env.IdealHash() && Invariant(env, s) && Controlled(a)
    ensures TrailKept(caseId, s, Act(env, s, a))
  {
    if caseId in s.ledger.cases {
      ActFrame(env, s, a, caseId);
      if ActionOutcome(env, s, a).Appended? && caseId == ActionCase(s, a) {
        var cause := Explanation(env, s, a);
        ExplainedEvidence(env, s.ledger, cause, ActionOutcome(env, s, a));
      }
    }
  }

  /** From every reachable system on, through commits and bindings of any clients: no evidence reference of a case is
      ever lost, neither a current nor an archived one. */
  lemma EvidenceNeverLost(env: Environment, s: System, actions: seq<Action>, caseId: string)
    requires env.IdealHash() && Reached(env, s) && AllControlled(actions) && caseId in s.ledger.cases
    ensures caseId in Play(env, s, actions).ledger.cases
    ensures NothingLost(s.ledger.cases[caseId].state.evidence, Play(env, s, actions).ledger.cases[caseId].state.evidence)
  {
    ReachedInvariant(env, s);
    ActsKeepInvariant(env);
    forall s: System, a: Action | Invariant(env, s) && Controlled(a) ensures TrailKept(caseId, s, Act(env, s, a)) {
      ActTrail(env, s, a, caseId);
    }
    TrailPreorder(caseId);
    RelatedAlong(Acting(env), a => Controlled(a), s => Invariant(env, s), (s, t) => TrailKept(caseId, s, t), s, actions);
  }

  lemma NothingLostTwice(a: Evidenced, b: Evidenced, c: Evidenced)
    requires NothingLost(a, b) && NothingLost(b, c)
    ensures NothingLost(a, c)
  {
    forall t ensures Held(a.historical, t) <= Held(c.historical, t) && Held(a.current, t) <= Held(c.current, t) + Held(c.historical, t) {
      assert Held(a.historical, t) <= Held(b.historical, t) && Held(b.historical, t) <= Held(c.historical, t);
    }
  }

  lemma TrailPreorder(caseId: string)
    ensures Preorder((s: System, t: System) => TrailKept(caseId, s, t))
  {
    forall s: System, t: System, u: System | TrailKept(caseId, s, t) && TrailKept(caseId, t, u) ensures TrailKept(caseId, s, u) {
      if caseId in s.ledger.cases {
        NothingLostTwice(s.ledger.cases[caseId].state.evidence, t.ledger.cases[caseId].state.evidence, u.ledger.cases[caseId].state.evidence);
      }
    }
  }

  // ---- What the store alone ensures ----

  /** Direct transitions are bound to less: without a binding decision the archive stays as it is, and one that changes
      the subject clears what was current and archives every reference of it under some type. */
  lemma StoreEvidence(env: Environment, l: Ledger, req: Request)
    requires TransitionOutcome(env, l, req).Appended?
    ensures var before := l.cases[req.caseId].state; var after := TransitionOutcome(env, l, req).row.state;
      && (!BindingDecision(req.decision) ==> after.evidence.historical == before.evidence.historical)
      && (SubjectOf(after).material != SubjectOf(before).material ==>
            && BindingDecision(req.decision) && after.evidence.current == map[]
            && forall t, id :: id in Held(before.evidence.current, t) ==> exists u :: id in Held(after.evidence.historical, u))
  {
    AcceptedTransition(env, l, req);
    GuardedEvidence(env, l.cases[req.caseId], req);
  }

  lemma ReferencesArchived(current: References, historical: References)
    requires AllReferences(current) <= AllReferences(historical)
    ensures forall t, id :: id in Held(current, t) ==> exists u :: id in Held(historical, u)
  {
    forall t, id | id in Held(current, t) ensures exists u :: id in Held(historical, u) {
      assert id in AllReferences(current);
      var u :| u in historical && id in historical[u];
      assert id in Held(historical, u);
    }
  }

  lemma ChangedFields(before: Record, after: Record, decision: Decision)
    requires FieldGuard(before, after, decision).Pass? && BindingDecision(decision)
    requires SubjectOf(after).material != SubjectOf(before).material
    ensures after.evidence.current == map[] && AllReferences(before.evidence.current) <= AllReferences(after.evidence.historical)
  {
  }

  lemma GuardedEvidence(env: Environment, row: CaseRow, req: Request)
    requires TransitionGuard(env, row, req).Pass?
    ensures var before := row.state; var after := Normalize(env, req.state);
      && (!BindingDecision(req.decision) ==> after.evidence.historical == before.evidence.historical)
      && (SubjectOf(after).material != SubjectOf(before).material ==>
            && BindingDecision(req.decision) && after.evidence.current == map[]
            && forall t, id :: id in Held(before.evidence.current, t) ==> exists u :: id in Held(after.evidence.historical, u))
  {
    var before, after := Snapshot(row), Normalize(env, req.state);
    SnapshotUpdates(row, map[]);
    GuardedFieldsPass(env, row, req);
    if SubjectOf(after).material != SubjectOf(before).material {
      ChangedFields(before, after, req.decision);
      ReferencesArchived(before.evidence.current, after.evidence.historical);
    }
  }

  lemma GuardedFieldsPass(env: Environment, row: CaseRow, req: Request)
    requires TransitionGuard(env, row, req).Pass?
    ensures var before, after := Snapshot(row), Normalize(env, req.state);
      && FieldGuard(before, after, req.decision).Pass?
      && (SubjectOf(before).material == SubjectOf(after).material || BindingDecision(req.decision))
  {
  }

  /** And nothing keeps the current references while the subject stays: blocking a case in place with all of them left
      out passes every guard, and they are in no archive then. */
  lemma EvidenceMayBeDropped(env: Environment, row: CaseRow, req: Request, kind: string, id: string)
    requires OnlyMoves(env, row, req) && req.state.risk == row.state.risk && Ordered(Logical(row.state.position))
    requires req.state.position == InPlace(row.state.position) && req.state.evidence.current == map[]
    requires DeliveryGuard(DeliveryModelOf(row.state, row.state), Blocked, req.requested).Pass? && req.decision == BlockedDecision
    requires id in Held(row.state.evidence.current, kind) && id !in Held(row.state.evidence.historical, kind)
    ensures TransitionGuard(env, row, req).Pass? && !NothingLost(row.state.evidence, req.state.evidence)
  {
    BlockInPlacePasses(env, row, req);
    assert id !in Held(req.state.evidence.current, kind) + Held(req.state.evidence.historical, kind);
  }
}
