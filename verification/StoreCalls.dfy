/** When `initialize` and `transition` commit an event, and which: each condition and each field by itself. */
module StoreCalls {
  import opened Basics
  import opened States
  import opened Records
  import opened HashChain
  import opened Events
  import opened Guards
  import opened SubjectUpdates
  import opened LedgerSteps
  import opened VerifiedEvents
  import opened StoreRules

  // ---- Appending ----

  /** Neither the key nor the digest is there already, and a signature names this very place in the ledger and this time. */
  predicate AppendFits(env: Environment, events: seq<Event>, body: Body) {
    var number, previous := |events| + 1, if events == [] then GENESIS_HASH else events[|events| - 1].digest;
    && (forall i :: 0 <= i < |events| ==> events[i].body.key != body.key)
    && (forall i :: 0 <= i < |events| ==> events[i].digest != env.hash(EventValue(number, previous, body)))
    && (body.authorization.Some? ==>
          var a := body.authorization.value;
          && a.occurredAt != "" && a.createdAt == a.occurredAt
          && a.commitment == env.hash(CommitmentValue(number, previous, body.(authorization := None))))
  }

  /** The event is the next one, with this body. */
  predicate IsNext(env: Environment, events: seq<Event>, body: Body, e: Event) {
    && e.body == body && e.sequence == |events| + 1
    && e.previous == (if events == [] then GENESIS_HASH else events[|events| - 1].digest)
    && e.digest == env.hash(EventValue(e.sequence, e.previous, body)) && e.seal == env.mac(e.digest)
  }

  lemma AppendIff(env: Environment, events: seq<Event>, body: Body)
    ensures AppendEvent(env, events, body).Ok? <==> AppendFits(env, events, body)
    ensures AppendEvent(env, events, body).Ok? ==> IsNext(env, events, body, AppendEvent(env, events, body).value)
  {
    var event := NextLink(env.Hasher(), events, body);
    assert event.digest == env.hash(EventValue(event.sequence, event.previous, body));
  }

  // ---- transition ----

  lemma SnapshotReads(row: CaseRow)
    ensures ReadAs(row, Snapshot(row))
  {
  }

  /** The body an accepted transition writes: what was asked, ... */
  predicate TellsRequest(env: Environment, req: Request, stored: Record, b: Body) {
    && b.caseId == req.caseId && b.key == KeyGiven(env, req, stored) && b.actor == env.controller.controllerId
    && b.occurredAt == (if req.authorization.Some? then req.authorization.value.occurredAt else req.now)
    && b.requested == req.requested && b.decision == req.decision
    && b.required == req.required && b.accepted == SetOf(req.accepted) && b.rejected == req.rejected
    && b.authorization == req.authorization && b.identity == env.controller && b.binding == env.binding
  }

  /** ... the record with the state before it and the evidence kept, ... */
  predicate TellsRecord(env: Environment, before: State, req: Request, stored: Record, b: Body) {
    && b.prior == Some(before) && b.state == stored && b.recordHash == env.hash(RecordValue(stored))
    && b.subject == SubjectOf(stored) && b.epoch == stored.subject.epoch && b.fingerprint == env.hash(SubjectValue(b.subject))
    && b.records == multiset(set r | r in req.records && r.evidenceId in req.accepted && stored.position.state in SIGNED_STATES)
  }

  /** ... and the policy, the risk and the domains, as named in the call or else in the record. */
  predicate TellsContext(req: Request, stored: Record, b: Body) {
    && b.policyHash == Named(req.policyHash, stored, PolicyBundle) && b.toolchainHash == Named(req.toolchainHash, stored, Toolchain)
    && b.risk == (if req.risk.Some? then req.risk.value else RiskSnapshot(stored.risk.level, stored.risk.cls))
    && b.domains == (if req.domains.Some? then req.domains.value else stored.domains)
  }

  lemma KeptIs(req: Request, state: State)
    requires state == req.state.position.state
    ensures KeptRecords(req) == multiset(set r | r in req.records && r.evidenceId in req.accepted && state in SIGNED_STATES)
  {
    SignedStates(state);
    if state !in SIGNED_STATES {
      assert (set r | r in req.records && r.evidenceId in req.accepted && state in SIGNED_STATES) == {};
    } else {
      assert (set r | r in req.records && r.evidenceId in req.accepted && state in SIGNED_STATES)
          == set r | r in req.records && r.evidenceId in req.accepted;
    }
  }

  lemma BodyTells(env: Environment, before: State, req: Request)
    ensures TellsRequest(env, req, Normalize(env, req.state), TransitionBody(env, before, req))
    ensures TellsContext(req, Normalize(env, req.state), TransitionBody(env, before, req))
  {
  }

  lemma BodyTellsRecord(env: Environment, before: State, req: Request)
    ensures TellsRecord(env, before, req, Normalize(env, req.state), TransitionBody(env, before, req))
  {
    KeptIs(req, req.state.position.state);
  }

  /** The call names the case and its version, and the row is as it was hashed. */
  predicate Addresses(env: Environment, l: Ledger, req: Request) {
    && (req.actor.Some? ==> req.actor.value == env.controller.controllerId)
    && req.state.caseId == req.caseId && req.caseId in l.cases
    && l.cases[req.caseId].version == req.expectedVersion
    && env.hash(RecordValue(l.cases[req.caseId].state)) == l.cases[req.caseId].currentHash
  }

  lemma OutcomeSplits(env: Environment, l: Ledger, req: Request)
    ensures TransitionOutcome(env, l, req).Appended? <==>
      && Addresses(env, l, req) && TransitionGuard(env, l.cases[req.caseId], req).Pass?
      && var body := TransitionBody(env, l.cases[req.caseId].state.position.state, req);
         !KeyUsed(l.events, body.key) && AppendEvent(env, l.events, body).Ok?
    ensures TransitionOutcome(env, l, req).Appended? ==>
      var body := TransitionBody(env, l.cases[req.caseId].state.position.state, req);
      TransitionOutcome(env, l, req) == Appended(AppendEvent(env, l.events, body).value,
                                                 CaseRow(req.expectedVersion + 1, body.epoch, body.state, body.recordHash))
  {
  }

  /** A transition commits exactly if it addresses its case, fits it, and fits the end of the ledger. */
  lemma TransitionCommitsIff(env: Environment, l: Ledger, req: Request)
    ensures TransitionOutcome(env, l, req).Appended? <==>
      && Addresses(env, l, req)
      && Fits(env, l.cases[req.caseId], req, Snapshot(l.cases[req.caseId]), Normalize(env, req.state))
      && AppendFits(env, l.events, TransitionBody(env, l.cases[req.caseId].state.position.state, req))
  {
    OutcomeSplits(env, l, req);
    if req.caseId in l.cases {
      GuardIff(env, l.cases[req.caseId], req);
      AppendIff(env, l.events, TransitionBody(env, l.cases[req.caseId].state.position.state, req));
    }
  }

  /** And then it writes the next event, which tells all of the transition, and a row of the next version. */
  lemma TransitionWrites(env: Environment, l: Ledger, req: Request)
    requires TransitionOutcome(env, l, req).Appended?
    ensures req.caseId in l.cases
    ensures var (e, row) := (TransitionOutcome(env, l, req).event, TransitionOutcome(env, l, req).row);
      && IsNext(env, l.events, e.body, e) && StoredAs(env, req.state, e.body.state)
      && TellsRequest(env, req, e.body.state, e.body) && TellsContext(req, e.body.state, e.body)
      && TellsRecord(env, l.cases[req.caseId].state.position.state, req, e.body.state, e.body)
      && row.version == req.expectedVersion + 1 && row.state == e.body.state && row.epoch == e.body.state.subject.epoch
      && row.currentHash == env.hash(RecordValue(e.body.state))
  {
    OutcomeSplits(env, l, req);
    var before := l.cases[req.caseId].state.position.state;
    AppendIff(env, l.events, TransitionBody(env, before, req));
    BodyTells(env, before, req);
    BodyTellsRecord(env, before, req);
    NormalizedStored(env, req.state);
  }

  /** A used key is answered with the event that has it where every other field of the request is the same, apart from its
      time, its snapshots of risk and domains, and the store that writes it. */
  predicate TellsSame(a: Body, b: Body) {
    && a.caseId == b.caseId && a.actor == b.actor && a.prior == b.prior && a.requested == b.requested && a.decision == b.decision
    && a.required == b.required && a.accepted == b.accepted && a.rejected == b.rejected && a.records == b.records
    && a.subject == b.subject && a.epoch == b.epoch && a.fingerprint == b.fingerprint
    && a.policyHash == b.policyHash && a.toolchainHash == b.toolchainHash && a.authorization == b.authorization
    && a.recordHash == b.recordHash && a.state == b.state
  }

  lemma SameIff(e: Event, body: Body)
    ensures SameRequest(e, body) <==> TellsSame(e.body, body)
  {
  }

  predicate TellsSameAt(events: seq<Event>, i: nat, body: Body)
    requires i < |events|
  {
    events[i].body.key == body.key && TellsSame(events[i].body, body)
  }

  lemma ReplayAddresses(env: Environment, l: Ledger, req: Request)
    requires TransitionOutcome(env, l, req).Replayed?
    ensures Addresses(env, l, req) && TransitionGuard(env, l.cases[req.caseId], req).Pass?
  {
  }

  lemma ReplaySplits(env: Environment, l: Ledger, req: Request)
    requires Addresses(env, l, req) && TransitionGuard(env, l.cases[req.caseId], req).Pass?
    ensures TransitionOutcome(env, l, req).Replayed? <==>
      var body := TransitionBody(env, l.cases[req.caseId].state.position.state, req);
      exists i :: 0 <= i < |l.events| && l.events[i].body.key == body.key && SameRequest(l.events[i], body)
  {
  }

  lemma SameAmong(events: seq<Event>, body: Body)
    ensures (exists i :: 0 <= i < |events| && events[i].body.key == body.key && SameRequest(events[i], body))
       <==> exists i :: 0 <= i < |events| && TellsSameAt(events, i, body)
  {
    forall i | 0 <= i < |events| ensures events[i].body.key == body.key && SameRequest(events[i], body) <==> TellsSameAt(events, i, body) {
      SameIff(events[i], body);
    }
  }

  lemma TransitionReplayedIff(env: Environment, l: Ledger, req: Request)
    ensures TransitionOutcome(env, l, req).Replayed? <==>
      && Addresses(env, l, req)
      && Fits(env, l.cases[req.caseId], req, Snapshot(l.cases[req.caseId]), Normalize(env, req.state))
      && var body := TransitionBody(env, l.cases[req.caseId].state.position.state, req);
         exists i :: 0 <= i < |l.events| && TellsSameAt(l.events, i, body)
  {
    if TransitionOutcome(env, l, req).Replayed? {
      ReplayAddresses(env, l, req);
    }
    if Addresses(env, l, req) {
      GuardIff(env, l.cases[req.caseId], req);
      if TransitionGuard(env, l.cases[req.caseId], req).Pass? {
        ReplaySplits(env, l, req);
        SameAmong(l.events, TransitionBody(env, l.cases[req.caseId].state.position.state, req));
      }
    }
  }

  /** What a caller hears of a transition that addresses no case as it stands. */
  lemma Unaddressed(env: Environment, l: Ledger, req: Request)
    requires !Addresses(env, l, req)
    ensures TransitionOutcome(env, l, req)
         == Rejected(if req.actor.Some? && req.actor.value != env.controller.controllerId then PermissionError
                     else if req.state.caseId != req.caseId then ValueError else if req.caseId !in l.cases then KeyError else RuntimeError)
  {
  }

  lemma DeliveryPasses(env: Environment, row: CaseRow, req: Request)
    requires DeliveryFits(Delivers(Snapshot(row), Normalize(env, req.state)), req.state.position.state, req.requested)
    ensures var next := Normalize(env, req.state);
      DeliveryGuard(DeliveryModelOf(next, Snapshot(row)), next.position.state, req.requested).Pass?
  {
    var before, after := Snapshot(row), Normalize(env, req.state);
    DeliveryModelIs(before, after);
    DeliveryIff(DeliveryModelOf(after, before), Delivers(before, after), after.position.state, req.requested);
  }

  /** A decision the store does not know is a ValueError, before anything else of the transition but its lane is looked at. */
  lemma UnknownDecisionRefused(env: Environment, l: Ledger, req: Request)
    requires Addresses(env, l, req) && req.decision !in {Proceed, BlockedDecision, RollbackDecision} && !Binds(req.decision)
    requires DeliveryFits(Delivers(Snapshot(l.cases[req.caseId]), Normalize(env, req.state)), req.state.position.state, req.requested)
    ensures TransitionOutcome(env, l, req) == Rejected(ValueError)
  {
    DeliveryPasses(env, l.cases[req.caseId], req);
    BindsIff(req.decision);
  }

  // ---- mutate_subject ----

  /** A mutation of an unknown case, or of another version than the row has, is a RuntimeError, one that makes the subject invalid
      a ValueError; any other is the transition of the changed record. */
  lemma MutationIs(env: Environment, l: Ledger, caseId: string, updates: Updates, reason: string, actor: Option<string>, version: int, now: string)
    ensures var outcome := MutationOutcome(env, l, caseId, updates, reason, actor, version, now);
      if caseId !in l.cases || l.cases[caseId].version != version then outcome == Rejected(RuntimeError)
      else
        var updated := ApplySubjectUpdate(env, Snapshot(l.cases[caseId]), updates, reason, now);
        && (updated.Err? ==> outcome == Rejected(ValueError))
        && (updated.Ok? ==> outcome == TransitionOutcome(env, l, MutationRequest(updated.value, caseId, actor, version, now)))
  {
  }

  // ---- initialize ----

  /** The first record of a case: marked as the store's own, with its fingerprint and at least version 1, and naming
      UNVERIFIED_REPORT unless it names a completed state itself. */
  predicate OpenedAs(env: Environment, given: Record, stored: Record) {
    && stored.caseId == given.caseId && stored.risk == given.risk && stored.domains == given.domains
    && stored.evidence == given.evidence && stored.scheduling == given.scheduling && stored.other == given.other
    && stored.authority == given.authority.(authoritative := true, store := Some("controller-owned-sqlite"))
    && stored.position == given.position.(lastCompleted := stored.position.lastCompleted)
    && stored.position.lastCompleted == (if given.position.lastCompleted.Some? then given.position.lastCompleted else Some(UnverifiedReport))
    && stored.subject == given.subject.(version := stored.subject.version, fingerprint := stored.subject.fingerprint)
    && stored.subject.version == (if given.subject.version > 1 then given.subject.version else 1)
    && stored.subject.fingerprint == Some(env.hash(SubjectValue(SubjectOf(stored))))
  }

  lemma InitialOpened(env: Environment, given: Record)
    ensures OpenedAs(env, given, InitialRecord(env, given))
  {
  }

  /** The body an initialization writes. */
  predicate TellsOpening(env: Environment, stored: Record, key: string, now: string, b: Body) {
    && b.caseId == stored.caseId && b.key == key && b.actor == env.controller.controllerId && b.occurredAt == now
    && b.prior == None && b.requested == UnverifiedReport && b.decision == Initialized
    && b.required == {} && b.accepted == {} && b.rejected == {} && b.records == multiset{}
    && b.state == stored && b.recordHash == env.hash(RecordValue(stored))
    && b.subject == SubjectOf(stored) && b.epoch == stored.subject.epoch && b.fingerprint == env.hash(SubjectValue(b.subject))
    && b.policyHash == Lookup(stored.subject.material, PolicyBundle) && b.toolchainHash == Lookup(stored.subject.material, Toolchain)
    && b.risk == RiskSnapshot(None, None) && b.domains == None
    && b.authorization == None && b.identity == env.controller && b.binding == env.binding
  }

  /** The key given, or the one derived from the case and its first subject. */
  function OpeningKey(env: Environment, key: Option<string>, stored: Record): string {
    if key.Some? && key.value != "" then key.value else env.initKey(stored.caseId, env.hash(SubjectValue(SubjectOf(stored))))
  }

  /** The record names a new report of a valid subject at a fitting risk. */
  predicate Reports(env: Environment, given: Record, actor: Option<string>, stored: Record) {
    && given.caseId != "" && (actor.Some? ==> actor.value == env.controller.controllerId)
    && given.position.state == UnverifiedReport && RiskFits(RiskProfile(None, None, []), given.risk, given.domains)
    && env.subjectValid(SubjectOf(stored))
  }

  lemma InitGuardIff(env: Environment, given: Record, actor: Option<string>)
    ensures InitGuard(env, given, actor).Pass? <==> Reports(env, given, actor, InitialRecord(env, given))
  {
    RiskIff(RiskProfile(None, None, []), given);
  }

  lemma InitSplits(env: Environment, l: Ledger, given: Record, actor: Option<string>, key: Option<string>, now: string)
    ensures var stored := InitialRecord(env, given); var outcome := InitOutcome(env, l, given, actor, key, now);
      var body := InitialBody(env, stored, OpeningKey(env, key, stored), now);
      && (outcome.Appended? <==>
            InitGuard(env, given, actor).Pass? && given.caseId !in l.cases && AppendEvent(env, l.events, body).Ok?)
      && (outcome.Appended? ==>
            outcome == Appended(AppendEvent(env, l.events, body).value, CaseRow(1, stored.subject.epoch, stored, body.recordHash)))
      && (outcome.Replayed? <==>
            && InitGuard(env, given, actor).Pass? && given.caseId in l.cases && l.cases[given.caseId].state == stored
            && l.cases[given.caseId].currentHash == env.hash(RecordValue(stored)))
  {
  }

  lemma OpeningTells(env: Environment, stored: Record, key: string, now: string)
    requires stored.position.state == UnverifiedReport
    ensures TellsOpening(env, stored, key, now, InitialBody(env, stored, key, now))
  {
  }

  /** A case is opened exactly by a fitting report of a case that is not there yet, and the event and the row tell it. */
  lemma InitializeCommitsIff(env: Environment, l: Ledger, given: Record, actor: Option<string>, key: Option<string>, now: string)
    ensures var stored := InitialRecord(env, given); var outcome := InitOutcome(env, l, given, actor, key, now);
      outcome.Appended? <==>
      && Reports(env, given, actor, stored) && given.caseId !in l.cases
      && AppendFits(env, l.events, InitialBody(env, stored, OpeningKey(env, key, stored), now))
    ensures var stored := InitialRecord(env, given); var outcome := InitOutcome(env, l, given, actor, key, now);
      outcome.Appended? ==>
        && OpenedAs(env, given, stored) && IsNext(env, l.events, outcome.event.body, outcome.event)
        && TellsOpening(env, stored, OpeningKey(env, key, stored), now, outcome.event.body)
        && outcome.row == CaseRow(1, given.subject.epoch, stored, env.hash(RecordValue(stored)))
  {
    var stored := InitialRecord(env, given);
    InitSplits(env, l, given, actor, key, now);
    InitGuardIff(env, given, actor);
    InitialOpened(env, given);
    AppendIff(env, l.events, InitialBody(env, stored, OpeningKey(env, key, stored), now));
    if given.position.state == UnverifiedReport {
      OpeningTells(env, stored, OpeningKey(env, key, stored), now);
    }
  }

  /** Opening a case again changes nothing exactly where the row is still the record it was opened with. */
  lemma InitializeReplayedIff(env: Environment, l: Ledger, given: Record, actor: Option<string>, key: Option<string>, now: string)
    ensures var stored := InitialRecord(env, given);
      InitOutcome(env, l, given, actor, key, now).Replayed? <==>
      && Reports(env, given, actor, stored) && given.caseId in l.cases
      && l.cases[given.caseId].state == stored && l.cases[given.caseId].currentHash == env.hash(RecordValue(stored))
  {
    InitSplits(env, l, given, actor, key, now);
    InitGuardIff(env, given, actor);
  }
}
