/** What each operation of the lifecycle store does to the ledger, as functions of the ledger. */
module LedgerSteps {
  import opened Basics
  import opened States
  import opened Records
  import opened HashChain
  import opened Events
  import opened Guards
  import opened SubjectUpdates

  /** A call either raises, finds its event already present, or commits one event and one row. */
  datatype Outcome = Rejected(failure: Failure) | Replayed | Appended(event: Event, row: CaseRow)

  function EmptyLedger(env: Environment): Ledger { Ledger(env.binding, [], map[]) }

  function Commit(l: Ledger, caseId: string, outcome: Outcome): Ledger {
    if outcome.Appended? then Ledger(l.binding, l.events + [outcome.event], l.cases[caseId := outcome.row]) else l
  }

  function ResolveActor(env: Environment, actor: Option<string>): Check {
    Need(actor.None? || actor == Some(env.controller.controllerId), PermissionError)
  }

  predicate KeyUsed(events: seq<Event>, key: string) {
    exists i :: 0 <= i < |events| && events[i].body.key == key
  }

  predicate DigestUsed(events: seq<Event>, digest: Digest) {
    exists i :: 0 <= i < |events| && events[i].digest == digest
  }

  /** _append_event_tx: the timestamp and commitment of an authorization must be those of the event. */
  function AppendEvent(env: Environment, events: seq<Event>, body: Body): Result<Event> {
    var event := NextLink(env.Hasher(), events, body);
    var auth := body.authorization;
    if auth.Some? && (auth.value.occurredAt == "" || auth.value.createdAt != auth.value.occurredAt) then Err(PermissionError)
    else if auth.Some? && auth.value.commitment != env.Commitment(event.sequence, event.previous, body) then Err(PermissionError)
    else if KeyUsed(events, body.key) || DigestUsed(events, event.digest) then Err(IntegrityError)
    else Ok(event)
  }

  // ---- initialize ----

  function InitialRecord(env: Environment, r: Record): Record {
    var a := r.(
      authority := r.authority.(authoritative := true, store := Some(STORE_NAME)),
      subject := r.subject.(version := MaxOne(r.subject.version)),
      position := r.position.(lastCompleted := r.position.lastCompleted.Or(Some(UnverifiedReport))));
    a.(subject := a.subject.(fingerprint := Some(env.Fingerprint(SubjectOf(a)))))
  }

  function InitialBody(env: Environment, record: Record, key: string, now: string): Body {
    var subject := SubjectOf(record);
    Body(record.caseId, key, env.controller.controllerId, now, None, record.position.state, Initialized,
         {}, {}, {}, multiset{}, subject, subject.epoch, env.Fingerprint(subject),
         Lookup(record.subject.material, PolicyBundle), Lookup(record.subject.material, Toolchain),
         RiskSnapshot(None, None), None, None, env.controller, env.binding, env.hash(RecordValue(record)), record)
  }

  function InitGuard(env: Environment, r: Record, actor: Option<string>): Check {
    var named := r.caseId != "";
    :- Need(named, ValueError);
    :- ResolveActor(env, actor);
    :- Need(r.position.state == UnverifiedReport, ValueError);
    :- RiskGuard(RiskProfile(None, None, []), r);
    Need(env.subjectValid(SubjectOf(InitialRecord(env, r))), ValueError)
  }

  function InitOutcome(env: Environment, l: Ledger, r: Record, actor: Option<string>, key: Option<string>, now: string): Outcome {
    var guard := InitGuard(env, r, actor);
    if guard.Fail? then Rejected(guard.failure)
    else
      var record := InitialRecord(env, r);
      var usedKey := if !Blank(key) then key.value else env.initKey(r.caseId, env.Fingerprint(SubjectOf(record)));
      if r.caseId in l.cases then
        var row := l.cases[r.caseId];
        if env.hash(RecordValue(row.state)) != row.currentHash || row.state != record then Rejected(RuntimeError) else Replayed
      else
        var body := InitialBody(env, record, usedKey, now);
        match AppendEvent(env, l.events, body)
        case Err(f) => Rejected(f)
        case Ok(event) => Appended(event, CaseRow(1, record.subject.epoch, record, body.recordHash))
  }

  // ---- transition ----

  function KeyOf(env: Environment, req: Request): string {
    if !Blank(req.key) then req.key.value
    else env.transitionKey(req.caseId, req.expectedVersion, req.requested, env.hash(RecordValue(Normalize(env, req.state))))
  }

  function PolicyHashOf(req: Request, next: Record): Option<string> {
    OrText(req.policyHash, Lookup(next.subject.material, PolicyBundle))
  }

  function ToolchainHashOf(req: Request, next: Record): Option<string> {
    OrText(req.toolchainHash, Lookup(next.subject.material, Toolchain))
  }

  function ExpectedClaim(env: Environment, row: CaseRow, req: Request): Claim {
    var next := Normalize(env, req.state);
    ClaimOf(env, req.caseId, req.expectedVersion, row.currentHash, env.hash(RecordValue(next)), req.requested, req.decision,
            env.controller.controllerId, KeyOf(env, req), SubjectOf(next), req.required, SetOf(req.accepted), req.rejected,
            PolicyHashOf(req, next), ToolchainHashOf(req, next))
  }

  function ProtectionGuard(env: Environment, row: CaseRow, req: Request): Check {
    var next := Normalize(env, req.state);
    if ProtectedState(next.position.state) then
      :- EvidenceGuard(env, req, SubjectOf(next));
      Need(AuthorizationOk(env, req.authorization, ExpectedClaim(env, row, req), SubjectOf(next)), PermissionError)
    else Pass
  }

  /** Every guard between the version check and the write. */
  function TransitionGuard(env: Environment, row: CaseRow, req: Request): Check {
    var current := Snapshot(row);
    var next := Normalize(env, req.state);
    var model := DeliveryModelOf(next, current);
    :- DeliveryGuard(model, next.position.state, req.requested);
    :- Need(TransitionDecision(req.decision), ValueError);
    :- SubjectGuard(env, current, next, req.decision);
    :- FieldGuard(current, next, req.decision);
    :- OrderGuard(current.position, next.position, req.requested, req.decision);
    :- ClosureGuard(model, current.position.state, next.position, req.required);
    ProtectionGuard(env, row, req)
  }

  /** The validated evidence kept with the event; none for an unprotected state. */
  function KeptRecords(req: Request): multiset<Evidence> {
    if !ProtectedState(req.state.position.state) then multiset{}
    else multiset(set r | r in req.records && r.evidenceId in req.accepted)
  }

  function TransitionBody(env: Environment, prior: State, req: Request): Body {
    var next := Normalize(env, req.state);
    var subject := SubjectOf(next);
    Body(req.caseId, KeyOf(env, req), env.controller.controllerId,
         if req.authorization.Some? then req.authorization.value.occurredAt else req.now,
         Some(prior), req.requested, req.decision,
         req.required, SetOf(req.accepted), req.rejected, KeptRecords(req),
         subject, subject.epoch, env.Fingerprint(subject),
         PolicyHashOf(req, next), ToolchainHashOf(req, next),
         if req.risk.Some? then req.risk.value else RiskSnapshot(next.risk.level, next.risk.cls),
         if req.domains.Some? then req.domains.value else next.domains,
         req.authorization, env.controller, env.binding, env.hash(RecordValue(next)), next)
  }

  /** An event already committed under the request's key, for the very same request. */
  predicate SameRequest(event: Event, body: Body) {
    event.body == body.(occurredAt := event.body.occurredAt, risk := event.body.risk, domains := event.body.domains,
                        identity := event.body.identity, binding := event.body.binding, key := event.body.key)
  }

  function TransitionOutcome(env: Environment, l: Ledger, req: Request): Outcome {
    var actor := ResolveActor(env, req.actor);
    if actor.Fail? then Rejected(actor.failure)
    else if req.state.caseId != req.caseId then Rejected(ValueError)
    else if req.caseId !in l.cases then Rejected(KeyError)
    else
      var row := l.cases[req.caseId];
      if row.version != req.expectedVersion then Rejected(RuntimeError)
      else if env.hash(RecordValue(row.state)) != row.currentHash then Rejected(RuntimeError)
      else
        var guard := TransitionGuard(env, row, req);
        if guard.Fail? then Rejected(guard.failure)
        else
          var body := TransitionBody(env, row.state.position.state, req);
          if KeyUsed(l.events, body.key) then
            if exists i :: 0 <= i < |l.events| && l.events[i].body.key == body.key && SameRequest(l.events[i], body)
            then Replayed else Rejected(RuntimeError)
          else
            match AppendEvent(env, l.events, body)
            case Err(f) => Rejected(f)
            case Ok(event) => Appended(event, CaseRow(req.expectedVersion + 1, body.epoch, body.state, body.recordHash))
  }

  // ---- mutate_subject ----

  /** The request mutate_subject hands to transition: a subject binding without any authorization. */
  function MutationRequest(r: Record, caseId: string, actor: Option<string>, version: int, now: string): Request {
    Request(caseId, r, actor, version,
            if r.position.blockedTarget.Some? then r.position.blockedTarget.value else r.position.state,
            SubjectMutationInvalidated, {}, [], [], r.evidence.historical.Keys,
            Lookup(r.subject.material, PolicyBundle), Lookup(r.subject.material, Toolchain), None, None, None, None, now)
  }

  /** The part of mutate_subject after its verified read. */
  function MutationOutcome(env: Environment, l: Ledger, caseId: string, updates: Updates, reason: string,
                           actor: Option<string>, version: int, now: string): Outcome
  {
    if caseId !in l.cases then Rejected(RuntimeError)
    else
      var current := Snapshot(l.cases[caseId]);
      if l.cases[caseId].version != version then Rejected(RuntimeError)
      else
        match ApplySubjectUpdate(env, current, updates, reason, now)
        case Err(f) => Rejected(f)
        case Ok(updated) => TransitionOutcome(env, l, MutationRequest(updated, caseId, actor, version, now))
  }
}
