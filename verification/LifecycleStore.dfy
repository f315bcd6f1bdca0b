/** The lifecycle store itself: the class of lifecycle_store.py, its writes and its verification loop. */
module LifecycleStoreModule {
  import opened Basics
  import opened States
  import opened Records
  import opened HashChain
  import opened Events
  import opened Guards
  import opened SubjectUpdates
  import opened LedgerSteps
  import opened ChainVerification
  import opened Authorizations

  datatype ChainError =
    | BindingMismatch | SubjectMismatch | FingerprintMismatch | EpochMismatch | RecordHashMismatch
    | UnauthorizedActor | IdentityMismatch | StoreBindingMismatch | InvalidEvidence
    | InvalidInitialization | InvalidEpochStep | PriorStateMismatch | DecisionMismatch
    | InvalidAuthorization | UnexpectedAuthorization
    | SequenceGap | PreviousHashMismatch | EventHashMismatch | MacMismatch
    | CaseWithoutEvent | CaseHashMismatch | CaseStateMismatch | CaseVersionMismatch

  /** A verified read of one case. */
  ghost function ReadBack(env: Environment, l: Ledger, caseId: string): Result<Record> {
    if !ChainValid(env, l) || History(l.events, caseId) == [] then Err(RuntimeError)
    else if caseId !in l.cases then Err(KeyError)
    else Ok(Snapshot(l.cases[caseId]))
  }

  /** What a write returns: its exception, the row an idempotent replay found, or a verified read. */
  ghost function WriteResult(env: Environment, before: Ledger, caseId: string, outcome: Outcome, replayVerified: bool): Result<Record> {
    match outcome
    case Rejected(f) => Err(f)
    case Replayed => if replayVerified then ReadBack(env, before, caseId)
                     else if caseId in before.cases then Ok(Snapshot(before.cases[caseId])) else Err(KeyError)
    case Appended(_, _) => ReadBack(env, Commit(before, caseId, outcome), caseId)
  }

  /** The map `history_by_case` after a run of events. */
  ghost predicate Collects(histories: map<string, seq<Event>>, events: seq<Event>) {
    forall c :: History(events, c) == if c in histories then histories[c] else []
  }

  function Recorded(histories: map<string, seq<Event>>, caseId: string): seq<Event> {
    if caseId in histories then histories[caseId] else []
  }

  lemma CollectsNext(histories: map<string, seq<Event>>, events: seq<Event>, e: Event)
    requires Collects(histories, events)
    ensures Collects(histories[e.body.caseId := Recorded(histories, e.body.caseId) + [e]], events + [e])
  {
  }

  class LifecycleStore {
    const env: Environment
    var binding: string
    var events: seq<Event>
    var cases: map<string, CaseRow>

    function Contents(): Ledger
      reads this
    {
      Ledger(binding, events, cases)
    }

    constructor (env: Environment)
      requires env.Trusted()
      ensures this.env == env && Contents() == EmptyLedger(env)
    {
      this.env := env;
      binding := env.binding;
      events := [];
      cases := map[];
    }

    // ---- Verification ----

    /** The checks of verify_event_chain that look at one event alone. */
    method CheckIdentity(b: Body) returns (errors: seq<ChainError>)
      ensures errors == [] <==> SelfConsistent(env, b)
    {
      errors := [];
      if b.subject != SubjectOf(b.state) { errors := errors + [SubjectMismatch]; }
      if b.fingerprint != env.Fingerprint(b.subject) { errors := errors + [FingerprintMismatch]; }
      if b.epoch != b.subject.epoch { errors := errors + [EpochMismatch]; }
      if b.recordHash != env.hash(RecordValue(b.state)) { errors := errors + [RecordHashMismatch]; }
      if b.actor != LIFECYCLE_CONTROLLER_ID { errors := errors + [UnauthorizedActor]; }
      if b.identity.controllerId != LIFECYCLE_CONTROLLER_ID || b.identity.controllerType != LIFECYCLE_CONTROLLER_TYPE {
        errors := errors + [IdentityMismatch];
      }
      if b.binding != env.binding { errors := errors + [StoreBindingMismatch]; }
    }

    /** The checks of verify_event_chain against the earlier events of the case. */
    method CheckEvent(history: seq<Event>, b: Body) returns (errors: seq<ChainError>)
      ensures errors == [] && SelfConsistent(env, b) <==> BodyOk(env, history, b)
    {
      errors := [];
      if history == [] {
        if !Initialization(b) { errors := errors + [InvalidInitialization]; }
        if ProtectedState(b.state.position.state) || b.authorization.Some? { errors := errors + [UnexpectedAuthorization]; }
        return;
      }
      var prev := history[|history| - 1].body;
      if !EpochStepOk(env, prev.state, b.state) { errors := errors + [InvalidEpochStep]; }
      if b.prior != Some(prev.state.position.state) { errors := errors + [PriorStateMismatch]; }
      if !DecisionMatches(prev.state.position, b) { errors := errors + [DecisionMismatch]; }
      if ProtectedState(b.state.position.state) {
        if !EvidenceOk(env, b.records, b.caseId, b.subject, b.required, b.accepted) { errors := errors + [InvalidEvidence]; }
        if !AuthorizationOk(env, b.authorization, EventClaim(env, |history|, prev.recordHash, b), b.subject) {
          errors := errors + [InvalidAuthorization];
        }
      } else if b.authorization.Some? {
        errors := errors + [UnexpectedAuthorization];
      }
    }

    /** The numbering, hash and MAC checks, against the running values of the loop. */
    method CheckLink(e: Event, expectedSequence: int, previousHash: Digest) returns (errors: seq<ChainError>)
      ensures errors == [] <==>
        && e.sequence == expectedSequence && e.previous == previousHash
        && e.digest == env.hash(EventValue(e.sequence, e.previous, e.body)) && e.seal == env.mac(e.digest)
    {
      errors := [];
      if e.sequence != expectedSequence { errors := errors + [SequenceGap]; }
      if e.previous != previousHash { errors := errors + [PreviousHashMismatch]; }
      if e.digest != env.hash(EventValue(e.sequence, e.previous, e.body)) { errors := errors + [EventHashMismatch]; }
      if e.seal != env.mac(e.digest) { errors := errors + [MacMismatch]; }
    }

    /** The loop over lifecycle_cases, given the histories the event loop collected. */
    method CheckRows(histories: map<string, seq<Event>>) returns (errors: seq<ChainError>)
      requires Collects(histories, events)
      ensures errors == [] <==> RowsOk(env, Contents())
    {
      errors := [];
      var remaining := cases.Keys;
      while remaining != {}
        invariant remaining <= cases.Keys
        invariant errors == [] <==> forall c :: c in cases && c !in remaining ==> RowOk(env, History(events, c), cases[c])
        decreases remaining
      {
        var c :| c in remaining;
        remaining := remaining - {c};
        var row := cases[c];
        if c !in histories || histories[c] == [] {
          errors := errors + [CaseWithoutEvent];
        } else {
          var latest := histories[c][|histories[c]| - 1];
          if row.currentHash != latest.body.recordHash { errors := errors + [CaseHashMismatch]; }
          if env.hash(RecordValue(row.state)) != row.currentHash { errors := errors + [CaseStateMismatch]; }
          if row.version != latest.sequence {
            if row.version != |histories[c]| { errors := errors + [CaseVersionMismatch]; }
          }
        }
      }
    }

    /** Every check of the loop body on one row. */
    method CheckRow(e: Event, history: seq<Event>, expectedSequence: int, previousHash: Digest) returns (errors: seq<ChainError>)
      ensures errors == [] <==>
        && BodyOk(env, history, e.body)
        && e == Link(expectedSequence, previousHash, e.body, env.hash(EventValue(e.sequence, e.previous, e.body)), env.mac(e.digest))
    {
      var selfErrors := CheckIdentity(e.body);
      var bodyErrors := CheckEvent(history, e.body);
      var linkErrors := CheckLink(e, expectedSequence, previousHash);
      errors := selfErrors + bodyErrors + linkErrors;
      assert errors == [] <==> selfErrors == [] && bodyErrors == [] && linkErrors == [];
    }

    /** The loop over lifecycle_events, with its running hash, number and histories. */
    method CheckEvents() returns (errors: seq<ChainError>, head: Digest, histories: map<string, seq<Event>>)
      ensures errors == [] <==> EventsOk(env, events)
      ensures head == Head(events) && Collects(histories, events)
    {
      errors, head, histories := [], GENESIS_HASH, map[];
      var expectedSequence := 1;
      for i := 0 to |events|
        invariant head == Head(events[..i])
        invariant Collects(histories, events[..i])
        invariant errors == [] <==> EventsOk(env, events[..i])
        invariant errors == [] ==> expectedSequence == i + 1
      {
        var e := events[i];
        var history := Recorded(histories, e.body.caseId);
        var found := CheckRow(e, history, expectedSequence, head);
        assert events[..i + 1] == events[..i] + [e];
        EventsOkAppend(env, events[..i], e);
        CollectsNext(histories, events[..i], e);
        assert errors + found == [] <==> errors == [] && found == [];
        errors := errors + found;
        head := e.digest;
        expectedSequence := e.sequence + 1;
        histories := histories[e.body.caseId := history + [e]];
      }
      assert events[..|events|] == events;
    }

    method VerifyEventChain(caseId: Option<string>) returns (errors: seq<ChainError>, records: nat, head: Digest)
      ensures errors == [] <==> ChainValid(env, Contents()) && (caseId.Some? ==> History(events, caseId.value) != [])
      ensures records == |events| && head == Head(events)
    {
      errors := if binding != env.binding then [BindingMismatch] else [];
      var eventErrors, last, histories := CheckEvents();
      var rowErrors := CheckRows(histories);
      var unknown := if caseId.Some? && Recorded(histories, caseId.value) == [] then [CaseWithoutEvent] else [];
      ghost var bound := errors == [];
      errors := errors + eventErrors + rowErrors + unknown;
      assert errors == [] <==> bound && eventErrors == [] && rowErrors == [] && unknown == [];
      return errors, |events|, last;
    }

    method Get(caseId: string, verify: bool) returns (r: Result<Record>)
      ensures verify ==> r == ReadBack(env, Contents(), caseId)
      ensures !verify ==> r == if caseId in cases then Ok(Snapshot(cases[caseId])) else Err(KeyError)
    {
      if verify {
        var errors, _, _ := VerifyEventChain(Some(caseId));
        if errors != [] {
          return Err(RuntimeError);
        }
      }
      if caseId !in cases {
        return Err(KeyError);
      }
      return Ok(Snapshot(cases[caseId]));
    }

    // ---- Writes ----

    method AppendEventTx(body: Body) returns (r: Result<Event>)
      modifies this`events
      ensures r == AppendEvent(env, old(events), body)
      ensures events == if r.Ok? then old(events) + [r.value] else old(events)
    {
      var event := NextLink(env.Hasher(), events, body);
      var auth := body.authorization;
      if auth.Some? {
        if auth.value.occurredAt == "" || auth.value.createdAt != auth.value.occurredAt {
          return Err(PermissionError);
        }
        if auth.value.commitment != env.Commitment(event.sequence, event.previous, body) {
          return Err(PermissionError);
        }
      }
      if KeyUsed(events, body.key) || DigestUsed(events, event.digest) {
        return Err(IntegrityError);
      }
      events := events + [event];
      return Ok(event);
    }

    /** The transaction of initialize, up to its COMMIT. */
    method InitializeTx(record: Record, actor: Option<string>, key: Option<string>, now: string) returns (outcome: Outcome)
      modifies this
      ensures outcome == InitOutcome(env, old(Contents()), record, actor, key, now)
      ensures Contents() == Commit(old(Contents()), record.caseId, outcome)
    {
      var guard := InitGuard(env, record, actor);
      if guard.Fail? {
        return Rejected(guard.failure);
      }
      var initial := InitialRecord(env, record);
      var usedKey := if !Blank(key) then key.value else env.initKey(record.caseId, env.Fingerprint(SubjectOf(initial)));
      if record.caseId in cases {
        var row := cases[record.caseId];
        var same := env.hash(RecordValue(row.state)) == row.currentHash && row.state == initial;
        return if same then Replayed else Rejected(RuntimeError);
      }
      var body := InitialBody(env, initial, usedKey, now);
      var appended := AppendEventTx(body);
      if appended.Err? {
        return Rejected(appended.failure);
      }
      var row := CaseRow(1, initial.subject.epoch, initial, body.recordHash);
      cases := cases[record.caseId := row];
      return Appended(appended.value, row);
    }

    method Initialize(record: Record, actor: Option<string>, key: Option<string>, now: string) returns (r: Result<Record>)
      modifies this
      ensures var outcome := InitOutcome(env, old(Contents()), record, actor, key, now);
        && Contents() == Commit(old(Contents()), record.caseId, outcome)
        && r == WriteResult(env, old(Contents()), record.caseId, outcome, false)
    {
      var outcome := InitializeTx(record, actor, key, now);
      if outcome.Rejected? {
        return Err(outcome.failure);
      }
      r := Get(record.caseId, outcome.Appended?);
    }

    /** The transaction of transition, up to its COMMIT. */
    method TransitionTx(req: Request) returns (outcome: Outcome)
      modifies this
      ensures outcome == TransitionOutcome(env, old(Contents()), req)
      ensures Contents() == Commit(old(Contents()), req.caseId, outcome)
    {
      var actor := ResolveActor(env, req.actor);
      if actor.Fail? {
        return Rejected(actor.failure);
      }
      if req.state.caseId != req.caseId {
        return Rejected(ValueError);
      }
      if req.caseId !in cases {
        return Rejected(KeyError);
      }
      var row := cases[req.caseId];
      if row.version != req.expectedVersion || env.hash(RecordValue(row.state)) != row.currentHash {
        return Rejected(RuntimeError);
      }
      var guard := TransitionGuard(env, row, req);
      if guard.Fail? {
        return Rejected(guard.failure);
      }
      var body := TransitionBody(env, row.state.position.state, req);
      if KeyUsed(events, body.key) {
        var same := exists i :: 0 <= i < |events| && events[i].body.key == body.key && SameRequest(events[i], body);
        return if same then Replayed else Rejected(RuntimeError);
      }
      var appended := AppendEventTx(body);
      if appended.Err? {
        return Rejected(appended.failure);
      }
      var updated := CaseRow(req.expectedVersion + 1, body.epoch, body.state, body.recordHash);
      cases := cases[req.caseId := updated];
      assert TransitionOutcome(env, old(Contents()), req) == Appended(appended.value, updated);
      return Appended(appended.value, updated);
    }

    method Transition(req: Request) returns (r: Result<Record>)
      modifies this
      ensures var outcome := TransitionOutcome(env, old(Contents()), req);
        && Contents() == Commit(old(Contents()), req.caseId, outcome)
        && r == WriteResult(env, old(Contents()), req.caseId, outcome, true)
    {
      var outcome := TransitionTx(req);
      if outcome.Rejected? {
        return Err(outcome.failure);
      }
      r := Get(req.caseId, true);
    }

    /** prepare_transition_authorization: what an approver signs, read in one transaction and never written. */
    method PrepareTransitionAuthorization(req: Request, occurredAt: string) returns (r: Result<Prepared>)
      ensures r == PrepareOutcome(env, Contents(), req, occurredAt)
    {
      var actor := ResolveActor(env, req.actor);
      if actor.Fail? {
        return Err(actor.failure);
      }
      if req.state.caseId != req.caseId {
        return Err(ValueError);
      }
      if req.caseId !in cases {
        return Err(KeyError);
      }
      var row := cases[req.caseId];
      if row.version != req.expectedVersion {
        return Err(RuntimeError);
      }
      var body := PreparedBody(env, row.state.position.state, req, occurredAt);
      var sequence, previous := |events| + 1, if events == [] then GENESIS_HASH else events[|events| - 1].digest;
      return Ok(Prepared(sequence, previous, env.Commitment(sequence, previous, body), occurredAt, body.recordHash));
    }

    method MutateSubject(caseId: string, updates: Updates, reason: string, actor: Option<string>, version: int, now: string)
      returns (r: Result<Record>)
      modifies this
      ensures var before := old(Contents()); var read := ReadBack(env, before, caseId);
        var outcome := if read.Err? then Rejected(read.failure)
                       else MutationOutcome(env, before, caseId, updates, reason, actor, version, now);
        && Contents() == Commit(before, caseId, outcome)
        && r == WriteResult(env, before, caseId, outcome, true)
    {
      var current := Get(caseId, true);
      if current.Err? {
        return current;
      }
      if cases[caseId].version != version {
        return Err(RuntimeError);
      }
      var updated := ApplySubjectUpdate(env, current.value, updates, reason, now);
      if updated.Err? {
        return updated;
      }
      r := Transition(MutationRequest(updated.value, caseId, actor, version, now));
    }
  }
}
