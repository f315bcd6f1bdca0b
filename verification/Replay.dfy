/** The independent replay of an exported ledger (evidence_bundle.py). */
module Replay {
  import opened Basics
  import opened States
  import opened Records
  import opened HashChain
  import opened Events
  import opened Guards
  import opened ChainVerification

  /** What the replay looks at in an evidence record of the bundle. */
  datatype Witness = Witness(kind: string, caseId: string, epoch: int, fingerprint: Digest)

  datatype Bundle = Bundle(issueId: string, evidence: map<string, Witness>, subject: Subject,
                           terminal: State, closureClass: Option<string>)

  /** What the replay can check without the store: the shape of a MAC and the signatures, never the MAC itself. */
  datatype Verifier = Verifier(macShaped: string -> bool, authorizationValid: (Authorization, Subject) -> bool)

  datatype ReplayError =
    | OtherCase | NoBinding | BindingChanges | SequenceMismatch | BadPreviousHash | BadMacEnvelope | BadRecordHash
    | BadCurrentHash | BadFingerprint | BadActor | BadIdentity | SubjectDiffers | PolicyDiffers | ToolchainDiffers
    | EpochMismatch | EpochDecreases | EvidenceAbsent | EvidenceNotRequired | EvidenceForeign
    | NotInitialization | BadEpochStep | PriorMismatch | WrongDecision | NoAuthorization | AuthorizationUnbound
    | NoEvents | Incomplete | RuntimeInPackage | WrongEnd | WrongPrior | FinalEpochMismatch | FinalFingerprintMismatch

  // ---- The fragment the store's own verifier checks too ----

  predicate SelfDescribing(env: Environment, b: Body) {
    && b.subject == SubjectOf(b.state)
    && b.fingerprint == env.Fingerprint(b.subject)
    && b.epoch == b.subject.epoch
    && b.recordHash == env.hash(RecordValue(b.state))
    && b.actor == LIFECYCLE_CONTROLLER_ID
    && b.identity.controllerId == LIFECYCLE_CONTROLLER_ID
    && b.identity.controllerType == LIFECYCLE_CONTROLLER_TYPE
  }

  predicate Sequenced(env: Environment, history: seq<Event>, b: Body) {
    if history == [] then Initialization(b) else FollowsHistory(env, Last(history).body.state, b)
  }

  ghost predicate StructuralAt(env: Environment, events: seq<Event>, i: nat)
    requires i < |events|
  {
    HashedAt(env.Hasher(), events, i) && SelfDescribing(env, events[i].body) && Sequenced(env, events[..i], events[i].body)
  }

  /** Numbering, hash links, self-description, genesis, prior-state chaining and decisions, for one case. */
  ghost predicate Structural(env: Environment, events: seq<Event>) {
    forall i :: 0 <= i < |events| ==> StructuralAt(env, events, i)
  }

  // ---- What only the replay checks ----

  predicate Described(v: Verifier, binding: string, e: Event) {
    && e.body.binding != "" && e.body.binding == binding
    && v.macShaped(e.seal)
    && e.body.identity.source != "" && e.body.identity.mechanism != ""
    && (e.body.policyHash.None? || e.body.policyHash == Lookup(e.body.state.subject.material, PolicyBundle))
    && (e.body.toolchainHash.None? || e.body.toolchainHash == Lookup(e.body.state.subject.material, Toolchain))
  }

  /** The bundle holds the evidence an event accepted, and what it required. */
  predicate EvidenceBundled(bundle: Bundle, b: Body) {
    && b.accepted <= bundle.evidence.Keys
    && (forall t :: t in b.required ==> exists id :: id in b.accepted && id in bundle.evidence && bundle.evidence[id].kind == t)
    && (forall id :: id in b.accepted && id in bundle.evidence ==>
          bundle.evidence[id].caseId == bundle.issueId && bundle.evidence[id].epoch == b.epoch
          && bundle.evidence[id].fingerprint == b.fingerprint)
  }

  /** The claim the replay rebuilds from the event and the event before it. */
  function ReplayClaim(issueId: string, version: int, prevHash: Option<Digest>, b: Body): Option<Claim> {
    if prevHash.None? then None
    else Some(Claim(issueId, version, prevHash.value, b.recordHash, b.requested, b.decision, b.actor, b.key,
                    b.fingerprint, b.epoch, b.required, b.accepted, b.rejected, b.policyHash, b.toolchainHash,
                    LIFECYCLE_CONTROLLER_ID, LIFECYCLE_CONTROLLER_TYPE, b.identity.source, b.identity.mechanism))
  }

  /** Asked for whenever the requested or the entered state is protected. */
  predicate Authorized(env: Environment, v: Verifier, issueId: string, history: seq<Event>, e: Event) {
    ProtectedState(e.body.requested) || ProtectedState(e.body.state.position.state) ==>
      && e.body.authorization.Some?
      && v.authorizationValid(e.body.authorization.value, e.body.subject)
      && e.body.authorization.value.kind == TRANSITION_AUTHORIZATION_TYPE
      && e.body.authorization.value.commitment == env.Commitment(e.sequence, e.previous, e.body)
      && e.body.authorization.value.occurredAt == e.body.occurredAt
      && e.body.authorization.value.createdAt == e.body.occurredAt
      && Some(e.body.authorization.value.claim)
         == ReplayClaim(issueId, |history|, if history == [] then None else Some(Last(history).body.recordHash), e.body)
  }

  predicate ReplayOnly(env: Environment, v: Verifier, bundle: Bundle, events: seq<Event>, i: nat)
    requires i < |events|
  {
    && events[i].body.caseId == bundle.issueId
    && Described(v, events[0].body.binding, events[i])
    && EvidenceBundled(bundle, events[i].body)
    && Authorized(env, v, bundle.issueId, events[..i], events[i])
  }

  /** The running maximum `previous_epoch`, which starts at zero. */
  function MaxEpoch(events: seq<Event>): int {
    if events == [] then 0
    else
      var before := MaxEpoch(events[..|events| - 1]);
      if Last(events).body.epoch > before then Last(events).body.epoch else before
  }

  ghost predicate ReplayedAt(env: Environment, v: Verifier, bundle: Bundle, events: seq<Event>, i: nat)
    requires i < |events|
  {
    StructuralAt(env, events, i) && ReplayOnly(env, v, bundle, events, i) && MaxEpoch(events[..i]) <= events[i].body.epoch
  }

  /** The event loop of _validate_lifecycle_replay reports no error. */
  ghost predicate Replays(env: Environment, v: Verifier, bundle: Bundle, events: seq<Event>) {
    forall i :: 0 <= i < |events| ==> ReplayedAt(env, v, bundle, events, i)
  }

  /** The first `n` turns of the loop report no error. */
  ghost predicate ReplaysUpTo(env: Environment, v: Verifier, bundle: Bundle, events: seq<Event>, n: nat)
    requires n <= |events|
  {
    forall i :: 0 <= i < n ==> ReplayedAt(env, v, bundle, events, i)
  }

  // ---- The loop ----

  method CheckContents(env: Environment, bundle: Bundle, b: Body) returns (errors: seq<ReplayError>)
    ensures errors == [] <==> b.caseId == bundle.issueId && SelfDescribing(env, b) && EvidenceBundled(bundle, b)
  {
    errors := [];
    if b.caseId != bundle.issueId { errors := errors + [OtherCase]; }
    if b.recordHash != env.hash(RecordValue(b.state)) { errors := errors + [BadCurrentHash]; }
    if b.fingerprint != env.Fingerprint(b.subject) { errors := errors + [BadFingerprint]; }
    if b.actor != LIFECYCLE_CONTROLLER_ID { errors := errors + [BadActor]; }
    if b.identity.controllerId != LIFECYCLE_CONTROLLER_ID || b.identity.controllerType != LIFECYCLE_CONTROLLER_TYPE {
      errors := errors + [BadIdentity];
    }
    if b.subject != SubjectOf(b.state) { errors := errors + [SubjectDiffers]; }
    if b.epoch != b.subject.epoch { errors := errors + [EpochMismatch]; }
    if !EvidenceBundled(bundle, b) { errors := errors + [EvidenceAbsent]; }
  }

  /** The binding of the first event becomes the binding of the export. */
  method CheckEnvelope(v: Verifier, binding: Option<string>, e: Event) returns (errors: seq<ReplayError>, now: Option<string>)
    ensures errors == [] ==> now == binding.Or(Some(e.body.binding))
    ensures errors == [] <==> Described(v, binding.Or(Some(e.body.binding)).value, e)
  {
    var b := e.body;
    errors, now := [], binding;
    if b.binding == "" {
      errors := errors + [NoBinding];
    } else if binding.None? {
      now := Some(b.binding);
    } else if b.binding != binding.value {
      errors := errors + [BindingChanges];
    }
    if !v.macShaped(e.seal) { errors := errors + [BadMacEnvelope]; }
    if b.identity.source == "" || b.identity.mechanism == "" { errors := errors + [BadIdentity]; }
    if b.policyHash.Some? && b.policyHash != Lookup(b.state.subject.material, PolicyBundle) { errors := errors + [PolicyDiffers]; }
    if b.toolchainHash.Some? && b.toolchainHash != Lookup(b.state.subject.material, Toolchain) { errors := errors + [ToolchainDiffers]; }
  }

  /** The check against the running `case_state` and `case_resume_state`. */
  method CheckSequence(env: Environment, state: Option<State>, resume: Option<State>, history: seq<Event>, b: Body)
    returns (errors: seq<ReplayError>)
    requires state == (if history == [] then None else Some(Last(history).body.state.position.state))
    requires history != [] ==> resume == Last(history).body.state.position.resume
    ensures errors == [] <==> Sequenced(env, history, b)
  {
    errors := [];
    if state.None? {
      if !Initialization(b) { errors := errors + [NotInitialization]; }
      return;
    }
    var entered := b.state.position.state;
    if !EpochStepOk(env, history[|history| - 1].body.state, b.state) { errors := errors + [BadEpochStep]; }
    if b.prior != state { errors := errors + [PriorMismatch]; }
    var logical := if state.value != Blocked then state.value else if resume.Some? then resume.value else Unknown("None");
    var matches := match b.decision
      case Proceed => entered == b.requested && b.requested in AllowedTransitions(logical)
      case BlockedDecision => entered == Blocked
      case RollbackDecision => entered == RollbackRequired
      case _ => BindingDecision(b.decision) && (entered == state.value || entered == Blocked || entered == RollbackRequired);
    if !matches { errors := errors + [WrongDecision]; }
  }

  method CheckHash(env: Environment, e: Event, expectedSequence: int, previousHash: Digest) returns (errors: seq<ReplayError>)
    ensures errors == [] <==>
      && e.sequence == expectedSequence && e.previous == previousHash
      && e.digest == env.hash(EventValue(e.sequence, e.previous, e.body)) && e.digest != ""
  {
    errors := [];
    if e.sequence != expectedSequence { errors := errors + [SequenceMismatch]; }
    if e.previous != previousHash { errors := errors + [BadPreviousHash]; }
    if e.digest == "" || e.digest != env.hash(EventValue(e.sequence, e.previous, e.body)) { errors := errors + [BadRecordHash]; }
  }

  /** No document hashes to the empty text: every rendered digest starts with its algorithm. */
  ghost predicate RendersHashes(env: Environment) {
    forall x :: env.hash(x) != ""
  }

  /** The running values of the loop. */
  datatype Cursor = Cursor(previousHash: Digest, expectedSequence: int, previousEpoch: int, binding: Option<string>,
                           caseEvents: seq<Event>, state: Option<State>, resume: Option<State>)
  {
    /** The remembered state is that of the last event of the case. */
    predicate Synced() {
      && state == (if caseEvents == [] then None else Some(Last(caseEvents).body.state.position.state))
      && (caseEvents != [] ==> resume == Last(caseEvents).body.state.position.resume)
    }
  }

  /** What the cursor holds after `n` events in which no error was found. */
  ghost predicate At(c: Cursor, events: seq<Event>, n: nat)
    requires n <= |events|
  {
    && c.previousHash == Head(events[..n]) && c.expectedSequence == n + 1 && c.previousEpoch == MaxEpoch(events[..n])
    && c.binding == (if n == 0 then None else Some(events[0].body.binding))
    && c.caseEvents == events[..n]
  }

  /** The part of the loop body for events of the replayed case. */
  method CheckCaseEvent(env: Environment, v: Verifier, issueId: string, c: Cursor, e: Event) returns (errors: seq<ReplayError>)
    requires c.Synced()
    ensures errors == [] <==> Sequenced(env, c.caseEvents, e.body) && Authorized(env, v, issueId, c.caseEvents, e)
  {
    errors := CheckSequence(env, c.state, c.resume, c.caseEvents, e.body);
    if !Authorized(env, v, issueId, c.caseEvents, e) { errors := errors + [AuthorizationUnbound]; }
  }

  /** What one turn of the loop asks of an event, given the running values. */
  ghost predicate TurnOk(env: Environment, v: Verifier, bundle: Bundle, c: Cursor, e: Event) {
    && e.body.caseId == bundle.issueId && SelfDescribing(env, e.body) && EvidenceBundled(bundle, e.body)
    && Described(v, c.binding.Or(Some(e.body.binding)).value, e)
    && e.sequence == c.expectedSequence && e.previous == c.previousHash
    && e.digest == env.hash(EventValue(e.sequence, e.previous, e.body))
    && c.previousEpoch <= e.body.epoch
    && Sequenced(env, c.caseEvents, e.body) && Authorized(env, v, bundle.issueId, c.caseEvents, e)
  }

  /** The running values after an event. */
  function Advance(c: Cursor, issueId: string, e: Event, binding: Option<string>): Cursor {
    var own := if e.body.caseId != issueId then c
               else c.(caseEvents := c.caseEvents + [e], state := Some(e.body.state.position.state), resume := e.body.state.position.resume);
    own.(previousHash := if e.digest != "" then e.digest else c.previousHash, expectedSequence := e.sequence + 1,
         previousEpoch := if e.body.epoch > c.previousEpoch then e.body.epoch else c.previousEpoch, binding := binding)
  }

  lemma TurnIsReplayedAt(env: Environment, v: Verifier, bundle: Bundle, events: seq<Event>, i: nat, c: Cursor)
    requires i < |events| && At(c, events, i)
    ensures TurnOk(env, v, bundle, c, events[i]) <==> ReplayedAt(env, v, bundle, events, i)
  {
  }

  lemma AdvanceAt(events: seq<Event>, i: nat, c: Cursor, issueId: string)
    requires i < |events| && At(c, events, i) && events[i].body.caseId == issueId && events[i].digest != ""
    requires events[i].sequence == c.expectedSequence
    ensures At(Advance(c, issueId, events[i], c.binding.Or(Some(events[i].body.binding))), events, i + 1)
  {
    assert events[..i + 1] == events[..i] + [events[i]];
  }

  /** One turn of the loop. */
  method ReplayEvent(env: Environment, v: Verifier, bundle: Bundle, c: Cursor, e: Event) returns (errors: seq<ReplayError>, next: Cursor)
    requires c.Synced() && RendersHashes(env)
    ensures errors == [] <==> TurnOk(env, v, bundle, c, e)
    ensures next.Synced() && (errors == [] ==> next == Advance(c, bundle.issueId, e, c.binding.Or(Some(e.body.binding))))
  {
    var contents := CheckContents(env, bundle, e.body);
    var envelope, binding := CheckEnvelope(v, c.binding, e);
    var hashed := CheckHash(env, e, c.expectedSequence, c.previousHash);
    var epoch := if e.body.epoch < c.previousEpoch then [EpochDecreases] else [];
    var own := [];
    if e.body.caseId == bundle.issueId {
      own := CheckCaseEvent(env, v, bundle.issueId, c, e);
    }
    errors := contents + envelope + hashed + epoch + own;
    assert errors == [] <==> contents == [] && envelope == [] && hashed == [] && epoch == [] && own == [];
    next := Advance(c, bundle.issueId, e, binding);
  }

  lemma UpToNext(env: Environment, v: Verifier, bundle: Bundle, events: seq<Event>, i: nat)
    requires i < |events|
    ensures ReplaysUpTo(env, v, bundle, events, i + 1) <==> ReplaysUpTo(env, v, bundle, events, i) && ReplayedAt(env, v, bundle, events, i)
  {
  }

  lemma CleanTurn(env: Environment, v: Verifier, bundle: Bundle, events: seq<Event>, i: nat, c: Cursor)
    requires i < |events| && At(c, events, i) && RendersHashes(env)
    ensures TurnOk(env, v, bundle, c, events[i]) <==> ReplayedAt(env, v, bundle, events, i)
    ensures TurnOk(env, v, bundle, c, events[i]) ==>
      At(Advance(c, bundle.issueId, events[i], c.binding.Or(Some(events[i].body.binding))), events, i + 1)
  {
    TurnIsReplayedAt(env, v, bundle, events, i, c);
    if TurnOk(env, v, bundle, c, events[i]) {
      AdvanceAt(events, i, c, bundle.issueId);
    }
  }

  /** The loop goes on after errors; only as long as there are none do the running values say anything about the past. */
  method ReplayEvents(env: Environment, v: Verifier, bundle: Bundle, events: seq<Event>)
    returns (errors: seq<ReplayError>, caseEvents: seq<Event>)
    requires RendersHashes(env)
    ensures errors == [] <==> Replays(env, v, bundle, events)
    ensures errors == [] ==> caseEvents == events
  {
    errors := [];
    var c := Cursor(GENESIS_HASH, 1, 0, None, [], None, None);
    for i := 0 to |events|
      invariant c.Synced()
      invariant errors == [] <==> ReplaysUpTo(env, v, bundle, events, i)
      invariant errors == [] ==> At(c, events, i)
    {
      var found, next := ReplayEvent(env, v, bundle, c, events[i]);
      if errors == [] {
        CleanTurn(env, v, bundle, events, i, c);
      }
      UpToNext(env, v, bundle, events, i);
      assert errors + found == [] <==> errors == [] && found == [];
      errors, c := errors + found, next;
    }
    assert events[..|events|] == events;
    caseEvents := c.caseEvents;
  }

  // ---- After the loop ----

  function RequiredStates(bundle: Bundle): seq<State> {
    if bundle.terminal == ResolvedNoCode then CODE_LIFECYCLE[..3]
    else if bundle.terminal == RollbackRequired then CODE_LIFECYCLE[..17]
    else if bundle.terminal == Closed && bundle.closureClass == Some("PACKAGE_RELEASE") then
      COMMON_LIFECYCLE + [PackageReleased, ReleaseArtifactVerified, ConsumerValidationPass, Closed]
    else if bundle.terminal == Closed && ModelOf(bundle.subject) == HYBRID && bundle.closureClass == Some("CODE_FIX") then
      COMMON_LIFECYCLE + [PackageReleased, ReleaseArtifactVerified, ConsumerValidationPass] + CODE_LIFECYCLE[|COMMON_LIFECYCLE|..]
    else CODE_LIFECYCLE
  }

  function ModelOf(s: Subject): string {
    if DeliveryModel in s.material && s.material[DeliveryModel] != "" then s.material[DeliveryModel] else HOSTED_RUNTIME_SERVICE
  }

  function RequestedStates(events: seq<Event>): seq<State> {
    seq(|events|, i requires 0 <= i < |events| => events[i].body.requested)
  }

  /** Every state the closure calls for was requested by some event; whether it was entered is not asked. */
  predicate Complete(bundle: Bundle, requested: seq<State>) {
    forall s :: s in RequiredStates(bundle) ==> s in requested
  }

  predicate RuntimeRequested(requested: seq<State>) {
    exists i :: 0 <= i < |requested| && RuntimeState(requested[i])
  }

  predicate ProvenNoCode(bundle: Bundle, accepted: set<string>) {
    exists id :: id in accepted && id in bundle.evidence && bundle.evidence[id].kind == NO_CODE_EVIDENCE
  }

  predicate ClosesAsClassified(bundle: Bundle, requested: seq<State>, prior: Option<State>) {
    bundle.terminal == Closed ==>
      && (bundle.closureClass == Some("CODE_FIX") ==> prior == Some(PostDeployVerified))
      && (bundle.closureClass == Some("ROLLBACK_CLOSURE") ==> prior == Some(RollbackRequired) && RollbackRequired in requested)
      && (bundle.closureClass == Some("PACKAGE_RELEASE") ==>
            prior == Some(ConsumerValidationPass) && ModelOf(bundle.subject) == PACKAGE_OR_PLUGIN)
  }

  predicate EndsProperly(env: Environment, bundle: Bundle, events: seq<Event>)
    requires events != []
  {
    var end := Last(events).body;
    && !(ModelOf(bundle.subject) == PACKAGE_OR_PLUGIN && RuntimeRequested(RequestedStates(events)))
    && (if bundle.terminal == ResolvedNoCode
        then end.requested == ResolvedNoCode && end.state.position.state == ResolvedNoCode && ProvenNoCode(bundle, end.accepted)
        else end.requested == Closed || end.requested == RollbackRequired)
    && ClosesAsClassified(bundle, RequestedStates(events), end.prior)
    && end.epoch == bundle.subject.epoch && end.fingerprint == env.Fingerprint(bundle.subject)
  }

  /** _validate_lifecycle_replay */
  method ValidateReplay(env: Environment, v: Verifier, bundle: Bundle, events: seq<Event>) returns (errors: seq<ReplayError>)
    requires RendersHashes(env)
    ensures errors == [] <==>
      && Replays(env, v, bundle, events) && events != []
      && Complete(bundle, RequestedStates(events)) && EndsProperly(env, bundle, events)
  {
    var caseEvents;
    errors, caseEvents := ReplayEvents(env, v, bundle, events);
    if caseEvents == [] {
      return errors + [NoEvents];
    }
    var requested, end := RequestedStates(caseEvents), caseEvents[|caseEvents| - 1].body;
    var late := [];
    if !Complete(bundle, requested) { late := late + [Incomplete]; }
    if ModelOf(bundle.subject) == PACKAGE_OR_PLUGIN && RuntimeRequested(requested) { late := late + [RuntimeInPackage]; }
    if bundle.terminal == ResolvedNoCode {
      if end.requested != ResolvedNoCode || end.state.position.state != ResolvedNoCode { late := late + [WrongEnd]; }
      if !ProvenNoCode(bundle, end.accepted) { late := late + [EvidenceNotRequired]; }
    } else if end.requested != Closed && end.requested != RollbackRequired {
      late := late + [WrongEnd];
    }
    if !ClosesAsClassified(bundle, requested, end.prior) { late := late + [WrongPrior]; }
    if end.epoch != bundle.subject.epoch { late := late + [FinalEpochMismatch]; }
    if end.fingerprint != env.Fingerprint(bundle.subject) { late := late + [FinalFingerprintMismatch]; }
    assert errors == [] ==> (late == [] <==> Complete(bundle, RequestedStates(events)) && EndsProperly(env, bundle, events));
    assert errors + late == [] <==> errors == [] && late == [];
    errors := errors + late;
  }
}
