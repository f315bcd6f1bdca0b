/** What verify_event_chain accepts, stated without its loop. */
module ChainVerification {
  import opened Basics
  import opened States
  import opened Records
  import opened HashChain
  import opened Events
  import opened Guards

  /** The parts of an event that repeat each other or the store's configuration agree. */
  predicate SelfConsistent(env: Environment, b: Body) {
    && b.subject == SubjectOf(b.state)
    && b.fingerprint == env.Fingerprint(b.subject)
    && b.epoch == b.subject.epoch
    && b.recordHash == env.hash(RecordValue(b.state))
    && b.actor == LIFECYCLE_CONTROLLER_ID
    && b.identity.controllerId == LIFECYCLE_CONTROLLER_ID
    && b.identity.controllerType == LIFECYCLE_CONTROLLER_TYPE
    && b.binding == env.binding
  }

  predicate Initialization(b: Body) {
    b.prior.None? && b.state.position.state == UnverifiedReport && b.requested == UnverifiedReport && b.decision == Initialized
  }

  /** The state an event writes is the one its decision permits after `prev`. */
  predicate DecisionMatches(prev: Position, b: Body) {
    var state := b.state.position.state;
    match b.decision
    case Proceed => state == b.requested && b.requested in AllowedTransitions(Logical(prev))
    case BlockedDecision => state == Blocked
    case RollbackDecision => state == RollbackRequired
    case _ => BindingDecision(b.decision) && (state == prev.state || state == Blocked || state == RollbackRequired)
  }

  predicate FollowsHistory(env: Environment, prev: Record, b: Body) {
    EpochStepOk(env, prev, b.state) && b.prior == Some(prev.position.state) && DecisionMatches(prev.position, b)
  }

  function EventClaim(env: Environment, version: int, prevHash: Digest, b: Body): Claim {
    ClaimOf(env, b.caseId, version, prevHash, b.recordHash, b.requested, b.decision, b.actor, b.key, b.subject,
            b.required, b.accepted, b.rejected, b.policyHash, b.toolchainHash)
  }

  /** Evidence and authorization are there exactly when the event enters a protected state. */
  predicate Protection(env: Environment, version: int, prevHash: Digest, b: Body) {
    if ProtectedState(b.state.position.state) then
      && EvidenceOk(env, b.records, b.caseId, b.subject, b.required, b.accepted)
      && AuthorizationOk(env, b.authorization, EventClaim(env, version, prevHash, b), b.subject)
    else b.authorization.None?
  }

  /** One event after the earlier events of its case. */
  predicate BodyOk(env: Environment, history: seq<Event>, b: Body) {
    && SelfConsistent(env, b)
    && if history == [] then Initialization(b) && b.authorization.None?
       else
         var prev := Last(history).body;
         FollowsHistory(env, prev.state, b) && Protection(env, |history|, prev.recordHash, b)
  }

  predicate EventOk(env: Environment, events: seq<Event>, i: nat)
    requires i < |events|
  {
    BodyOk(env, History(events[..i], events[i].body.caseId), events[i].body)
  }

  /** A case row against the events of its case; a version equal to the global sequence also passes. */
  predicate RowOk(env: Environment, history: seq<Event>, row: CaseRow) {
    && history != []
    && row.currentHash == Last(history).body.recordHash
    && env.hash(RecordValue(row.state)) == row.currentHash
    && (row.version == Last(history).sequence || row.version == |history|)
  }

  ghost predicate EventsOk(env: Environment, events: seq<Event>) {
    Linked(env.Hasher(), events) && forall i :: 0 <= i < |events| ==> EventOk(env, events, i)
  }

  ghost predicate RowsOk(env: Environment, l: Ledger) {
    forall c :: c in l.cases ==> RowOk(env, History(l.events, c), l.cases[c])
  }

  /** verify_event_chain reports no error. */
  ghost predicate ChainValid(env: Environment, l: Ledger) {
    l.binding == env.binding && EventsOk(env, l.events) && RowsOk(env, l)
  }

  lemma {:induction false} EventsOkAppend(env: Environment, events: seq<Event>, e: Event)
    ensures EventsOk(env, events + [e]) <==>
            && EventsOk(env, events) && e == NextLink(env.Hasher(), events, e.body)
            && BodyOk(env, History(events, e.body.caseId), e.body)
  {
    AppendLinked(env.Hasher(), events, e);
    var longer := events + [e];
    assert forall i :: 0 <= i < |events| ==> longer[..i] == events[..i];
    assert longer[..|events|] == events;
    assert EventOk(env, longer, |events|) <==> BodyOk(env, History(events, e.body.caseId), e.body);
    assert forall i :: 0 <= i < |events| ==> (EventOk(env, longer, i) <==> EventOk(env, events, i));
  }
}
