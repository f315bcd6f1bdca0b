/** What a verified ledger says, field by field: exactly when verify_event_chain reports no error. */
module VerifiedEvents {
  import opened Basics
  import opened States
  import opened Records
  import opened HashChain
  import opened Events
  import opened Guards
  import opened ChainVerification

  // ---- One event by itself ----

  /** The event repeats its own record and names the controller. */
  predicate NamesItself(env: Environment, b: Body) {
    && b.recordHash == env.hash(RecordValue(b.state))
    && b.subject == SubjectOf(b.state) && b.fingerprint == env.hash(SubjectValue(b.subject)) && b.epoch == b.state.subject.epoch
    && b.actor == "platform:lifecycle-controller" && b.identity.controllerId == "platform:lifecycle-controller"
    && b.identity.controllerType == "protected-lifecycle-controller"
  }

  /** The event has the next number, the hash of its predecessor, its own hash, and a MAC of that. */
  predicate IsLinked(env: Environment, events: seq<Event>, i: nat)
    requires i < |events|
  {
    var e := events[i];
    && e.sequence == i + 1 && e.previous == (if i == 0 then GENESIS_HASH else events[i - 1].digest)
    && e.digest == env.hash(EventValue(e.sequence, e.previous, e.body)) && e.seal == env.mac(e.digest)
  }

  // ---- An event after the earlier ones of its case ----

  predicate Opens(b: Body) {
    b.prior == None && b.state.position.state == UnverifiedReport && b.requested == UnverifiedReport && b.decision == Initialized
  }

  /** Where the case stood: a blocked one at the state it is to resume at. */
  function Stood(p: Position): State {
    if p.state != Blocked then p.state else p.resume.Or(Some(Unknown(""))).value
  }

  /** Where the decision of an event may lead: a PROCEED to the state it asked for, along an edge out of where the case
      stood, or out of the state a block is to resume at. */
  predicate LeadsOn(prev: Position, b: Body) {
    var entered := b.state.position.state;
    || (b.decision == Proceed && entered == b.requested && entered in AllowedTransitions(Stood(prev)))
    || (b.decision == BlockedDecision && entered == Blocked)
    || (b.decision == RollbackDecision && entered == RollbackRequired)
    || (b.decision in {SubjectBound, ArtifactBound, SubjectMutationInvalidated} && entered in {prev.state, Blocked, RollbackRequired})
  }

  /** A material change counts the epoch up by one, and one of the release or the deployed revision halts the case. */
  predicate CountsEpoch(env: Environment, prev: Record, next: Record) {
    var before, after := SubjectOf(prev).material, SubjectOf(next).material;
    if before == after then next.subject.epoch == prev.subject.epoch
    else
      && next.subject.epoch == prev.subject.epoch + 1 && next.subject.fingerprint == Some(env.hash(SubjectValue(SubjectOf(next))))
      && (Lookup(before, ProductionRelease) != Lookup(after, ProductionRelease)
          || Lookup(before, DeployedRevision) != Lookup(after, DeployedRevision) ==>
            next.position.state in {RollbackRequired, Blocked, ChangePlanned})
  }

  /** The event goes on from the record before it. */
  predicate Continues(env: Environment, prev: Record, b: Body) {
    b.prior == Some(prev.position.state) && LeadsOn(prev.position, b) && CountsEpoch(env, prev, b.state)
  }

  /** The states that take a signed authorization. */
  const SIGNED_STATES: set<State> := {
    PackageReleased, ReleaseArtifactVerified, ConsumerValidationPass, ReadyForOwnerRelease, ProductionReleased,
    PostDeployVerified, Closed, ResolvedNoCode, RollbackRequired}

  /** Every record kept is one of this case under a name of its own; each accepted name has its record, and what is
      accepted is valid for the subject and of a required type. */
  predicate ShowsEvidence(env: Environment, b: Body) {
    && (forall r :: r in b.records ==> r.caseId == b.caseId && r.evidenceId != "" && b.records[r] == 1)
    && (forall r, s :: r in b.records && s in b.records && r != s ==> r.evidenceId != s.evidenceId)
    && (forall id :: id in b.accepted ==> exists r :: r in b.records && r.evidenceId == id)
    && (forall r :: r in b.records && r.evidenceId in b.accepted ==>
          env.evidenceValid(r, b.subject) && (b.required != {} ==> r.kind in b.required))
  }

  /** The signature is of this very event: of its case and number, of the records before and after it, and of all that
      was asked and decided. */
  predicate IsSigned(env: Environment, number: nat, before: Digest, b: Body) {
    b.authorization.Some? &&
    var a := b.authorization.value;
    && env.hostAccepted && env.authorizationValid(a, b.subject)
    && a.kind == "LIFECYCLE_TRANSITION_AUTHORIZATION" && |a.evidenceId| >= 3 && a.evidenceId[..3] == "ev-"
    && a.commitment != "" && a.occurredAt != ""
    && a.claim.caseId == b.caseId && a.claim.expectedVersion == number && a.claim.key == b.key && a.claim.actor == b.actor
    && a.claim.currentRecordHash == before && a.claim.nextRecordHash == b.recordHash
    && a.claim.requested == b.requested && a.claim.decision == b.decision
    && a.claim.fingerprint == env.hash(SubjectValue(b.subject)) && a.claim.epoch == b.subject.epoch
    && a.claim.required == b.required && a.claim.accepted == b.accepted && a.claim.rejected == b.rejected
    && a.claim.policyHash == b.policyHash && a.claim.toolchainHash == b.toolchainHash
    && a.claim.controllerId == env.controller.controllerId && a.claim.controllerType == env.controller.controllerType
    && a.claim.source == env.controller.source && a.claim.mechanism == env.controller.mechanism
    && (b.requested in SIGNED_STATES ==> b.accepted != {})
  }

  predicate IsProtected(env: Environment, number: nat, before: Digest, b: Body) {
    if b.state.position.state in SIGNED_STATES then ShowsEvidence(env, b) && IsSigned(env, number, before, b)
    else b.authorization == None
  }

  predicate Reads(env: Environment, history: seq<Event>, b: Body) {
    && NamesItself(env, b) && b.binding == env.binding
    && if history == [] then Opens(b) && b.authorization == None
       else
         var prev := history[|history| - 1].body;
         && Continues(env, prev.state, b) && IsProtected(env, |history|, prev.recordHash, b)
  }

  /** A row repeats the record of the last event of its case; its version counts the events of the case, or is the number
      of the last one in the whole ledger. */
  predicate Repeats(env: Environment, history: seq<Event>, row: CaseRow) {
    && history != [] && row.currentHash == history[|history| - 1].body.recordHash
    && row.currentHash == env.hash(RecordValue(row.state))
    && (row.version == |history| || row.version == history[|history| - 1].sequence)
  }

  // ---- The two readings agree ----

  lemma NamesItselfIff(env: Environment, b: Body)
    ensures SelfConsistent(env, b) <==> NamesItself(env, b) && b.binding == env.binding
  {
  }

  lemma LinkedIff(env: Environment, events: seq<Event>)
    ensures Linked(env.Hasher(), events) <==> forall i :: 0 <= i < |events| ==> IsLinked(env, events, i)
  {
    forall i | 0 <= i < |events| ensures LinkedAt(env.Hasher(), events, i) <==> IsLinked(env, events, i) {}
  }

  lemma LeadsOnIff(prev: Position, b: Body)
    ensures DecisionMatches(prev, b) <==> LeadsOn(prev, b)
  {
  }

  lemma ProductionChanged(before: Material, after: Material, changed: set<MaterialField>)
    requires forall f :: f in changed <==> Lookup(before, f) != Lookup(after, f)
    ensures (exists f :: f in changed && ProductionField(f)) <==>
      Lookup(before, ProductionRelease) != Lookup(after, ProductionRelease) || Lookup(before, DeployedRevision) != Lookup(after, DeployedRevision)
  {
    assert ProductionRelease in changed ==> ProductionField(ProductionRelease);
    assert DeployedRevision in changed ==> ProductionField(DeployedRevision);
  }

  lemma ChangesAre(old_: Subject, new_: Subject, f: MaterialField)
    ensures f in MaterialChanges(old_, new_) <==> Lookup(old_.material, f) != Lookup(new_.material, f)
  {
  }

  lemma CountsEpochIff(env: Environment, prev: Record, next: Record)
    ensures EpochStepOk(env, prev, next) <==> CountsEpoch(env, prev, next)
  {
    var before, after := SubjectOf(prev), SubjectOf(next);
    forall f ensures f in MaterialChanges(before, after) <==> Lookup(before.material, f) != Lookup(after.material, f) {
      ChangesAre(before, after, f);
    }
    ProductionChanged(before.material, after.material, MaterialChanges(before, after));
  }

  lemma ContinuesIff(env: Environment, prev: Record, b: Body)
    ensures FollowsHistory(env, prev, b) <==> Continues(env, prev, b)
  {
    LeadsOnIff(prev.position, b);
    CountsEpochIff(env, prev, b.state);
  }

  lemma SignedStates(s: State)
    ensures ProtectedState(s) <==> s in SIGNED_STATES
  {
  }

  lemma Prefixed(id: string)
    ensures EvidenceIdPrefixed(id) <==> |id| >= 3 && id[..3] == "ev-"
  {
    assert |id| >= 3 ==> ("ev-" <= id <==> id[..3] == "ev-");
  }

  lemma ShowsEvidenceIff(env: Environment, b: Body)
    ensures EvidenceOk(env, b.records, b.caseId, b.subject, b.required, b.accepted) <==> ShowsEvidence(env, b)
  {
  }

  lemma IsSignedIff(env: Environment, number: nat, before: Digest, b: Body)
    ensures AuthorizationOk(env, b.authorization, EventClaim(env, number, before, b), b.subject) <==> IsSigned(env, number, before, b)
  {
    SignedStates(b.requested);
    if b.authorization.Some? {
      Prefixed(b.authorization.value.evidenceId);
    }
  }

  lemma IsProtectedIff(env: Environment, number: nat, before: Digest, b: Body)
    ensures Protection(env, number, before, b) <==> IsProtected(env, number, before, b)
  {
    SignedStates(b.state.position.state);
    ShowsEvidenceIff(env, b);
    IsSignedIff(env, number, before, b);
  }

  lemma ReadsIff(env: Environment, history: seq<Event>, b: Body)
    ensures BodyOk(env, history, b) <==> Reads(env, history, b)
  {
    NamesItselfIff(env, b);
    if history != [] {
      var prev := Last(history).body;
      ContinuesIff(env, prev.state, b);
      IsProtectedIff(env, |history|, prev.recordHash, b);
    }
  }

  predicate ReadsAt(env: Environment, events: seq<Event>, i: nat)
    requires i < |events|
  {
    IsLinked(env, events, i) && Reads(env, History(events[..i], events[i].body.caseId), events[i].body)
  }

  lemma EventsReadIff(env: Environment, events: seq<Event>)
    ensures EventsOk(env, events) <==> forall i :: 0 <= i < |events| ==> ReadsAt(env, events, i)
  {
    LinkedIff(env, events);
    forall i | 0 <= i < |events| ensures ReadsAt(env, events, i) <==> IsLinked(env, events, i) && EventOk(env, events, i) {
      ReadsIff(env, History(events[..i], events[i].body.caseId), events[i].body);
    }
  }

  /** verify_event_chain reports no error exactly for these ledgers. */
  lemma VerifiesIff(env: Environment, l: Ledger)
    ensures ChainValid(env, l) <==>
      && l.binding == env.binding
      && (forall i :: 0 <= i < |l.events| ==> ReadsAt(env, l.events, i))
      && (forall c :: c in l.cases ==> Repeats(env, History(l.events, c), l.cases[c]))
  {
    EventsReadIff(env, l.events);
    forall c | c in l.cases ensures RowOk(env, History(l.events, c), l.cases[c]) <==> Repeats(env, History(l.events, c), l.cases[c]) {}
  }
}
