/** What an export must be for its replay to report no error, field by field. */
module ReplayRules {
  import opened Basics
  import opened States
  import opened Records
  import opened HashChain
  import opened Events
  import opened Replay
  import opened VerifiedEvents

  /** The event names a store, always the same one, carries something shaped like a MAC, says where its controller comes from,
      and repeats the policy and the toolchain of its record where it names them. */
  predicate Envelopes(v: Verifier, binding: string, e: Event) {
    var b := e.body;
    && b.binding == binding && binding != "" && v.macShaped(e.seal) && b.identity.source != "" && b.identity.mechanism != ""
    && (b.policyHash.Some? ==> Lookup(b.state.subject.material, PolicyBundle) == b.policyHash)
    && (b.toolchainHash.Some? ==> Lookup(b.state.subject.material, Toolchain) == b.toolchainHash)
  }

  /** Everything accepted is in the bundle, of this case and for this very subject, and covers every required type. */
  predicate Bundles(bundle: Bundle, b: Body) {
    && (forall id :: id in b.accepted ==>
          && id in bundle.evidence && bundle.evidence[id].caseId == bundle.issueId
          && bundle.evidence[id].epoch == b.epoch && bundle.evidence[id].fingerprint == b.fingerprint)
    && (forall t :: t in b.required ==> exists id :: id in b.accepted && id in bundle.evidence && bundle.evidence[id].kind == t)
  }

  /** A signature of this very event, for a protected state that was entered or only asked for. */
  predicate Signs(env: Environment, v: Verifier, issueId: string, history: seq<Event>, e: Event) {
    var b := e.body;
    b.requested in SIGNED_STATES || b.state.position.state in SIGNED_STATES ==>
      && b.authorization.Some? && history != []
      && var a := b.authorization.value;
      && v.authorizationValid(a, b.subject) && a.kind == "LIFECYCLE_TRANSITION_AUTHORIZATION"
      && a.occurredAt == b.occurredAt && a.createdAt == b.occurredAt
      && a.commitment == env.hash(CommitmentValue(e.sequence, e.previous, b.(authorization := None)))
      && a.claim.caseId == issueId && a.claim.expectedVersion == |history| && a.claim.key == b.key && a.claim.actor == b.actor
      && a.claim.currentRecordHash == history[|history| - 1].body.recordHash && a.claim.nextRecordHash == b.recordHash
      && a.claim.requested == b.requested && a.claim.decision == b.decision
      && a.claim.fingerprint == b.fingerprint && a.claim.epoch == b.epoch
      && a.claim.required == b.required && a.claim.accepted == b.accepted && a.claim.rejected == b.rejected
      && a.claim.policyHash == b.policyHash && a.claim.toolchainHash == b.toolchainHash
      && a.claim.controllerId == "platform:lifecycle-controller" && a.claim.controllerType == "protected-lifecycle-controller"
      && a.claim.source == b.identity.source && a.claim.mechanism == b.identity.mechanism
  }

  /** The number, the hashes, and no smaller epoch than any before. */
  predicate Chains(env: Environment, events: seq<Event>, i: nat)
    requires i < |events|
  {
    var e := events[i];
    && e.sequence == i + 1 && e.previous == (if i == 0 then GENESIS_HASH else events[i - 1].digest)
    && e.digest == env.hash(EventValue(e.sequence, e.previous, e.body))
    && e.body.epoch >= 0 && forall j :: 0 <= j < i ==> events[j].body.epoch <= e.body.epoch
  }

  predicate RepliesAt(env: Environment, v: Verifier, bundle: Bundle, events: seq<Event>, i: nat)
    requires i < |events|
  {
    var b := events[i].body;
    && b.caseId == bundle.issueId && Chains(env, events, i) && NamesItself(env, b)
    && (if i == 0 then Opens(b) else Continues(env, events[i - 1].body.state, b))
    && Envelopes(v, events[0].body.binding, events[i]) && Bundles(bundle, b) && Signs(env, v, bundle.issueId, events[..i], events[i])
  }

  lemma EnvelopesIff(v: Verifier, binding: string, e: Event)
    ensures Described(v, binding, e) <==> Envelopes(v, binding, e)
  {
  }

  lemma BundlesIff(bundle: Bundle, b: Body)
    ensures EvidenceBundled(bundle, b) <==> Bundles(bundle, b)
  {
    if Bundles(bundle, b) {
      forall id | id in b.accepted ensures id in bundle.evidence {}
    }
  }

  lemma SignsIff(env: Environment, v: Verifier, issueId: string, history: seq<Event>, e: Event)
    ensures Authorized(env, v, issueId, history, e) <==> Signs(env, v, issueId, history, e)
  {
    SignedStates(e.body.requested);
    SignedStates(e.body.state.position.state);
  }

  lemma {:induction false} MaxEpochBound(events: seq<Event>, epoch: int)
    ensures MaxEpoch(events) <= epoch <==> epoch >= 0 && forall j :: 0 <= j < |events| ==> events[j].body.epoch <= epoch
  {
    if events != [] {
      var n := |events| - 1;
      MaxEpochBound(events[..n], epoch);
      assert Last(events) == events[n];
    }
  }

  lemma ChainsIff(env: Environment, events: seq<Event>, i: nat)
    requires i < |events|
    ensures HashedAt(env.Hasher(), events, i) && MaxEpoch(events[..i]) <= events[i].body.epoch <==> Chains(env, events, i)
  {
    MaxEpochBound(events[..i], events[i].body.epoch);
    assert i > 0 ==> events[..i][i - 1] == events[i - 1];
    assert forall j :: 0 <= j < i ==> events[..i][j] == events[j];
  }

  lemma SequencedIff(env: Environment, events: seq<Event>, i: nat)
    requires i < |events|
    ensures Sequenced(env, events[..i], events[i].body) <==>
      if i == 0 then Opens(events[i].body) else Continues(env, events[i - 1].body.state, events[i].body)
  {
    if i > 0 {
      assert Last(events[..i]) == events[i - 1];
      ContinuesIff(env, events[i - 1].body.state, events[i].body);
    }
  }

  lemma RepliesAtIff(env: Environment, v: Verifier, bundle: Bundle, events: seq<Event>, i: nat)
    requires i < |events|
    ensures ReplayedAt(env, v, bundle, events, i) <==> RepliesAt(env, v, bundle, events, i)
  {
    ChainsIff(env, events, i);
    SequencedIff(env, events, i);
    EnvelopesIff(v, events[0].body.binding, events[i]);
    BundlesIff(bundle, events[i].body);
    SignsIff(env, v, bundle.issueId, events[..i], events[i]);
    SelfDescribingIff(env, events[i].body);
  }

  lemma SelfDescribingIff(env: Environment, b: Body)
    ensures SelfDescribing(env, b) <==> NamesItself(env, b)
  {
  }

  /** The event loop of the replay reports no error exactly for these events. */
  lemma ReplaysExactly(env: Environment, v: Verifier, bundle: Bundle, events: seq<Event>)
    ensures Replays(env, v, bundle, events) <==> forall i :: 0 <= i < |events| ==> RepliesAt(env, v, bundle, events, i)
  {
    forall i | 0 <= i < |events| ensures ReplayedAt(env, v, bundle, events, i) <==> RepliesAt(env, v, bundle, events, i) {
      RepliesAtIff(env, v, bundle, events, i);
    }
  }

  // ---- The end of the case ----

  const TO_CLASSIFICATION: set<State> := {UnverifiedReport, SourceOfTruthResolved, IssueClassified}

  const TO_CI: set<State> := TO_CLASSIFICATION + {
    BugReproduced, RootCauseProven, BlastRadiusMapped, ChangePlanned, PatchImplemented, RegressionTestProven, TargetedValidationPass,
    RegressionValidationPass, DiffForensicsPass, IndependentReviewPass, CiPass}

  const TO_PRODUCTION: set<State> := TO_CI + {StagingPass, ReadyForOwnerRelease, ProductionReleased}

  const TO_CONSUMERS: set<State> := {PackageReleased, ReleaseArtifactVerified, ConsumerValidationPass}

  /** The states that must have been asked for: up to the classification without code, up to production for a rollback, along
      the package lane for a package, along both for a hybrid fix, and otherwise along the release lane. */
  function AskedBefore(bundle: Bundle): set<State> {
    if bundle.terminal == ResolvedNoCode then TO_CLASSIFICATION
    else if bundle.terminal == RollbackRequired then TO_PRODUCTION
    else if bundle.terminal == Closed && bundle.closureClass == Some("PACKAGE_RELEASE") then TO_CI + TO_CONSUMERS + {Closed}
    else if bundle.terminal == Closed && bundle.closureClass == Some("CODE_FIX") && Lookup(bundle.subject.material, DeliveryModel) == Some("HYBRID")
    then TO_PRODUCTION + TO_CONSUMERS + {PostDeployVerified, Closed}
    else TO_PRODUCTION + {PostDeployVerified, Closed}
  }

  lemma CodePrefixes(s: State)
    ensures s in COMMON_LIFECYCLE <==> s in TO_CI
    ensures s in CODE_LIFECYCLE[..3] <==> s in TO_CLASSIFICATION
    ensures s in CODE_LIFECYCLE[..17] <==> s in TO_PRODUCTION
    ensures s in CODE_LIFECYCLE <==> s in TO_PRODUCTION + {PostDeployVerified, Closed}
  {
    assert CODE_LIFECYCLE[..17] == COMMON_LIFECYCLE + [StagingPass, ReadyForOwnerRelease, ProductionReleased];
    assert CODE_LIFECYCLE[..3] == [UnverifiedReport, SourceOfTruthResolved, IssueClassified];
  }

  lemma PackageWay(s: State)
    ensures s in COMMON_LIFECYCLE + [PackageReleased, ReleaseArtifactVerified, ConsumerValidationPass, Closed]
       <==> s in TO_CI + TO_CONSUMERS + {Closed}
  {
    CodePrefixes(s);
  }

  lemma HybridWay(s: State)
    ensures s in COMMON_LIFECYCLE + [PackageReleased, ReleaseArtifactVerified, ConsumerValidationPass] + CODE_LIFECYCLE[|COMMON_LIFECYCLE|..]
       <==> s in TO_PRODUCTION + TO_CONSUMERS + {PostDeployVerified, Closed}
  {
    CodePrefixes(s);
    assert CODE_LIFECYCLE[|COMMON_LIFECYCLE|..] == [StagingPass, ReadyForOwnerRelease, ProductionReleased, PostDeployVerified, Closed];
  }

  lemma HybridIs(bundle: Bundle)
    ensures ModelOf(bundle.subject) == HYBRID <==> Lookup(bundle.subject.material, DeliveryModel) == Some("HYBRID")
    ensures ModelOf(bundle.subject) == PACKAGE_OR_PLUGIN <==> Lookup(bundle.subject.material, DeliveryModel) == Some("PACKAGE_OR_PLUGIN")
  {
  }

  lemma RequiredAre(bundle: Bundle, s: State)
    ensures s in RequiredStates(bundle) <==> s in AskedBefore(bundle)
  {
    HybridIs(bundle);
    if bundle.terminal == Closed && bundle.closureClass == Some("PACKAGE_RELEASE") {
      PackageWay(s);
    } else if bundle.terminal == Closed && bundle.closureClass == Some("CODE_FIX") && ModelOf(bundle.subject) == HYBRID {
      HybridWay(s);
    } else {
      CodePrefixes(s);
    }
  }

  /** The last event ends the case as the bundle says. */
  predicate Ends(env: Environment, bundle: Bundle, events: seq<Event>)
    requires events != []
  {
    var end := events[|events| - 1].body;
    && end.epoch == bundle.subject.epoch && end.fingerprint == env.hash(SubjectValue(bundle.subject))
    && (if bundle.terminal == ResolvedNoCode then
          && end.requested == ResolvedNoCode && end.state.position.state == ResolvedNoCode
          && exists id :: id in end.accepted && id in bundle.evidence && bundle.evidence[id].kind == "RESOLVED_NO_CODE_PROVEN"
        else end.requested in {Closed, RollbackRequired})
    && (bundle.terminal == Closed && bundle.closureClass == Some("CODE_FIX") ==> end.prior == Some(PostDeployVerified))
    && (bundle.terminal == Closed && bundle.closureClass == Some("PACKAGE_RELEASE") ==>
          end.prior == Some(ConsumerValidationPass) && Lookup(bundle.subject.material, DeliveryModel) == Some("PACKAGE_OR_PLUGIN"))
    && (bundle.terminal == Closed && bundle.closureClass == Some("ROLLBACK_CLOSURE") ==>
          end.prior == Some(RollbackRequired) && exists i :: 0 <= i < |events| && events[i].body.requested == RollbackRequired)
    && (Lookup(bundle.subject.material, DeliveryModel) == Some("PACKAGE_OR_PLUGIN") ==>
          forall i :: 0 <= i < |events| ==> events[i].body.requested !in {StagingPass, ReadyForOwnerRelease, ProductionReleased, PostDeployVerified})
  }

  lemma Asked(events: seq<Event>, s: State)
    ensures s in RequestedStates(events) <==> exists i :: 0 <= i < |events| && events[i].body.requested == s
  {
    assert forall i :: 0 <= i < |events| ==> RequestedStates(events)[i] == events[i].body.requested;
  }

  lemma RuntimeAsked(events: seq<Event>)
    ensures RuntimeRequested(RequestedStates(events)) <==>
      exists i :: 0 <= i < |events| && events[i].body.requested in {StagingPass, ReadyForOwnerRelease, ProductionReleased, PostDeployVerified}
  {
    assert forall i :: 0 <= i < |events| ==> RequestedStates(events)[i] == events[i].body.requested;
  }

  lemma ClassifiedIff(bundle: Bundle, events: seq<Event>, prior: Option<State>)
    ensures ClosesAsClassified(bundle, RequestedStates(events), prior) <==>
      && (bundle.terminal == Closed && bundle.closureClass == Some("CODE_FIX") ==> prior == Some(PostDeployVerified))
      && (bundle.terminal == Closed && bundle.closureClass == Some("PACKAGE_RELEASE") ==>
            prior == Some(ConsumerValidationPass) && Lookup(bundle.subject.material, DeliveryModel) == Some("PACKAGE_OR_PLUGIN"))
      && (bundle.terminal == Closed && bundle.closureClass == Some("ROLLBACK_CLOSURE") ==>
            prior == Some(RollbackRequired) && exists i :: 0 <= i < |events| && events[i].body.requested == RollbackRequired)
  {
    HybridIs(bundle);
    Asked(events, RollbackRequired);
  }

  lemma EndsIff(env: Environment, bundle: Bundle, events: seq<Event>)
    requires events != []
    ensures EndsProperly(env, bundle, events) <==> Ends(env, bundle, events)
  {
    HybridIs(bundle);
    RuntimeAsked(events);
    ClassifiedIff(bundle, events, Last(events).body.prior);
  }

  /** And it was asked, at some time, for each state on its way. */
  lemma CompleteIff(bundle: Bundle, events: seq<Event>)
    ensures Complete(bundle, RequestedStates(events)) <==>
      forall s :: s in AskedBefore(bundle) ==> exists i :: 0 <= i < |events| && events[i].body.requested == s
  {
    forall s ensures s in RequiredStates(bundle) <==> s in AskedBefore(bundle) {
      RequiredAre(bundle, s);
    }
    forall s ensures s in RequestedStates(events) <==> exists i :: 0 <= i < |events| && events[i].body.requested == s {
      Asked(events, s);
    }
  }
}
