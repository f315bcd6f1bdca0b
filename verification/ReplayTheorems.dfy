/** Where the replay and the store's own verification agree, and where they part. */
module ReplayTheorems {
  import opened Basics
  import opened States
  import opened Records
  import opened HashChain
  import opened Events
  import opened LedgerSteps
  import opened ChainVerification
  import opened StoreTheorems
  import opened StoreRuns
  import opened Runs
  import opened VerifiedLedgers
  import opened Authorizations
  import opened NoSkip
  import opened Replay

  predicate OneCase(events: seq<Event>, caseId: string) {
    forall i :: 0 <= i < |events| ==> events[i].body.caseId == caseId
  }

  lemma {:induction false} OneCaseHistory(events: seq<Event>, caseId: string)
    requires OneCase(events, caseId)
    ensures History(events, caseId) == events
  {
    if events == [] {
    } else {
      var earlier, last := events[..|events| - 1], events[|events| - 1];
      OneCaseHistory(earlier, caseId);
      assert last.body.caseId == caseId;
      assert events == earlier + [last];
    }
  }

  // ---- The structural fragment ----

  /** What only the store checks of an event: its key, its configuration, and the protection of the entered state. */
  predicate StoreOnly(env: Environment, events: seq<Event>, i: nat)
    requires i < |events|
  {
    && events[i].seal == env.mac(events[i].digest) && events[i].body.binding == env.binding
    && if i == 0 then events[i].body.authorization.None?
       else Protection(env, i, events[i - 1].body.recordHash, events[i].body)
  }

  lemma EventOkParts(env: Environment, events: seq<Event>, caseId: string, i: nat)
    requires OneCase(events, caseId) && i < |events|
    ensures LinkedAt(env.Hasher(), events, i) && EventOk(env, events, i)
       <==> StructuralAt(env, events, i) && StoreOnly(env, events, i)
  {
    OneCaseHistory(events[..i], caseId);
  }

  /** For a ledger of one case, verify_event_chain is the structural fragment and its own extra checks. */
  lemma StoreChecksStructure(env: Environment, events: seq<Event>, caseId: string)
    requires OneCase(events, caseId)
    ensures EventsOk(env, events) <==> Structural(env, events) && forall i :: 0 <= i < |events| ==> StoreOnly(env, events, i)
  {
    forall i | 0 <= i < |events|
      ensures LinkedAt(env.Hasher(), events, i) && EventOk(env, events, i) <==> StructuralAt(env, events, i) && StoreOnly(env, events, i)
    {
      EventOkParts(env, events, caseId, i);
    }
  }

  lemma EpochStepRises(env: Environment, events: seq<Event>, i: nat)
    requires Structural(env, events) && 0 < i < |events|
    ensures events[i - 1].body.epoch <= events[i].body.epoch
  {
    assert StructuralAt(env, events, i - 1) && StructuralAt(env, events, i);
    assert Last(events[..i]) == events[i - 1];
  }

  /** The running maximum of the replay is implied by the epoch rule, once the first epoch is not negative. */
  lemma {:induction false} MaxEpochIsLast(env: Environment, events: seq<Event>, n: nat)
    requires Structural(env, events) && 0 < n <= |events| && events[0].body.epoch >= 0
    ensures MaxEpoch(events[..n]) == events[n - 1].body.epoch
  {
    assert events[..n][..n - 1] == events[..n - 1] && Last(events[..n]) == events[n - 1];
    if n > 1 {
      MaxEpochIsLast(env, events, n - 1);
      EpochStepRises(env, events, n - 1);
    }
  }

  lemma EpochsReplay(env: Environment, events: seq<Event>, i: nat)
    requires Structural(env, events) && i < |events| && events[0].body.epoch >= 0
    ensures MaxEpoch(events[..i]) <= events[i].body.epoch
  {
    if i > 0 {
      MaxEpochIsLast(env, events, i);
      EpochStepRises(env, events, i);
    }
  }

  /** The replay is the same structural fragment and its own extra checks: on the fragment the verifiers agree. */
  lemma ReplayChecksStructure(env: Environment, v: Verifier, bundle: Bundle, events: seq<Event>)
    ensures Replays(env, v, bundle, events) <==>
      && Structural(env, events) && (events != [] ==> events[0].body.epoch >= 0)
      && forall i :: 0 <= i < |events| ==> ReplayOnly(env, v, bundle, events, i)
  {
    if Replays(env, v, bundle, events) {
      forall i | 0 <= i < |events| ensures StructuralAt(env, events, i) && ReplayOnly(env, v, bundle, events, i) {
        assert ReplayedAt(env, v, bundle, events, i);
      }
      if events != [] {
        assert ReplayedAt(env, v, bundle, events, 0);
      }
    } else if Structural(env, events) && (events != [] ==> events[0].body.epoch >= 0) {
      var i :| 0 <= i < |events| && !ReplayedAt(env, v, bundle, events, i);
      assert StructuralAt(env, events, i);
      EpochsReplay(env, events, i);
    }
  }

  // ---- Replaying what a store wrote ----

  /** The configuration a store can be exported from. */
  ghost predicate Exportable(env: Environment, v: Verifier) {
    && env.Trusted() && env.binding != "" && env.controller.source != "" && env.controller.mechanism != ""
    && (forall d :: v.macShaped(env.mac(d)))
    && (forall a, s :: env.authorizationValid(a, s) ==> v.authorizationValid(a, s))
  }

  predicate WrittenBy(env: Environment, e: Event) {
    e.body.identity == env.controller && e.body.binding == env.binding
  }

  ghost predicate AllWritten(env: Environment, events: seq<Event>) {
    forall i :: 0 <= i < |events| ==> WrittenBy(env, events[i])
  }

  lemma RunWrites(env: Environment, steps: seq<Step>)
    ensures AllWritten(env, Run(env, steps).events)
  {
    forall l: Ledger, step: Step | AllWritten(env, l.events) ensures AllWritten(env, Next(env, l, step).events) {
      if StepOutcome(env, l, step).Appended? {
        AppendedIsWritten(env, l, step);
      }
    }
    InvariantAlong(Stepping(env), step => true, (l: Ledger) => AllWritten(env, l.events), EmptyLedger(env), steps);
  }

  lemma AppendedIsWritten(env: Environment, l: Ledger, step: Step)
    requires StepOutcome(env, l, step).Appended?
    ensures WrittenBy(env, StepOutcome(env, l, step).event)
  {
    match step
    case InitStep(_, _, _, _) =>
    case TransitionStep(req) => AcceptedTransition(env, l, req);
    case MutateStep(_, _, _, _, _, _) =>
      MutationIsTransition(env, l, step);
      AcceptedTransition(env, l, MutationRequestOf(env, l, step));
  }

  /** What the replay asks of an event beyond what a store that verifies has made sure of. */
  predicate Replayable(bundle: Bundle, b: Body) {
    && (ProtectedState(b.requested) ==> ProtectedState(b.state.position.state))
    && EvidenceBundled(bundle, b)
    && (b.policyHash.None? || b.policyHash == Lookup(b.state.subject.material, PolicyBundle))
    && (b.toolchainHash.None? || b.toolchainHash == Lookup(b.state.subject.material, Toolchain))
  }

  /** An authorization is there exactly where the store demands one; the replay also looks where it was requested. */
  lemma StoredAuthorization(env: Environment, v: Verifier, events: seq<Event>, caseId: string, i: nat)
    requires Exportable(env, v) && OneCase(events, caseId) && i < |events|
    requires StoreOnly(env, events, i) && WrittenBy(env, events[i]) && AuthorizationBound(env, events[i])
    requires StructuralAt(env, events, i)
    ensures Authorized(env, v, caseId, events[..i], events[i])
       <==> (ProtectedState(events[i].body.requested) ==> ProtectedState(events[i].body.state.position.state))
  {
    if i > 0 {
      assert Last(events[..i]) == events[i - 1];
    }
  }

  lemma ReplayOnlyIff(env: Environment, v: Verifier, bundle: Bundle, events: seq<Event>, i: nat)
    requires Exportable(env, v) && OneCase(events, bundle.issueId) && i < |events|
    requires StoreOnly(env, events, i) && WrittenBy(env, events[i]) && WrittenBy(env, events[0])
    requires AuthorizationBound(env, events[i]) && StructuralAt(env, events, i)
    ensures ReplayOnly(env, v, bundle, events, i) <==> Replayable(bundle, events[i].body)
  {
    StoredAuthorization(env, v, events, bundle.issueId, i);
    assert v.macShaped(env.mac(events[i].digest));
  }

  /** The ledger of any run that verifies and holds one case replays if and only if each event is replayable. */
  lemma RunReplaysIff(env: Environment, v: Verifier, bundle: Bundle, steps: seq<Step>)
    requires Exportable(env, v) && RunDisciplined(env, steps) && OneCase(Run(env, steps).events, bundle.issueId)
    ensures var events := Run(env, steps).events;
      Replays(env, v, bundle, events) <==>
        && (events != [] ==> events[0].body.epoch >= 0)
        && forall i :: 0 <= i < |events| ==> Replayable(bundle, events[i].body)
  {
    var events := Run(env, steps).events;
    RunEventsOk(env, steps);
    StoreChecksStructure(env, events, bundle.issueId);
    ReplayChecksStructure(env, v, bundle, events);
    RunWrites(env, steps);
    RunBindsAuthorizations(env, steps);
    forall i | 0 <= i < |events| ensures ReplayOnly(env, v, bundle, events, i) <==> Replayable(bundle, events[i].body) {
      assert StructuralAt(env, events, i) && AuthorizationBound(env, events[i]) && WrittenBy(env, events[i]);
      ReplayOnlyIff(env, v, bundle, events, i);
    }
  }

  /** One refused request for a protected state, and the case can never be replayed again. */
  lemma RefusedReleaseEndsReplay(env: Environment, v: Verifier, bundle: Bundle, before: seq<Step>, after: seq<Step>, i: nat)
    requires Exportable(env, v) && RunDisciplined(env, before + after)
    requires OneCase(Run(env, before + after).events, bundle.issueId) && i < |Run(env, before).events|
    requires ProtectedState(Run(env, before).events[i].body.requested)
    requires Run(env, before).events[i].body.state.position.state == Blocked
    ensures !Replays(env, v, bundle, Run(env, before + after).events)
  {
    RunReplaysIff(env, v, bundle, before + after);
    RunConcat(Stepping(env), EmptyLedger(env), before, after);
    RunTracks(env, before);
    RunGrows(env, Run(env, before), after);
    assert !Replayable(bundle, Run(env, before + after).events[i].body);
  }

  /** The export of one case out of a shared store keeps its numbering and links only if no other case
      committed before its last event. */
  lemma {:induction false} ExportNeedsPrefix(env: Environment, events: seq<Event>, caseId: string)
    requires env.IdealHash() && Linked(env.Hasher(), events)
    ensures Linked(env.Hasher(), History(events, caseId))
       <==> History(events, caseId) <= events
  {
    var mine := History(events, caseId);
    var n := |mine|;
    if Linked(env.Hasher(), mine) && n > 0 {
      HistoryLast(events, caseId);
      var k: nat :| k < |events| && events[k] == Last(mine);
      assert LinkedAt(env.Hasher(), mine, n - 1) && LinkedAt(env.Hasher(), events, k);
      IdealHasher(env);
      PrefixLinked(env.Hasher(), events, k + 1);
      HeadDeterminesChain(env.Hasher(), mine, events[..k + 1]);
    }
    if mine <= events {
      assert mine == events[..n];
      PrefixLinked(env.Hasher(), events, n);
    }
  }

  lemma {:induction false} HistoryLast(events: seq<Event>, caseId: string)
    requires History(events, caseId) != []
    ensures exists k: nat :: k < |events| && events[k] == Last(History(events, caseId))
  {
    var n := |events| - 1;
    if events[n].body.caseId != caseId {
      HistoryLast(events[..n], caseId);
      var k: nat :| k < n && events[..n][k] == Last(History(events[..n], caseId));
      assert events[k] == Last(History(events, caseId));
    } else {
      assert events[n] == Last(History(events, caseId));
    }
  }

  // ---- Completeness ----

  /** Every entered state in the lifecycle was requested by the event that entered it first. */
  predicate Requested(entered: seq<State>, requested: seq<State>) {
    forall s :: s in entered && Ordered(s) ==> s in requested
  }

  lemma CommonRequested(entered: seq<State>, requested: seq<State>)
    requires AllEntered(COMMON_LIFECYCLE, entered) && Requested(entered, requested)
    ensures AllEntered(COMMON_LIFECYCLE, requested)
  {
  }

  const PACKAGE_REQUIRED := [PackageReleased, ReleaseArtifactVerified, ConsumerValidationPass]
  const RUNTIME_REQUIRED := [StagingPass, ReadyForOwnerRelease, ProductionReleased, PostDeployVerified]

  lemma CompleteSplits(bundle: Bundle, requested: seq<State>)
    requires bundle.terminal == Closed && AllEntered(COMMON_LIFECYCLE, requested) && Closed in requested
    ensures bundle.closureClass == Some("PACKAGE_RELEASE") ==>
      (Complete(bundle, requested) <==> AllEntered(PACKAGE_REQUIRED, requested))
    ensures bundle.closureClass != Some("PACKAGE_RELEASE") ==>
      (Complete(bundle, requested) <==>
        && AllEntered(RUNTIME_REQUIRED, requested)
        && (ModelOf(bundle.subject) == HYBRID && bundle.closureClass == Some("CODE_FIX") ==> AllEntered(PACKAGE_REQUIRED, requested)))
  {
  }

  /** When a closed case replays as complete: always for a package release and a plain code fix; a hybrid code fix
      needs the package states too, and a rollback closure needs POST_DEPLOY_VERIFIED although the store closes
      a rolled back case without it. */
  lemma ClosureCompleteIff(bundle: Bundle, entered: seq<State>, requested: seq<State>)
    requires bundle.terminal == Closed && SkipsNothing(entered) && Closed in entered && Requested(entered, requested)
    requires bundle.closureClass == Some("PACKAGE_RELEASE") ==> ConsumerValidationPass in entered
    requires bundle.closureClass == Some("CODE_FIX") ==> PostDeployVerified in entered
    requires bundle.closureClass == Some("ROLLBACK_CLOSURE") ==> RollbackRequired in entered
    requires bundle.closureClass in [Some("PACKAGE_RELEASE"), Some("CODE_FIX"), Some("ROLLBACK_CLOSURE")]
    ensures Complete(bundle, requested) <==>
      && (bundle.closureClass == Some("ROLLBACK_CLOSURE") ==> PostDeployVerified in requested)
      && (bundle.closureClass == Some("CODE_FIX") && ModelOf(bundle.subject) == HYBRID ==> AllEntered(PACKAGE_REQUIRED, requested))
  {
    EnteredImpliesCommon(entered, Closed);
    CommonRequested(entered, requested);
    CompleteSplits(bundle, requested);
    if bundle.closureClass == Some("PACKAGE_RELEASE") {
      PackageLaneRequested(entered, requested);
    } else if bundle.closureClass == Some("CODE_FIX") {
      var before := Predecessor(entered, PostDeployVerified);
      RuntimeLaneRequested(entered, requested);
    } else {
      RollbackImpliesProduction(entered);
      RuntimeLaneRequested(entered, requested);
    }
  }

  lemma PackageLaneRequested(entered: seq<State>, requested: seq<State>)
    requires SkipsNothing(entered) && ConsumerValidationPass in entered && Requested(entered, requested)
    ensures AllEntered(PACKAGE_REQUIRED, requested)
  {
    ConsumerImpliesLane(entered);
    assert PACKAGE_LANE[0] in entered && PACKAGE_LANE[1] in entered;
  }

  lemma RuntimeLaneRequested(entered: seq<State>, requested: seq<State>)
    requires SkipsNothing(entered) && ProductionReleased in entered && Requested(entered, requested)
    ensures AllEntered(RUNTIME_REQUIRED, requested) <==> PostDeployVerified in requested
  {
    ProductionImpliesLane(entered);
    assert RELEASE_LANE[0] in entered && RELEASE_LANE[1] in entered && RELEASE_LANE[2] in entered;
    assert RUNTIME_REQUIRED[3] == PostDeployVerified;
  }

  lemma VerifiedRequest(env: Environment, history: seq<Event>, i: nat)
    requires CaseVerified(env, history) && i < |history| && Ordered(history[i].body.state.position.state)
    ensures history[i].body.requested != history[i].body.state.position.state ==>
      i > 0 && history[i - 1].body.state.position.state == history[i].body.state.position.state
  {
    assert CaseVerifiedAt(env, history, i);
    if i > 0 {
      assert Last(history[..i]) == history[i - 1];
    }
  }

  lemma {:induction false} WasRequested(env: Environment, history: seq<Event>, i: nat)
    requires CaseVerified(env, history) && i < |history| && Ordered(history[i].body.state.position.state)
    ensures exists j :: 0 <= j <= i && history[j].body.requested == history[i].body.state.position.state
  {
    VerifiedRequest(env, history, i);
    if history[i].body.requested != history[i].body.state.position.state {
      WasRequested(env, history, i - 1);
    }
  }

  lemma EnteredWasRequested(env: Environment, history: seq<Event>)
    requires CaseVerified(env, history)
    ensures Requested(EnteredStates(history), RequestedStates(history))
  {
    forall s | s in EnteredStates(history) && Ordered(s) ensures s in RequestedStates(history) {
      var i :| 0 <= i < |history| && EnteredStates(history)[i] == s;
      WasRequested(env, history, i);
      var j :| 0 <= j <= i && history[j].body.requested == s;
      assert RequestedStates(history)[j] == s;
    }
  }

  lemma PriorWasEntered(env: Environment, history: seq<Event>)
    requires CaseVerified(env, history) && history != [] && Last(history).body.prior.Some?
    ensures Last(history).body.prior.value in EnteredStates(history)
  {
    var n := |history| - 1;
    assert CaseVerifiedAt(env, history, n);
    if n > 0 {
      assert Last(history[..n]) == history[n - 1];
      assert EnteredStates(history)[n - 1] == history[n - 1].body.state.position.state;
    }
  }

  lemma DisciplinedMatches(env: Environment, steps: seq<Step>)
    requires RunDisciplined(env, steps)
    ensures RunMatching(env, steps)
  {
    WeakerAlong(Stepping(env), (l, step) => StepDisciplined(env, l, step), (l, step) => StepMatching(env, l, step),
                EmptyLedger(env), steps);
  }

  /** Whether the closed case of a verified, lawful run replays as complete. */
  lemma ClosedRunCompleteIff(env: Environment, steps: seq<Step>, bundle: Bundle)
    requires env.Trusted() && RunDisciplined(env, steps) && RunLawful(env, steps)
    requires bundle.issueId in Run(env, steps).cases && bundle.terminal == Closed
    requires bundle.closureClass in [Some("PACKAGE_RELEASE"), Some("CODE_FIX"), Some("ROLLBACK_CLOSURE")]
    requires var history := History(Run(env, steps).events, bundle.issueId);
      && history != [] && Closed in EnteredStates(history)
      && ClosesAsClassified(bundle, RequestedStates(history), Last(history).body.prior)
    ensures var requested := RequestedStates(History(Run(env, steps).events, bundle.issueId));
      Complete(bundle, requested) <==>
        && (bundle.closureClass == Some("ROLLBACK_CLOSURE") ==> PostDeployVerified in requested)
        && (bundle.closureClass == Some("CODE_FIX") && ModelOf(bundle.subject) == HYBRID ==> AllEntered(PACKAGE_REQUIRED, requested))
  {
    var history := History(Run(env, steps).events, bundle.issueId);
    assert CaseVerified(env, history) by {
      RunEventsOk(env, steps);
      HistoriesVerify(env, Run(env, steps).events, bundle.issueId);
    }
    assert SkipsNothing(EnteredStates(history)) by {
      DisciplinedMatches(env, steps);
      RunSkipsNothing(env, steps, bundle.issueId);
    }
    EnteredWasRequested(env, history);
    PriorWasEntered(env, history);
    ClosureCompleteIff(bundle, EnteredStates(history), RequestedStates(history));
  }
}
