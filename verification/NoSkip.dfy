/** No case skips a state up to CI_PASS, through blocks, rewinds, rollbacks and subject changes. */
module NoSkip {
  import opened States
  import opened Records
  import opened Events
  import opened Guards
  import opened LedgerSteps
  import opened StoreTheorems
  import opened StoreRuns
  import opened Runs

  function EnteredStates(history: seq<Event>): seq<State> {
    seq(|history|, i requires 0 <= i < |history| => history[i].body.state.position.state)
  }

  /** How many states of COMMON_LIFECYCLE an event entering `s` must come after. */
  function RequiredBefore(s: State): (n: nat)
    ensures n <= |COMMON_LIFECYCLE|
  {
    if PastCommon(s) then |COMMON_LIFECYCLE| else if s == ResolvedNoCode then 3 else if Ordered(s) then Order(s) else 0
  }

  /** How many states of COMMON_LIFECYCLE a case logically at `s` has entered. */
  function EnteredAt(s: State): (n: nat)
    ensures n <= |COMMON_LIFECYCLE|
  {
    if PastCommon(s) then |COMMON_LIFECYCLE| else if s == ResolvedNoCode then 3 else if Ordered(s) then Order(s) + 1 else 0
  }

  predicate EnteredFirst(states: seq<State>, n: nat)
    requires n <= |COMMON_LIFECYCLE|
  {
    forall k :: 0 <= k < n ==> COMMON_LIFECYCLE[k] in states
  }

  /** The state was there before, or an earlier state leads to it in ALLOWED_TRANSITIONS. */
  predicate Led(states: seq<State>, s: State) {
    s in states || exists i :: 0 <= i < |states| && s in AllowedTransitions(states[i])
  }

  predicate Traced(s: State) {
    (Authoritative(s) && s != UnverifiedReport) || s == RollbackRequired
  }

  /** What must have been entered before a case enters `s`. */
  predicate Presupposed(states: seq<State>, s: State) {
    EnteredFirst(states, RequiredBefore(s)) && (Traced(s) ==> Led(states, s))
  }

  predicate PresupposedAt(states: seq<State>, i: nat)
    requires i < |states|
  {
    Presupposed(states[..i], states[i])
  }

  /** Every state was entered only after all the common states it presupposes, along allowed edges. */
  predicate SkipsNothing(states: seq<State>) {
    forall i :: 0 <= i < |states| ==> PresupposedAt(states, i)
  }

  /** The case really entered the state it stands at and the common states before it. */
  predicate Earned(states: seq<State>, p: Position) {
    var at := Logical(p);
    EnteredFirst(states, EnteredAt(at)) && (Authoritative(at) || at == RollbackRequired ==> at in states)
  }

  predicate CaseSound(history: seq<Event>, p: Position) {
    SkipsNothing(EnteredStates(history)) && Earned(EnteredStates(history), p)
  }

  /** The edges past CI_PASS come from CI_PASS or from past it. */
  lemma EdgesPastCommon(from: State, to: State)
    requires to in AllowedTransitions(from) && PastCommon(to)
    ensures from == CiPass || PastCommon(from)
  {
  }

  /** Every other edge to an ordered state goes one step on, or back from a rollback. */
  lemma EdgesInCommon(from: State, to: State)
    requires to in AllowedTransitions(from)
    ensures !PastCommon(to) && Ordered(to) ==> Order(to) == Order(from) + 1 || from == RollbackRequired
  {
  }

  lemma EdgesResolve(from: State, to: State)
    requires to in AllowedTransitions(from)
    ensures to == ResolvedNoCode ==> from == IssueClassified
  {
  }

  lemma EdgePresupposes(from: State, to: State)
    requires Authoritative(to)
    requires if PastCommon(to) then from == CiPass || PastCommon(from)
             else (Ordered(to) ==> Order(to) == Order(from) + 1 || from == RollbackRequired)
                  && (to == ResolvedNoCode ==> from == IssueClassified)
    ensures RequiredBefore(to) <= EnteredAt(from)
  {
  }

  lemma AllowedPresupposes(from: State, to: State)
    requires to in AllowedTransitions(from) && Authoritative(to)
    ensures RequiredBefore(to) <= EnteredAt(from)
  {
    if PastCommon(to) {
      EdgesPastCommon(from, to);
    } else {
      EdgesInCommon(from, to);
      EdgesResolve(from, to);
    }
    EdgePresupposes(from, to);
  }

  lemma CommonPosition(s: State)
    requires 0 <= Order(s) <= Order(CiPass)
    ensures COMMON_LIFECYCLE[Order(s)] == s
  {
  }

  lemma SkipsNothingAppend(states: seq<State>, s: State)
    requires SkipsNothing(states)
    ensures SkipsNothing(states + [s]) <==> Presupposed(states, s)
  {
    var longer := states + [s];
    assert longer[..|states|] == states;
    assert PresupposedAt(longer, |states|) <==> Presupposed(states, s);
    forall i | 0 <= i < |states| ensures PresupposedAt(longer, i) {
      assert PresupposedAt(states, i);
      assert longer[..i] == states[..i];
    }
  }

  lemma EarnedByEntering(states: seq<State>, p: Position)
    requires p.state != Blocked && EnteredFirst(states, RequiredBefore(p.state))
    ensures Earned(states + [p.state], p)
  {
  }

  lemma LedByEdge(states: seq<State>, from: State, to: State)
    requires from in states && to in AllowedTransitions(from)
    ensures Led(states, to)
  {
  }

  lemma EnteredImpliesCommon(states: seq<State>, s: State)
    requires SkipsNothing(states) && s in states && PastCommon(s)
    ensures EnteredFirst(states, |COMMON_LIFECYCLE|)
  {
    var i :| 0 <= i < |states| && states[i] == s;
    assert PresupposedAt(states, i);
  }

  /** The edges of ALLOWED_TRANSITIONS into the states after CI_PASS, read backwards. */
  function Sources(s: State): set<State> {
    match s
    case PackageReleased => {CiPass}
    case ReleaseArtifactVerified => {PackageReleased}
    case ConsumerValidationPass => {ReleaseArtifactVerified}
    case StagingPass => {CiPass, ConsumerValidationPass}
    case ReadyForOwnerRelease => {StagingPass}
    case ProductionReleased => {ReadyForOwnerRelease}
    case PostDeployVerified => {ProductionReleased}
    case RollbackRequired => {ProductionReleased, PostDeployVerified}
    case Closed => {PostDeployVerified, ConsumerValidationPass, RollbackRequired}
    case _ => {}
  }

  lemma SourcesInvert(from: State, s: State)
    requires PastCommon(s)
    ensures s in AllowedTransitions(from) <==> from in Sources(s)
  {
  }

  lemma {:induction false} Predecessor(states: seq<State>, s: State) returns (from: State)
    requires SkipsNothing(states) && s in states && PastCommon(s)
    ensures from in states && from in Sources(s)
  {
    var i :| 0 <= i < |states| && states[i] == s;
    assert PresupposedAt(states, i);
    if s in states[..i] {
      forall j | 0 <= j < i ensures PresupposedAt(states[..i], j) {
        assert PresupposedAt(states, j);
        assert states[..i][..j] == states[..j];
      }
      from := Predecessor(states[..i], s);
    } else {
      var j :| 0 <= j < i && s in AllowedTransitions(states[..i][j]);
      from := states[j];
      SourcesInvert(from, s);
    }
  }

  lemma RollbackImpliesProduction(states: seq<State>)
    requires SkipsNothing(states) && RollbackRequired in states
    ensures ProductionReleased in states
  {
    var from := Predecessor(states, RollbackRequired);
    if from == PostDeployVerified {
      var before := Predecessor(states, PostDeployVerified);
    }
  }

  lemma LedRollback(states: seq<State>)
    requires SkipsNothing(states) && Led(states, RollbackRequired)
    ensures ProductionReleased in states
  {
    if RollbackRequired in states {
      RollbackImpliesProduction(states);
    } else {
      var i :| 0 <= i < |states| && RollbackRequired in AllowedTransitions(states[i]);
      SourcesInvert(states[i], RollbackRequired);
      if states[i] == PostDeployVerified {
        var before := Predecessor(states, PostDeployVerified);
      }
    }
  }

  // ---- One step ----

  /** What the guards leave open: a rollback comes after production, and a block resumes at a common state or
      at one the case has entered. */
  predicate Lawful(states: seq<State>, next: Position) {
    && (next.state == RollbackRequired ==> ProductionReleased in states)
    && (next.state == Blocked ==> Order(Logical(next)) <= Order(CiPass) || Logical(next) in states)
  }

  lemma RollbackLawful(states: seq<State>, next: Position)
    requires SkipsNothing(states) && next.state == RollbackRequired
    ensures Presupposed(states, next.state) && Earned(states + [next.state], next) <==> Lawful(states, next)
  {
    if Lawful(states, next) {
      EnteredImpliesCommon(states, ProductionReleased);
      LedByEdge(states, ProductionReleased, RollbackRequired);
      EarnedByEntering(states, next);
    } else if Led(states, RollbackRequired) {
      LedRollback(states);
    }
  }

  lemma BlockLawful(states: seq<State>, current: Position, next: Position)
    requires SkipsNothing(states) && Earned(states, current) && next.state == Blocked
    requires Ordered(Logical(next)) && Ordered(Logical(current)) && Order(Logical(next)) <= Order(Logical(current))
    ensures Presupposed(states, next.state) && Earned(states + [next.state], next) <==> Lawful(states, next)
  {
    var at := Logical(next);
    if Order(at) <= Order(CiPass) {
      CommonPosition(at);
      assert EnteredAt(at) <= EnteredAt(Logical(current));
    } else if at in states {
      EnteredImpliesCommon(states, at);
    }
  }

  /** After what the order guard lets through, the case still skipped nothing and earned where it stands if
      and only if the step was lawful. */
  lemma GuardedStepIff(states: seq<State>, current: Position, next: Position, requested: State, decision: Decision)
    requires SkipsNothing(states) && Earned(states, current)
    requires OrderGuard(current, next, requested, decision).Pass?
    requires Authoritative(next.state) || next.state == Blocked || next.state == RollbackRequired
    requires decision == Proceed ==> next.state == requested
    ensures Presupposed(states, next.state) && Earned(states + [next.state], next) <==> Lawful(states, next)
  {
    if Authoritative(next.state) {
      if !BindingDecision(decision) {
        AllowedPresupposes(Logical(current), next.state);
        LedByEdge(states, Logical(current), next.state);
      }
      EarnedByEntering(states, next);
    } else if next.state == RollbackRequired {
      RollbackLawful(states, next);
    } else {
      BlockLawful(states, current, next);
    }
  }

  lemma CaseSoundAppend(history: seq<Event>, e: Event)
    requires SkipsNothing(EnteredStates(history))
    ensures var states := EnteredStates(history); var p := e.body.state.position;
      CaseSound(history + [e], p) <==> Presupposed(states, p.state) && Earned(states + [p.state], p)
  {
    EnteredStatesAppend(history, e);
    SkipsNothingAppend(EnteredStates(history), e.body.state.position.state);
  }

  lemma EnteredStatesAppend(history: seq<Event>, e: Event)
    ensures EnteredStates(history + [e]) == EnteredStates(history) + [e.body.state.position.state]
  {
  }

  /** The same for an accepted transition of a case, its event and its history. */
  lemma AcceptedSoundIff(env: Environment, l: Ledger, req: Request)
    requires TransitionOutcome(env, l, req).Appended? && EntersRequested(req)
    requires CaseSound(History(l.events, req.caseId), l.cases[req.caseId].state.position)
    ensures var history, e := History(l.events, req.caseId), TransitionOutcome(env, l, req).event;
      CaseSound(history + [e], e.body.state.position) <==> Lawful(EnteredStates(history), e.body.state.position)
  {
    AcceptedTransition(env, l, req);
    var row := l.cases[req.caseId];
    GuardParts(env, row, req);
    var next := Normalize(env, req.state).position;
    GuardedStepIff(EnteredStates(History(l.events, req.caseId)), Snapshot(row).position, next, req.requested, req.decision);
    CaseSoundAppend(History(l.events, req.caseId), TransitionOutcome(env, l, req).event);
  }

  lemma FirstCaseSound(e: Event)
    requires e.body.state.position.state == UnverifiedReport
    ensures CaseSound([e], e.body.state.position)
  {
    assert EnteredStates([e]) == [UnverifiedReport];
  }

  // ---- Whole runs ----

  /** An accepted PROCEED enters the state it requested, as every verified ledger demands. */
  ghost predicate StepMatching(env: Environment, l: Ledger, step: Step) {
    step.TransitionStep? && StepOutcome(env, l, step).Appended? ==> EntersRequested(step.req)
  }

  ghost predicate StepLawful(env: Environment, l: Ledger, step: Step) {
    StepOutcome(env, l, step).Appended? && CaseOf(step) in l.cases ==>
      Lawful(EnteredStates(History(l.events, CaseOf(step))), StepOutcome(env, l, step).row.state.position)
  }

  ghost predicate RunMatching(env: Environment, steps: seq<Step>) {
    AllAlong(Stepping(env), (l, step) => StepMatching(env, l, step), EmptyLedger(env), steps)
  }

  ghost predicate RunLawful(env: Environment, steps: seq<Step>) {
    AllAlong(Stepping(env), (l, step) => StepLawful(env, l, step), EmptyLedger(env), steps)
  }

  predicate SoundNow(history: seq<Event>) {
    history != [] ==> CaseSound(history, Last(history).body.state.position)
  }

  /** The case skipped nothing and had earned where it stood, after each of its events. */
  ghost predicate HistorySound(history: seq<Event>) {
    EveryPrefix(h => SoundNow(h), history)
  }

  ghost predicate AllSound(l: Ledger) {
    forall c :: c in l.cases ==> HistorySound(History(l.events, c))
  }

  /** In a ledger whose rows repeat the last event, a sound history makes a sound case. */
  lemma RowSound(env: Environment, l: Ledger, caseId: string)
    requires Tracks(env, l) && caseId in l.cases && HistorySound(History(l.events, caseId))
    ensures CaseSound(History(l.events, caseId), l.cases[caseId].state.position)
  {
    var history := History(l.events, caseId);
    assert RowTracks(env, history, caseId, l.cases[caseId]);
    PrefixItself(h => SoundNow(h), history);
  }

  /** One appended event decides whether all cases stay sound. */
  lemma AllSoundAppend(l: Ledger, e: Event, row: CaseRow)
    requires e.body.caseId !in l.cases ==> History(l.events, e.body.caseId) == []
    ensures AllSound(Commit(l, e.body.caseId, Appended(e, row)))
       <==> AllSound(l) && CaseSound(History(l.events, e.body.caseId) + [e], e.body.state.position)
  {
    var c, after := e.body.caseId, Commit(l, e.body.caseId, Appended(e, row));
    forall d | d in after.cases
      ensures HistorySound(History(after.events, d)) <==>
        HistorySound(History(l.events, d)) && (d == c ==> CaseSound(History(l.events, c) + [e], e.body.state.position))
    {
      HistoryAppend(l.events, e, d);
      PrefixAppend(h => SoundNow(h), History(l.events, d), e);
    }
    assert c in after.cases;
  }

  /** The transition an accepted call amounts to, unless it initializes. */
  ghost function RequestOf(env: Environment, l: Ledger, step: Step): Request
    requires !step.InitStep? && StepOutcome(env, l, step).Appended?
  {
    if step.TransitionStep? then step.req
    else
      MutationIsTransition(env, l, step);
      MutationRequestOf(env, l, step)
  }

  lemma StepSoundIff(env: Environment, l: Ledger, step: Step)
    requires Tracks(env, l) && StepMatching(env, l, step)
    ensures AllSound(Next(env, l, step)) <==> AllSound(l) && StepLawful(env, l, step)
  {
    var outcome := StepOutcome(env, l, step);
    if outcome.Appended? {
      var c := CaseOf(step);
      if step.InitStep? {
        AcceptedInit(env, l, step.record, step.actor, step.key, step.now);
        NoRowNoHistory(env, l, l.events, c);
        FirstCaseSound(outcome.event);
        assert History(l.events, c) + [outcome.event] == [outcome.event];
        AllSoundAppend(l, outcome.event, outcome.row);
      } else {
        TransitionSoundIff(env, l, step);
      }
    }
  }

  lemma TransitionSoundIff(env: Environment, l: Ledger, step: Step)
    requires Tracks(env, l) && StepMatching(env, l, step) && !step.InitStep? && StepOutcome(env, l, step).Appended?
    ensures AllSound(Next(env, l, step)) <==> AllSound(l) && StepLawful(env, l, step)
  {
    var req, outcome := RequestOf(env, l, step), StepOutcome(env, l, step);
    if step.MutateStep? {
      MutationIsTransition(env, l, step);
    }
    AcceptedTransition(env, l, req);
    AllSoundAppend(l, outcome.event, outcome.row);
    if AllSound(l) {
      RowSound(env, l, req.caseId);
      AcceptedSoundIff(env, l, req);
    }
  }

  /** In every matching run: each case had, at every moment, entered the state it stood at and all common states
      before it, along allowed edges, if and only if every accepted rollback came after PRODUCTION_RELEASED had
      been entered and every accepted block resumes at a common state or at one already entered. */
  lemma RunSoundIff(env: Environment, steps: seq<Step>)
    requires RunMatching(env, steps)
    ensures AllSound(Run(env, steps)) <==> RunLawful(env, steps)
  {
    StepsTrack(env);
    forall l: Ledger, step: Step | Tracks(env, l) && StepMatching(env, l, step)
      ensures AllSound(Next(env, l, step)) <==> AllSound(l) && StepLawful(env, l, step)
    {
      StepSoundIff(env, l, step);
    }
    SurvivesIffAlong(Stepping(env), (l, step) => StepMatching(env, l, step), l => Tracks(env, l),
                     (l, step) => StepLawful(env, l, step), l => AllSound(l), EmptyLedger(env), steps);
  }

  lemma {:induction false} RunSkipsNothing(env: Environment, steps: seq<Step>, caseId: string)
    requires RunMatching(env, steps) && RunLawful(env, steps) && caseId in Run(env, steps).cases
    ensures CaseSound(History(Run(env, steps).events, caseId), Run(env, steps).cases[caseId].state.position)
  {
    RunSoundIff(env, steps);
    RunTracks(env, steps);
    RowSound(env, Run(env, steps), caseId);
  }

  // ---- What a closure proves about the past ----

  predicate AllEntered(lane: seq<State>, states: seq<State>) {
    forall k :: 0 <= k < |lane| ==> lane[k] in states
  }

  const RELEASE_LANE: seq<State> := [StagingPass, ReadyForOwnerRelease, ProductionReleased]
  const PACKAGE_LANE: seq<State> := [PackageReleased, ReleaseArtifactVerified, ConsumerValidationPass]

  lemma ProductionImpliesLane(states: seq<State>)
    requires SkipsNothing(states) && ProductionReleased in states
    ensures AllEntered(RELEASE_LANE, states)
  {
    var ready := Predecessor(states, ProductionReleased);
    var staging := Predecessor(states, ready);
  }

  lemma ConsumerImpliesLane(states: seq<State>)
    requires SkipsNothing(states) && ConsumerValidationPass in states
    ensures AllEntered(PACKAGE_LANE, states)
  {
    var verified := Predecessor(states, ConsumerValidationPass);
    var released := Predecessor(states, verified);
  }

  lemma ClosureIsComplete(states: seq<State>)
    requires SkipsNothing(states) && Closed in states
    ensures AllEntered(COMMON_LIFECYCLE, states) && (AllEntered(RELEASE_LANE, states) || AllEntered(PACKAGE_LANE, states))
  {
    EnteredImpliesCommon(states, Closed);
    var from := Predecessor(states, Closed);
    if from == ConsumerValidationPass {
      ConsumerImpliesLane(states);
    } else {
      if from == RollbackRequired {
        RollbackImpliesProduction(states);
      } else {
        var before := Predecessor(states, PostDeployVerified);
      }
      ProductionImpliesLane(states);
    }
  }

  /** A case that entered CLOSED in a lawful matching run has passed CI, and has been through the whole release
      lane or the whole package lane. */
  lemma {:induction false} ClosedCaseIsComplete(env: Environment, steps: seq<Step>, caseId: string)
    requires RunMatching(env, steps) && RunLawful(env, steps) && caseId in Run(env, steps).cases
    requires Closed in EnteredStates(History(Run(env, steps).events, caseId))
    ensures var states := EnteredStates(History(Run(env, steps).events, caseId));
      AllEntered(COMMON_LIFECYCLE, states) && (AllEntered(RELEASE_LANE, states) || AllEntered(PACKAGE_LANE, states))
  {
    RunSkipsNothing(env, steps, caseId);
    ClosureIsComplete(EnteredStates(History(Run(env, steps).events, caseId)));
  }
}
