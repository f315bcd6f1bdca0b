/** Whether a case was patched, tested, reviewed and built again since its subject last changed. */
module EpochReview {
  import opened Basics
  import opened States
  import opened Records
  import opened Events
  import opened Guards
  import opened SubjectUpdates
  import opened LedgerSteps
  import opened StoreTheorems
  import opened StoreRuns
  import opened NoSkip
  import opened BugLifecycle
  import opened CommitTheorems
  import opened CommitRuns
  import opened Runs

  function PositionAt(history: seq<Event>, i: nat): Position
    requires i < |history|
  {
    history[i].body.state.position
  }

  /** The event that began the current epoch of a case. */
  function EpochStart(history: seq<Event>): (start: nat)
    requires history != []
    ensures start < |history|
  {
    var n := |history| - 1;
    if n == 0 || history[n].body.epoch != history[n - 1].body.epoch then n else EpochStart(history[..n])
  }

  /** CHANGE_PLANNED or before it: where a patch is still to be made. */
  predicate Unpatched(s: State) { 0 <= Order(s) <= Order(ChangePlanned) }

  /** From this event on, the case stood at or before CHANGE_PLANNED at some time. */
  predicate StoodUnpatched(history: seq<Event>, from: nat) {
    exists i :: from <= i < |history| && Unpatched(Logical(PositionAt(history, i)))
  }

  predicate ProceededAt(history: seq<Event>, i: nat, s: State)
    requires i < |history|
  {
    history[i].body.decision == Proceed && PositionAt(history, i).state == s
  }

  /** A PROCEED entered the state after this event. */
  predicate Proceeded(history: seq<Event>, from: nat, s: State) {
    exists i :: from < i < |history| && ProceededAt(history, i, s)
  }

  /** PATCH_IMPLEMENTED and every common state after it, up to the n-th, was entered again. */
  predicate Renewed(history: seq<Event>, from: nat, n: nat)
    requires n <= |COMMON_LIFECYCLE|
  {
    forall k :: Order(PatchImplemented) <= k < n ==> Proceeded(history, from, COMMON_LIFECYCLE[k])
  }

  // ---- Two events of a case that follow each other ----

  /** A rollback is written only where CI_PASS or a later state was reached. */
  predicate RollsBackLate(current: Position, next: Position) {
    next.state == RollbackRequired ==> EnteredAt(Logical(current)) == |COMMON_LIFECYCLE|
  }

  predicate Moved(prev: Body, b: Body) {
    && OrderGuard(prev.state.position, b.state.position, b.requested, b.decision).Pass?
    && (Authoritative(b.state.position.state) || b.state.position.state == Blocked || b.state.position.state == RollbackRequired)
    && (b.decision == Proceed ==> b.state.position.state == b.requested)
  }

  /** Only a change of the subject starts an epoch. */
  predicate EpochMoved(prev: Body, b: Body) {
    b.epoch == b.state.subject.epoch && (!BindingDecision(b.decision) ==> b.epoch == prev.epoch)
  }

  predicate Follows(prev: Body, b: Body) {
    Moved(prev, b) && EpochMoved(prev, b) && RollsBackLate(prev.state.position, b.state.position)
  }

  predicate Opening(b: Body) {
    b.decision == Initialized && b.state.position.state == UnverifiedReport && b.epoch == b.state.subject.epoch
  }

  predicate FollowsAt(history: seq<Event>, i: nat)
    requires i < |history|
  {
    if i == 0 then Opening(history[0].body) else Follows(history[i - 1].body, history[i].body)
  }

  predicate HistoryFollows(history: seq<Event>) { forall i :: 0 <= i < |history| ==> FollowsAt(history, i) }

  lemma FollowsAtAppend(history: seq<Event>, e: Event, i: nat)
    requires history != [] && i <= |history|
    ensures FollowsAt(history + [e], i) <==> if i < |history| then FollowsAt(history, i) else Follows(Last(history).body, e.body)
  {
    var longer := history + [e];
    assert i < |history| ==> longer[i] == history[i];
    assert i > 0 ==> longer[i - 1] == history[i - 1];
    assert longer[|history|] == e;
  }

  lemma HistoryFollowsAppend(history: seq<Event>, e: Event)
    requires history != []
    ensures HistoryFollows(history + [e]) <==> HistoryFollows(history) && Follows(Last(history).body, e.body)
  {
    var longer := history + [e];
    FollowsAtAppend(history, e, |history|);
    if HistoryFollows(longer) {
      assert FollowsAt(longer, |history|);
      forall i | 0 <= i < |history| ensures FollowsAt(history, i) {
        assert FollowsAt(longer, i);
        FollowsAtAppend(history, e, i);
      }
    }
    if HistoryFollows(history) && Follows(Last(history).body, e.body) {
      forall i | 0 <= i < |longer| ensures FollowsAt(longer, i) {
        FollowsAtAppend(history, e, i);
      }
    }
  }

  // ---- One more event ----

  lemma EpochStartAppend(history: seq<Event>, e: Event)
    requires history != []
    ensures EpochStart(history + [e]) == if e.body.epoch == Last(history).body.epoch then EpochStart(history) else |history|
  {
    var longer := history + [e];
    assert longer[..|history|] == history;
    assert longer[|history|] == e && longer[|history| - 1] == Last(history);
  }

  lemma ProceededAppend(history: seq<Event>, e: Event, from: nat, s: State)
    requires from < |history|
    ensures Proceeded(history + [e], from, s)
       <==> Proceeded(history, from, s) || (e.body.decision == Proceed && e.body.state.position.state == s)
  {
    var longer := history + [e];
    assert forall i :: 0 <= i < |history| ==> (ProceededAt(longer, i, s) <==> ProceededAt(history, i, s));
    assert ProceededAt(longer, |history|, s) <==> e.body.decision == Proceed && e.body.state.position.state == s;
  }

  lemma StoodAppend(history: seq<Event>, e: Event, from: nat)
    requires from <= |history|
    ensures StoodUnpatched(history + [e], from) <==> StoodUnpatched(history, from) || Unpatched(Logical(e.body.state.position))
  {
    var longer := history + [e];
    assert forall i :: 0 <= i < |history| ==> PositionAt(longer, i) == PositionAt(history, i);
    assert PositionAt(longer, |history|) == e.body.state.position;
  }

  lemma EnteringReaches(p: Position, q: State, k: nat)
    requires q in AllowedTransitions(Logical(p)) && Authoritative(q) && k < EnteredAt(q)
    ensures k < EnteredAt(Logical(p)) || q == COMMON_LIFECYCLE[k]
  {
    AllowedPresupposes(Logical(p), q);
    if k >= RequiredBefore(q) { CommonPosition(q); }
  }

  lemma StayingReaches(prev: Body, b: Body)
    requires Moved(prev, b) && RollsBackLate(prev.state.position, b.state.position)
    requires BindingDecision(b.decision) || !Authoritative(b.state.position.state)
    ensures EnteredAt(Logical(b.state.position)) <= EnteredAt(Logical(prev.state.position))
  {
  }

  lemma ProceedEnters(prev: Body, b: Body)
    requires Moved(prev, b) && !BindingDecision(b.decision)
    ensures Authoritative(b.state.position.state) <==> b.decision == Proceed
    ensures b.decision == Proceed ==> b.state.position.state in AllowedTransitions(Logical(prev.state.position))
  {
  }

  /** A move leaves no more common states behind than were, or enters the next one. */
  lemma MoveReaches(prev: Body, b: Body, k: nat)
    requires Moved(prev, b) && RollsBackLate(prev.state.position, b.state.position)
    requires k < EnteredAt(Logical(b.state.position))
    ensures k < EnteredAt(Logical(prev.state.position)) || (b.decision == Proceed && b.state.position.state == COMMON_LIFECYCLE[k])
  {
    if !BindingDecision(b.decision) && Authoritative(b.state.position.state) {
      ProceedEnters(prev, b);
      EnteringReaches(prev.state.position, b.state.position.state, k);
    } else {
      StayingReaches(prev, b);
    }
  }

  lemma RenewedAppend(history: seq<Event>, e: Event, from: nat)
    requires from < |history| && Follows(Last(history).body, e.body)
    requires Renewed(history, from, EnteredAt(Logical(Last(history).body.state.position)))
    ensures Renewed(history + [e], from, EnteredAt(Logical(e.body.state.position)))
  {
    forall k | Order(PatchImplemented) <= k < EnteredAt(Logical(e.body.state.position))
      ensures Proceeded(history + [e], from, COMMON_LIFECYCLE[k])
    {
      MoveReaches(Last(history).body, e.body, k);
      ProceededAppend(history, e, from, COMMON_LIFECYCLE[k]);
    }
  }

  lemma UnpatchedIsRenewed(history: seq<Event>, from: nat, s: State)
    requires Unpatched(s)
    ensures Renewed(history, from, EnteredAt(s))
  {
  }

  lemma PatchComesFrom(prev: Body, b: Body)
    requires Moved(prev, b) && b.decision == Proceed && b.state.position.state == PatchImplemented
    ensures Logical(prev.state.position) == ChangePlanned
  {
  }

  // ---- Whole histories ----

  /** Since the epoch began: a case that stood unpatched renewed everything up to where it stands, and one that
      entered PATCH_IMPLEMENTED stood unpatched. */
  predicate EpochSound(history: seq<Event>)
    requires history != []
  {
    var start := EpochStart(history);
    && (StoodUnpatched(history, start) ==> Renewed(history, start, EnteredAt(Logical(Last(history).body.state.position))))
    && (Proceeded(history, start, PatchImplemented) ==> StoodUnpatched(history, start))
  }

  lemma EpochSoundAppend(history: seq<Event>, e: Event)
    requires history != [] && EpochSound(history) && Follows(Last(history).body, e.body)
    ensures EpochSound(history + [e])
  {
    EpochStartAppend(history, e);
    var longer, start := history + [e], EpochStart(history);
    assert Last(longer) == e;
    if e.body.epoch == Last(history).body.epoch {
      StoodAppend(history, e, start);
      ProceededAppend(history, e, start, PatchImplemented);
      if StoodUnpatched(history, start) {
        RenewedAppend(history, e, start);
      } else if Unpatched(Logical(e.body.state.position)) {
        UnpatchedIsRenewed(longer, start, Logical(e.body.state.position));
      }
      if e.body.decision == Proceed && e.body.state.position.state == PatchImplemented {
        PatchComesFrom(Last(history).body, e.body);
        assert Unpatched(Logical(PositionAt(history, |history| - 1)));
      }
    } else {
      StoodAppend(history, e, |history|);
      if Unpatched(Logical(e.body.state.position)) {
        UnpatchedIsRenewed(longer, |history|, Logical(e.body.state.position));
      }
    }
  }

  lemma {:induction false} HistoryEpochSound(history: seq<Event>)
    requires history != [] && HistoryFollows(history)
    ensures EpochSound(history)
  {
    var n := |history| - 1;
    if n == 0 {
      assert FollowsAt(history, 0);
    } else {
      assert history == history[..n] + [history[n]];
      HistoryFollowsAppend(history[..n], history[n]);
      HistoryEpochSound(history[..n]);
      EpochSoundAppend(history[..n], history[n]);
    }
  }

  /** A case at CI_PASS or past it entered PATCH_IMPLEMENTED to CI_PASS again since its subject last changed if and
      only if it stood at or before CHANGE_PLANNED at some time since. */
  lemma ReviewedIff(history: seq<Event>)
    requires history != [] && HistoryFollows(history)
    requires EnteredAt(Logical(Last(history).body.state.position)) == |COMMON_LIFECYCLE|
    ensures Renewed(history, EpochStart(history), |COMMON_LIFECYCLE|) <==> StoodUnpatched(history, EpochStart(history))
  {
    HistoryEpochSound(history);
    assert COMMON_LIFECYCLE[Order(PatchImplemented)] == PatchImplemented;
  }

  // ---- Runs of the store ----

  ghost predicate AllFollow(l: Ledger) { forall c :: c in l.cases ==> HistoryFollows(History(l.events, c)) }

  /** An accepted rollback write comes after CI_PASS was reached where the case stands. */
  ghost predicate StepRollsBackPast(env: Environment, l: Ledger, step: Step) {
    StepOutcome(env, l, step).Appended? && CaseOf(step) in l.cases ==>
      RollsBackLate(l.cases[CaseOf(step)].state.position, StepOutcome(env, l, step).row.state.position)
  }

  ghost predicate RunRollsBackPast(env: Environment, steps: seq<Step>) {
    AllAlong(Stepping(env), (l, step) => StepRollsBackPast(env, l, step), EmptyLedger(env), steps)
  }

  lemma OtherFollows(l: Ledger, e: Event, row: CaseRow, d: string)
    requires d != e.body.caseId && d in l.cases
    ensures var after := Commit(l, e.body.caseId, Appended(e, row));
      d in after.cases && (HistoryFollows(History(after.events, d)) <==> HistoryFollows(History(l.events, d)))
  {
    HistoryAppend(l.events, e, d);
  }

  lemma AllFollowAppend(l: Ledger, e: Event, row: CaseRow)
    requires History(l.events, e.body.caseId) == [] <==> e.body.caseId !in l.cases
    ensures AllFollow(Commit(l, e.body.caseId, Appended(e, row))) <==>
      && AllFollow(l)
      && if e.body.caseId in l.cases then Follows(Last(History(l.events, e.body.caseId)).body, e.body) else Opening(e.body)
  {
    var c, after := e.body.caseId, Commit(l, e.body.caseId, Appended(e, row));
    HistoryAppend(l.events, e, c);
    forall d | d in l.cases && d != c
      ensures d in after.cases && (HistoryFollows(History(after.events, d)) <==> HistoryFollows(History(l.events, d)))
    {
      OtherFollows(l, e, row, d);
    }
    assert after.cases.Keys == l.cases.Keys + {c};
    if c in l.cases {
      HistoryFollowsAppend(History(l.events, c), e);
    } else {
      assert History(l.events, c) + [e] == [e];
      assert HistoryFollows([e]) <==> FollowsAt([e], 0);
    }
  }

  lemma GuardedEpoch(env: Environment, row: CaseRow, req: Request)
    requires TransitionGuard(env, row, req).Pass? && !BindingDecision(req.decision)
    ensures Normalize(env, req.state).subject.epoch == row.state.subject.epoch
  {
    GuardedSubject(env, row, req);
    SubjectKept(env, Snapshot(row), Normalize(env, req.state), req.decision);
  }

  lemma GuardedSubject(env: Environment, row: CaseRow, req: Request)
    requires TransitionGuard(env, row, req).Pass?
    ensures SubjectGuard(env, Snapshot(row), Normalize(env, req.state), req.decision).Pass?
  {
  }

  lemma SubjectKept(env: Environment, current: Record, next: Record, decision: Decision)
    requires SubjectGuard(env, current, next, decision).Pass? && !BindingDecision(decision)
    ensures next.subject.epoch == current.subject.epoch
  {
  }

  lemma WrittenBody(env: Environment, prior: State, req: Request)
    ensures var b := TransitionBody(env, prior, req);
      && b.decision == req.decision && b.requested == req.requested && b.state == Normalize(env, req.state)
      && b.epoch == b.state.subject.epoch && b.state.position.state == req.state.position.state
  {
  }

  /** Between the last event of a case and the one an accepted transition appends. */
  lemma AcceptedFollows(env: Environment, l: Ledger, req: Request, last: Body)
    requires TransitionOutcome(env, l, req).Appended? && EntersRequested(req)
    requires last.state == l.cases[req.caseId].state && last.epoch == last.state.subject.epoch
    ensures var outcome := TransitionOutcome(env, l, req);
      && outcome.row.state == outcome.event.body.state
      && (Follows(last, outcome.event.body) <==> RollsBackLate(last.state.position, outcome.row.state.position))
  {
    AcceptedTransition(env, l, req);
    var row := l.cases[req.caseId];
    GuardParts(env, row, req);
    WrittenBody(env, row.state.position.state, req);
    if !BindingDecision(req.decision) {
      GuardedEpoch(env, row, req);
    }
  }

  lemma LastNamesEpoch(history: seq<Event>)
    requires history != [] && HistoryFollows(history)
    ensures Last(history).body.epoch == Last(history).body.state.subject.epoch
  {
    assert FollowsAt(history, |history| - 1);
  }

  lemma OpeningFollows(env: Environment, l: Ledger, step: Step)
    requires step.InitStep? && StepOutcome(env, l, step).Appended?
    ensures Opening(StepOutcome(env, l, step).event.body)
  {
    AcceptedInit(env, l, step.record, step.actor, step.key, step.now);
    OpenedBody(env, l, step.record, step.actor, step.key, step.now);
  }

  lemma OpenedBody(env: Environment, l: Ledger, r: Record, actor: Option<string>, key: Option<string>, now: string)
    requires InitOutcome(env, l, r, actor, key, now).Appended?
    ensures var b := InitOutcome(env, l, r, actor, key, now).event.body; b.decision == Initialized && b.epoch == b.state.subject.epoch
  {
  }

  lemma InitFollows(env: Environment, l: Ledger, step: Step)
    requires Tracks(env, l) && step.InitStep? && StepOutcome(env, l, step).Appended?
    ensures CaseOf(step) !in l.cases && (AllFollow(Next(env, l, step)) <==> AllFollow(l))
  {
    AcceptedInit(env, l, step.record, step.actor, step.key, step.now);
    OpeningFollows(env, l, step);
    NoRowNoHistory(env, l, l.events, CaseOf(step));
    AllFollowAppend(l, StepOutcome(env, l, step).event, StepOutcome(env, l, step).row);
  }

  lemma TransitionFollowsIff(env: Environment, l: Ledger, req: Request)
    requires Tracks(env, l) && TransitionOutcome(env, l, req).Appended? && EntersRequested(req)
    ensures req.caseId in l.cases
    ensures AllFollow(Commit(l, req.caseId, TransitionOutcome(env, l, req)))
       <==> AllFollow(l) && RollsBackLate(l.cases[req.caseId].state.position, TransitionOutcome(env, l, req).row.state.position)
  {
    var outcome := TransitionOutcome(env, l, req);
    AcceptedTransition(env, l, req);
    var history := History(l.events, req.caseId);
    assert RowTracks(env, history, req.caseId, l.cases[req.caseId]);
    AllFollowAppend(l, outcome.event, outcome.row);
    if HistoryFollows(history) {
      LastNamesEpoch(history);
      AcceptedFollows(env, l, req, Last(history).body);
    }
  }

  lemma StepFollowsIff(env: Environment, l: Ledger, step: Step)
    requires Tracks(env, l) && StepMatching(env, l, step)
    ensures AllFollow(Next(env, l, step)) <==> AllFollow(l) && StepRollsBackPast(env, l, step)
  {
    if StepOutcome(env, l, step).Appended? {
      if step.InitStep? {
        InitFollows(env, l, step);
      } else {
        if step.MutateStep? { MutationIsTransition(env, l, step); }
        TransitionFollowsIff(env, l, RequestOf(env, l, step));
      }
    }
  }

  /** In a matching run the events of each case follow each other exactly if no accepted rollback write came before
      CI_PASS was reached; every other rule the store enforces. */
  lemma RunFollowsIff(env: Environment, steps: seq<Step>)
    requires RunMatching(env, steps)
    ensures AllFollow(Run(env, steps)) <==> RunRollsBackPast(env, steps)
  {
    StepsTrack(env);
    forall l: Ledger, step: Step | Tracks(env, l) && StepMatching(env, l, step)
      ensures AllFollow(Next(env, l, step)) <==> AllFollow(l) && StepRollsBackPast(env, l, step)
    {
      StepFollowsIff(env, l, step);
    }
    SurvivesIffAlong(Stepping(env), (l, step) => StepMatching(env, l, step), l => Tracks(env, l),
                     (l, step) => StepRollsBackPast(env, l, step), l => AllFollow(l), EmptyLedger(env), steps);
  }

  // ---- Commits and bindings ----

  lemma OrderlyRollsBackLate(current: Position, next: Position)
    requires Orderly(current, next)
    ensures RollsBackLate(current, next)
  {
  }

  lemma WrittenPosition(env: Environment, l: Ledger, req: Request)
    requires TransitionOutcome(env, l, req).Appended?
    ensures req.caseId in l.cases
    ensures TransitionOutcome(env, l, req).row.state.position.state == req.state.position.state
  {
    AcceptedTransition(env, l, req);
  }

  lemma ChangedPast(env: Environment, l: Ledger, req: Request, updates: Updates, reason: string, now: string)
    requires BindsSubject(env, l, req, updates, reason, now) && TransitionOutcome(env, l, req).Appended?
    ensures RollsBackLate(l.cases[req.caseId].state.position, TransitionOutcome(env, l, req).row.state.position)
  {
    WrittenPosition(env, l, req);
    BindingOrderly(env, l, req, updates, reason, now);
    OrderlyRollsBackLate(l.cases[req.caseId].state.position, req.state.position);
  }

  lemma CommittedPast(env: Environment, l: Ledger, call: CommitCall)
    requires TransitionOutcome(env, l, CommitRequest(call)).Appended? && call.record.caseId in l.cases
    requires RowLegal(l.cases[call.record.caseId]) && Genuine(l.cases[call.record.caseId], call.record)
    requires RollbackRequired !in call.ctx.policy.Exits(ResolvedNoCode)
    ensures RollsBackLate(l.cases[call.record.caseId].state.position, TransitionOutcome(env, l, CommitRequest(call)).row.state.position)
  {
    WrittenPosition(env, l, CommitRequest(call));
    CommitOrderly(call);
    OrderlyRollsBackLate(l.cases[call.record.caseId].state.position, CommitRequest(call).state.position);
  }

  lemma ExplainedPast(env: Environment, l: Ledger, cause: Cause, outcome: Outcome)
    requires RowsLegal(l) && Explains(env, l, cause, outcome) && outcome.Appended? && CauseCase(cause) in l.cases
    ensures RollsBackLate(l.cases[CauseCase(cause)].state.position, outcome.row.state.position)
  {
    match cause
    case Opened(r, actor, key, now) => AcceptedInit(env, l, r, actor, key, now);
    case Changed(req, updates, reason, at) => ChangedPast(env, l, req, updates, reason, at);
    case Committed(call) =>
      assert RowLegal(l.cases[call.record.caseId]);
      CommittedPast(env, l, call);
  }

  lemma ActFollows(env: Environment, s: System, a: Action)
    requires env.IdealHash() && Invariant(env, s) && Controlled(a) && AllFollow(s.ledger)
    ensures AllFollow(Act(env, s, a).ledger)
  {
    if ActionOutcome(env, s, a).Appended? {
      AcceptedLawful(env, s, a);
      AcceptedAction(env, s, a);
      var cause := Explanation(env, s, a);
      if CauseCase(cause) in s.ledger.cases {
        ExplainedPast(env, s.ledger, cause, ActionOutcome(env, s, a));
      }
      StepFollowsIff(env, s.ledger, StepOf(env, s, a));
    }
  }

  lemma ReachedFollow(env: Environment, s: System)
    requires env.IdealHash() && Reached(env, s)
    ensures AllFollow(s.ledger)
  {
    var actions :| AllControlled(actions) && s == Play(env, Start(env), actions);
    forall s: System, a: Action | (Invariant(env, s) && AllFollow(s.ledger)) && Controlled(a)
      ensures Invariant(env, Act(env, s, a)) && AllFollow(Act(env, s, a).ledger)
    {
      ActKeepsInvariant(env, s, a);
      ActFollows(env, s, a);
    }
    assert Invariant(env, Start(env)) && AllFollow(Start(env).ledger);
    InvariantAlong(Acting(env), a => Controlled(a), (s: System) => Invariant(env, s) && AllFollow(s.ledger), Start(env), actions);
  }

  /** Through commits and bindings, a case at CI_PASS or past it was patched, tested, reviewed and built again since
      its subject last changed if and only if it stood at or before CHANGE_PLANNED at some time since. */
  lemma CommitsReviewIff(env: Environment, s: System, caseId: string)
    requires env.IdealHash() && Reached(env, s) && caseId in s.ledger.cases
    requires EnteredAt(Logical(s.ledger.cases[caseId].state.position)) == |COMMON_LIFECYCLE|
    ensures var history := History(s.ledger.events, caseId);
      && history != []
      && (Renewed(history, EpochStart(history), |COMMON_LIFECYCLE|) <==> StoodUnpatched(history, EpochStart(history)))
  {
    ReachedFollow(env, s);
    ReachedInvariant(env, s);
    assert RowTracks(env, History(s.ledger.events, caseId), caseId, s.ledger.cases[caseId]);
    ReviewedIff(History(s.ledger.events, caseId));
  }

  // ---- The case that is not reviewed again ----

  lemma NothingAfterLast(history: seq<Event>, last: nat, s: State)
    requires |history| == last + 1
    ensures !Proceeded(history, last, s)
  {
  }

  lemma UnrenewedAfterLast(history: seq<Event>, last: nat)
    requires |history| == last + 1
    ensures !Renewed(history, last, |COMMON_LIFECYCLE|)
  {
    var k := Order(PatchImplemented);
    NothingAfterLast(history, last, COMMON_LIFECYCLE[k]);
  }

  lemma NewEpochAlone(history: seq<Event>, e: Event, s: State)
    requires history != [] && e.body.epoch != Last(history).body.epoch
    ensures !Proceeded(history + [e], EpochStart(history + [e]), s)
  {
    EpochStartAppend(history, e);
    NothingAfterLast(history + [e], |history|, s);
  }

  lemma NewEpochUnrenewed(history: seq<Event>, e: Event)
    requires history != [] && e.body.epoch != Last(history).body.epoch
    ensures !Renewed(history + [e], EpochStart(history + [e]), |COMMON_LIFECYCLE|)
  {
    EpochStartAppend(history, e);
    UnrenewedAfterLast(history + [e], |history|);
  }

  lemma UpdatedEpoch(env: Environment, r: Record, updates: Updates, reason: string, now: string)
    requires ApplySubjectUpdate(env, r, updates, reason, now).Ok?
    requires MaterialChanges(SubjectOf(r), SubjectOf(WithUpdates(r, updates))) != {}
    ensures ApplySubjectUpdate(env, r, updates, reason, now).value.subject.epoch == r.subject.epoch + 1
  {
  }

  lemma BoundEpoch(env: Environment, r: Record, updates: Updates, reason: string, now: string)
    requires ApplySubjectUpdate(env, r, updates, reason, now).Ok? && r.position.state == Blocked
    requires MaterialChanges(SubjectOf(r), SubjectOf(WithUpdates(r, updates))) != {}
    ensures var updated := ApplySubjectUpdate(env, r, updates, reason, now).value;
      updated.subject.epoch == r.subject.epoch + 1 && updated.position == r.position
  {
    UpdatedEpoch(env, r, updates, reason, now);
    UpdatedPosition(env, r, updates, reason, now);
  }

  lemma BoundEvent(env: Environment, l: Ledger, req: Request, updates: Updates, reason: string, now: string)
    requires BindsSubject(env, l, req, updates, reason, now) && TransitionOutcome(env, l, req).Appended?
    requires var r := Snapshot(l.cases[req.caseId]);
      r.position.state == Blocked && MaterialChanges(SubjectOf(r), SubjectOf(WithUpdates(r, updates))) != {}
    ensures var outcome := TransitionOutcome(env, l, req); var before := l.cases[req.caseId].state;
      && outcome.event.body.caseId == req.caseId && outcome.row.state == outcome.event.body.state
      && outcome.event.body.epoch == before.subject.epoch + 1
      && Logical(outcome.row.state.position) == Logical(before.position)
  {
    AcceptedTransition(env, l, req);
    WrittenBody(env, l.cases[req.caseId].state.position.state, req);
    BoundEpoch(env, Snapshot(l.cases[req.caseId]), updates, reason, now);
  }

  /** The failing input: a subject bound while the case is blocked at CI_PASS or past it. The case keeps its place
      in the new epoch, and has entered none of PATCH_IMPLEMENTED to CI_PASS for the new subject. */
  lemma BlockedBindingSkipsReview(env: Environment, l: Ledger, req: Request, updates: Updates, reason: string, now: string)
    requires Tracks(env, l) && AllFollow(l)
    requires BindsSubject(env, l, req, updates, reason, now) && TransitionOutcome(env, l, req).Appended?
    requires var r := Snapshot(l.cases[req.caseId]);
      && r.position.state == Blocked && EnteredAt(Logical(r.position)) == |COMMON_LIFECYCLE|
      && MaterialChanges(SubjectOf(r), SubjectOf(WithUpdates(r, updates))) != {}
    ensures var after := Commit(l, req.caseId, TransitionOutcome(env, l, req)); var history := History(after.events, req.caseId);
      && req.caseId in after.cases && Logical(after.cases[req.caseId].state.position) == Logical(l.cases[req.caseId].state.position)
      && history != [] && !Renewed(history, EpochStart(history), |COMMON_LIFECYCLE|)
      && forall s :: !Proceeded(history, EpochStart(history), s)
  {
    BoundEvent(env, l, req, updates, reason, now);
    BindingUnreviewed(env, l, TransitionOutcome(env, l, req).event, l.cases[req.caseId]);
  }

  lemma BindingUnreviewed(env: Environment, l: Ledger, e: Event, row: CaseRow)
    requires Tracks(env, l) && AllFollow(l) && e.body.caseId in l.cases && row == l.cases[e.body.caseId]
    requires e.body.epoch == row.state.subject.epoch + 1
    ensures var history := History(l.events + [e], e.body.caseId);
      && history != [] && !Renewed(history, EpochStart(history), |COMMON_LIFECYCLE|)
      && forall s :: !Proceeded(history, EpochStart(history), s)
  {
    var history := History(l.events, e.body.caseId);
    assert RowTracks(env, history, e.body.caseId, row);
    LastNamesEpoch(history);
    HistoryAppend(l.events, e, e.body.caseId);
    NewEpochUnrenewed(history, e);
    forall s ensures !Proceeded(history + [e], EpochStart(history + [e]), s) {
      NewEpochAlone(history, e, s);
    }
  }
}
