/** When a run skips a common state: exactly on a rollback written before CI_PASS. */
module CommonStates {
  import opened States
  import opened Records
  import opened Events
  import opened Guards
  import opened LedgerSteps
  import opened StoreTheorems
  import opened StoreRuns
  import opened NoSkip
  import opened Runs

  predicate CommonAt(states: seq<State>, i: nat)
    requires i < |states|
  {
    EnteredFirst(states[..i], RequiredBefore(states[i]))
  }

  /** Every state was entered only after all the common states it presupposes, on whatever edges. */
  predicate CommonsFirst(states: seq<State>) {
    forall i :: 0 <= i < |states| ==> CommonAt(states, i)
  }

  /** A case whose commons are in order has entered those below where it stands. */
  predicate CommonsKept(states: seq<State>, p: Position) {
    CommonsFirst(states) ==> EnteredFirst(states, EnteredAt(Logical(p)))
  }

  lemma CommonsFirstAppend(states: seq<State>, s: State)
    ensures CommonsFirst(states + [s]) <==> CommonsFirst(states) && EnteredFirst(states, RequiredBefore(s))
  {
    var longer := states + [s];
    assert longer[..|states|] == states;
    assert forall i :: 0 <= i < |states| ==> longer[..i] == states[..i];
    assert forall i :: 0 <= i < |states| ==> (CommonAt(longer, i) <==> CommonAt(states, i));
    assert CommonAt(longer, |states|) <==> EnteredFirst(states, RequiredBefore(s));
  }

  lemma CiPassIsLast(states: seq<State>)
    requires CommonsFirst(states)
    ensures CiPass in states <==> EnteredFirst(states, |COMMON_LIFECYCLE|)
  {
    assert COMMON_LIFECYCLE[13] == CiPass && |COMMON_LIFECYCLE| == 14;
    if CiPass in states {
      var i :| 0 <= i < |states| && states[i] == CiPass;
      assert CommonAt(states, i);
    }
  }

  /** Matching transitions skip a common state exactly by rolling back before CI_PASS, wherever blocks resume. */
  lemma CommonStep(states: seq<State>, current: Position, next: Position, requested: State, decision: Decision)
    requires CommonsFirst(states) && CommonsKept(states, current)
    requires OrderGuard(current, next, requested, decision).Pass?
    requires Authoritative(next.state) || next.state == Blocked || next.state == RollbackRequired
    requires decision == Proceed ==> next.state == requested
    ensures EnteredFirst(states, RequiredBefore(next.state)) <==> (next.state == RollbackRequired ==> CiPass in states)
    ensures CommonsKept(states + [next.state], next)
  {
    CommonsFirstAppend(states, next.state);
    if next.state == RollbackRequired {
      CiPassIsLast(states);
    } else if Authoritative(next.state) {
      if !BindingDecision(decision) {
        AllowedPresupposes(Logical(current), next.state);
      }
      EnteredNow(states, next);
    } else {
      assert EnteredAt(Logical(next)) <= EnteredAt(Logical(current));
    }
  }

  lemma EnteredNow(states: seq<State>, p: Position)
    requires p.state != Blocked && EnteredFirst(states, RequiredBefore(p.state))
    ensures EnteredFirst(states + [p.state], EnteredAt(Logical(p)))
  {
    EarnedByEntering(states, p);
  }

  // ---- Whole runs ----

  ghost predicate StepRollsBackLate(env: Environment, l: Ledger, step: Step) {
    StepOutcome(env, l, step).Appended? && CaseOf(step) in l.cases
      && StepOutcome(env, l, step).row.state.position.state == RollbackRequired ==>
      CiPass in EnteredStates(History(l.events, CaseOf(step)))
  }

  ghost predicate RunRollsBackLate(env: Environment, steps: seq<Step>) {
    AllAlong(Stepping(env), (l, step) => StepRollsBackLate(env, l, step), EmptyLedger(env), steps)
  }

  predicate FirstIn(l: Ledger, caseId: string) { CommonsFirst(EnteredStates(History(l.events, caseId))) }

  predicate KeptIn(l: Ledger, caseId: string)
    requires caseId in l.cases
  {
    CommonsKept(EnteredStates(History(l.events, caseId)), l.cases[caseId].state.position)
  }

  ghost predicate AllCommonsFirst(l: Ledger) { forall c :: c in l.cases ==> FirstIn(l, c) }

  ghost predicate AllCommonsKept(l: Ledger) { forall c :: c in l.cases ==> KeptIn(l, c) }

  ghost predicate CommonInvariant(env: Environment, l: Ledger) { Tracks(env, l) && AllCommonsKept(l) }

  lemma OtherCase(l: Ledger, e: Event, row: CaseRow, d: string)
    requires d != e.body.caseId && d in l.cases
    ensures var after := Commit(l, e.body.caseId, Appended(e, row));
      d in after.cases && (FirstIn(after, d) <==> FirstIn(l, d)) && (KeptIn(after, d) <==> KeptIn(l, d))
  {
    HistoryAppend(l.events, e, d);
  }

  lemma OwnCase(l: Ledger, e: Event, row: CaseRow)
    ensures var states := EnteredStates(History(l.events, e.body.caseId)); var s := e.body.state.position.state;
      var after := Commit(l, e.body.caseId, Appended(e, row));
      && e.body.caseId in after.cases
      && (FirstIn(after, e.body.caseId) <==> FirstIn(l, e.body.caseId) && EnteredFirst(states, RequiredBefore(s)))
      && (KeptIn(after, e.body.caseId) <==> CommonsKept(states + [s], row.state.position))
  {
    HistoryAppend(l.events, e, e.body.caseId);
    EnteredStatesAppend(History(l.events, e.body.caseId), e);
    CommonsFirstAppend(EnteredStates(History(l.events, e.body.caseId)), e.body.state.position.state);
  }

  /** One appended event decides whether all commons stay in order. */
  lemma AllCommonsAppend(l: Ledger, e: Event, row: CaseRow)
    requires e.body.caseId !in l.cases ==> History(l.events, e.body.caseId) == []
    ensures var states := EnteredStates(History(l.events, e.body.caseId)); var s := e.body.state.position.state;
      && (AllCommonsFirst(Commit(l, e.body.caseId, Appended(e, row)))
          <==> AllCommonsFirst(l) && EnteredFirst(states, RequiredBefore(s)))
      && (AllCommonsKept(l) && CommonsKept(states + [s], row.state.position) ==>
          AllCommonsKept(Commit(l, e.body.caseId, Appended(e, row))))
  {
    var c, after := e.body.caseId, Commit(l, e.body.caseId, Appended(e, row));
    OwnCase(l, e, row);
    forall d | d in l.cases && d != c
      ensures d in after.cases && (FirstIn(after, d) <==> FirstIn(l, d)) && (KeptIn(after, d) <==> KeptIn(l, d))
    {
      OtherCase(l, e, row, d);
    }
    assert after.cases.Keys == l.cases.Keys + {c};
    assert c !in l.cases ==> FirstIn(l, c);
  }

  lemma GuardedCommonStep(env: Environment, states: seq<State>, row: CaseRow, req: Request)
    requires TransitionGuard(env, row, req).Pass? && EntersRequested(req)
    requires CommonsFirst(states) && CommonsKept(states, row.state.position)
    ensures var next := Normalize(env, req.state).position;
      && (EnteredFirst(states, RequiredBefore(next.state)) <==> (next.state == RollbackRequired ==> CiPass in states))
      && CommonsKept(states + [next.state], next)
  {
    GuardParts(env, row, req);
    CommonStep(states, Snapshot(row).position, Normalize(env, req.state).position, req.requested, req.decision);
  }

  lemma AppendedCommonIff(env: Environment, l: Ledger, step: Step)
    requires CommonInvariant(env, l) && StepMatching(env, l, step) && !step.InitStep? && StepOutcome(env, l, step).Appended?
    ensures CommonInvariant(env, Next(env, l, step))
    ensures AllCommonsFirst(Next(env, l, step)) <==> AllCommonsFirst(l) && StepRollsBackLate(env, l, step)
  {
    var req, outcome := RequestOf(env, l, step), StepOutcome(env, l, step);
    if step.MutateStep? {
      MutationIsTransition(env, l, step);
    }
    NextTracks(env, l, step);
    AcceptedTransition(env, l, req);
    var states := EnteredStates(History(l.events, req.caseId));
    assert FirstIn(l, req.caseId) <==> CommonsFirst(states);
    assert KeptIn(l, req.caseId);
    if CommonsFirst(states) {
      GuardedCommonStep(env, states, l.cases[req.caseId], req);
    }
    CommonsFirstAppend(states, outcome.row.state.position.state);
    AllCommonsAppend(l, outcome.event, outcome.row);
  }

  lemma InitCommonIff(env: Environment, l: Ledger, step: Step)
    requires CommonInvariant(env, l) && step.InitStep? && StepOutcome(env, l, step).Appended?
    ensures CommonInvariant(env, Next(env, l, step)) && CaseOf(step) !in l.cases
    ensures AllCommonsFirst(Next(env, l, step)) <==> AllCommonsFirst(l)
  {
    NextTracks(env, l, step);
    AcceptedInit(env, l, step.record, step.actor, step.key, step.now);
    NoRowNoHistory(env, l, l.events, CaseOf(step));
    FirstAppend(l, StepOutcome(env, l, step).event, StepOutcome(env, l, step).row);
  }

  lemma FirstAppend(l: Ledger, e: Event, row: CaseRow)
    requires AllCommonsKept(l) && History(l.events, e.body.caseId) == []
    requires row.state == e.body.state && row.state.position.state == UnverifiedReport
    ensures AllCommonsKept(Commit(l, e.body.caseId, Appended(e, row)))
    ensures AllCommonsFirst(Commit(l, e.body.caseId, Appended(e, row))) <==> AllCommonsFirst(l)
  {
    FirstCommon(row.state.position);
    AllCommonsAppend(l, e, row);
  }

  lemma FirstCommon(p: Position)
    requires p.state == UnverifiedReport
    ensures EnteredFirst([], RequiredBefore(p.state)) && CommonsKept([] + [p.state], p)
  {
    EnteredNow([], p);
  }

  lemma StepCommonIff(env: Environment, l: Ledger, step: Step)
    requires CommonInvariant(env, l) && StepMatching(env, l, step)
    ensures CommonInvariant(env, Next(env, l, step))
    ensures AllCommonsFirst(Next(env, l, step)) <==> AllCommonsFirst(l) && StepRollsBackLate(env, l, step)
  {
    if StepOutcome(env, l, step).Appended? {
      if step.InitStep? {
        InitCommonIff(env, l, step);
      } else {
        AppendedCommonIff(env, l, step);
      }
    }
  }

  /** In every matching run, every case entered each state only after the common states it presupposes, if and
      only if no accepted transition wrote ROLLBACK_REQUIRED in a case that had not entered CI_PASS. */
  lemma RunSkipsCommonIff(env: Environment, steps: seq<Step>)
    requires RunMatching(env, steps)
    ensures AllCommonsFirst(Run(env, steps)) <==> RunRollsBackLate(env, steps)
  {
    forall l: Ledger, step: Step | CommonInvariant(env, l) && StepMatching(env, l, step)
      ensures CommonInvariant(env, Next(env, l, step))
      ensures AllCommonsFirst(Next(env, l, step)) <==> AllCommonsFirst(l) && StepRollsBackLate(env, l, step)
    {
      StepCommonIff(env, l, step);
    }
    SurvivesIffAlong(Stepping(env), (l, step) => StepMatching(env, l, step), l => CommonInvariant(env, l),
                     (l, step) => StepRollsBackLate(env, l, step), l => AllCommonsFirst(l), EmptyLedger(env), steps);
  }
}
