/** Whole runs of the store: any number of cases, callers and calls, in any order. */
module StoreRuns {
  import opened Basics
  import opened States
  import opened Records
  import opened Events
  import opened Guards
  import opened SubjectUpdates
  import opened LedgerSteps
  import opened ChainVerification
  import opened StoreTheorems
  import opened Runs

  /** One call on the store. Each write is one immediate transaction, so calls interleave whole. */
  datatype Step =
    | InitStep(record: Record, actor: Option<string>, key: Option<string>, now: string)
    | TransitionStep(req: Request)
    | MutateStep(caseId: string, updates: Updates, reason: string, actor: Option<string>, version: int, now: string)

  function CaseOf(step: Step): string {
    match step
    case InitStep(r, _, _, _) => r.caseId
    case TransitionStep(req) => req.caseId
    case MutateStep(c, _, _, _, _, _) => c
  }

  /** mutate_subject first takes a verified read, and raises when the chain does not verify. */
  ghost function StepOutcome(env: Environment, l: Ledger, step: Step): Outcome {
    match step
    case InitStep(r, actor, key, now) => InitOutcome(env, l, r, actor, key, now)
    case TransitionStep(req) => TransitionOutcome(env, l, req)
    case MutateStep(c, updates, reason, actor, version, now) =>
      if ChainValid(env, l) then MutationOutcome(env, l, c, updates, reason, actor, version, now) else Rejected(RuntimeError)
  }

  ghost function Next(env: Environment, l: Ledger, step: Step): Ledger {
    Commit(l, CaseOf(step), StepOutcome(env, l, step))
  }

  ghost function Stepping(env: Environment): (Ledger, Step) -> Ledger { (l, step) => Next(env, l, step) }

  /** Where any sequence of calls leads from a ledger, and from a new store. */
  ghost function RunFrom(env: Environment, l: Ledger, steps: seq<Step>): Ledger { RunOf(Stepping(env), l, steps) }

  ghost function Run(env: Environment, steps: seq<Step>): Ledger { RunFrom(env, EmptyLedger(env), steps) }

  /** A direct transition that is accepted must be disciplined; nothing is asked of other calls. */
  ghost predicate StepDisciplined(env: Environment, l: Ledger, step: Step) {
    step.TransitionStep? && StepOutcome(env, l, step).Appended? ==> Disciplined(step.req)
  }

  ghost predicate RunDisciplined(env: Environment, steps: seq<Step>) {
    AllAlong(Stepping(env), (l, step) => StepDisciplined(env, l, step), EmptyLedger(env), steps)
  }

  /** The transition a mutation turns into. */
  function MutationRequestOf(env: Environment, l: Ledger, step: Step): Request
    requires step.MutateStep? && step.caseId in l.cases
    requires ApplySubjectUpdate(env, Snapshot(l.cases[step.caseId]), step.updates, step.reason, step.now).Ok?
  {
    MutationRequest(ApplySubjectUpdate(env, Snapshot(l.cases[step.caseId]), step.updates, step.reason, step.now).value,
                    step.caseId, step.actor, step.version, step.now)
  }

  lemma MutationIsTransition(env: Environment, l: Ledger, step: Step)
    requires step.MutateStep? && StepOutcome(env, l, step).Appended?
    ensures step.caseId in l.cases
    ensures ApplySubjectUpdate(env, Snapshot(l.cases[step.caseId]), step.updates, step.reason, step.now).Ok?
    ensures StepOutcome(env, l, step) == TransitionOutcome(env, l, MutationRequestOf(env, l, step))
    ensures MutationRequestOf(env, l, step).caseId == step.caseId && Disciplined(MutationRequestOf(env, l, step))
  {
  }

  /** Without an authorization no transition enters a protected state. */
  lemma UnauthorizedIsUnprotected(env: Environment, l: Ledger, req: Request)
    requires TransitionOutcome(env, l, req).Appended? && req.authorization.None?
    ensures !ProtectedState(req.state.position.state)
  {
    AcceptedTransition(env, l, req);
    GuardParts(env, l.cases[req.caseId], req);
  }

  lemma UpdateOfPostProduction(env: Environment, r: Record, updates: Updates, reason: string, now: string)
    requires PostProduction(r.position.state)
    requires ApplySubjectUpdate(env, r, updates, reason, now).Ok?
    ensures ProtectedState(ApplySubjectUpdate(env, r, updates, reason, now).value.position.state)
  {
    UpdatedPosition(env, r, updates, reason, now);
  }

  /** After production exposure a subject change cannot be recorded at all: it stays in or enters a
      protected state, and mutate_subject has no way to pass the signature that takes. */
  lemma PostProductionMutationRefused(env: Environment, l: Ledger, step: Step)
    requires step.MutateStep? && step.caseId in l.cases
    requires PostProduction(l.cases[step.caseId].state.position.state)
    ensures !StepOutcome(env, l, step).Appended?
  {
    if StepOutcome(env, l, step).Appended? {
      MutationIsTransition(env, l, step);
      UpdateOfPostProduction(env, Snapshot(l.cases[step.caseId]), step.updates, step.reason, step.now);
      UnauthorizedIsUnprotected(env, l, MutationRequestOf(env, l, step));
    }
  }

  lemma NextTracks(env: Environment, l: Ledger, step: Step)
    requires Tracks(env, l)
    ensures Tracks(env, Next(env, l, step))
  {
    if StepOutcome(env, l, step).Appended? {
      match step
      case InitStep(r, actor, key, now) => InitTracks(env, l, r, actor, key, now);
      case TransitionStep(req) => TransitionTracks(env, l, req);
      case MutateStep(_, _, _, _, _, _) =>
        MutationIsTransition(env, l, step);
        TransitionTracks(env, l, MutationRequestOf(env, l, step));
    }
  }

  lemma StepsTrack(env: Environment)
    ensures Keeps(Stepping(env), step => true, l => Tracks(env, l))
  {
    forall l: Ledger, step: Step | Tracks(env, l) ensures Tracks(env, Next(env, l, step)) {
      NextTracks(env, l, step);
    }
  }

  lemma RunFromTracks(env: Environment, l: Ledger, steps: seq<Step>)
    requires Tracks(env, l)
    ensures Tracks(env, RunFrom(env, l, steps))
  {
    StepsTrack(env);
    InvariantAlong(Stepping(env), step => true, l => Tracks(env, l), l, steps);
  }

  lemma RunTracks(env: Environment, steps: seq<Step>)
    ensures Tracks(env, Run(env, steps))
  {
    RunFromTracks(env, EmptyLedger(env), steps);
  }

  /** A committed initialization always verifies. */
  lemma InitVerifies(env: Environment, l: Ledger, r: Record, actor: Option<string>, key: Option<string>, now: string)
    requires env.Trusted() && Tracks(env, l) && EventsOk(env, l.events)
    requires InitOutcome(env, l, r, actor, key, now).Appended?
    ensures EventsOk(env, l.events + [InitOutcome(env, l, r, actor, key, now).event])
  {
    AcceptedInit(env, l, r, actor, key, now);
    NoRowNoHistory(env, l, l.events, r.caseId);
    EventsOkAppend(env, l.events, InitOutcome(env, l, r, actor, key, now).event);
  }

  /** A verification failure is permanent: the ledger is append-only and every event is checked again. */
  lemma BadEventsStay(env: Environment, l: Ledger, step: Step)
    requires !EventsOk(env, l.events)
    ensures !EventsOk(env, Next(env, l, step).events)
  {
    var outcome := StepOutcome(env, l, step);
    if outcome.Appended? {
      EventsOkAppend(env, l.events, outcome.event);
    }
  }

  lemma StepVerifiesIff(env: Environment, l: Ledger, step: Step)
    requires env.Trusted() && Tracks(env, l)
    ensures EventsOk(env, Next(env, l, step).events) <==> EventsOk(env, l.events) && StepDisciplined(env, l, step)
  {
    if !EventsOk(env, l.events) {
      BadEventsStay(env, l, step);
    } else if StepOutcome(env, l, step).Appended? {
      NextTracks(env, l, step);
      TrackedRowsVerify(env, l);
      TrackedRowsVerify(env, Next(env, l, step));
      match step
      case InitStep(r, actor, key, now) => InitVerifies(env, l, r, actor, key, now);
      case TransitionStep(req) => TransitionVerifiesIffDisciplined(env, l, req);
      case MutateStep(_, _, _, _, _, _) =>
        MutationIsTransition(env, l, step);
        TransitionVerifiesIffDisciplined(env, l, MutationRequestOf(env, l, step));
    }
  }

  /** The events of any run verify if and only if every accepted direct transition was disciplined. */
  lemma RunEventsOk(env: Environment, steps: seq<Step>)
    requires env.Trusted()
    ensures EventsOk(env, Run(env, steps).events) <==> RunDisciplined(env, steps)
  {
    StepsTrack(env);
    forall l: Ledger, step: Step | Tracks(env, l)
      ensures EventsOk(env, Next(env, l, step).events) <==> EventsOk(env, l.events) && StepDisciplined(env, l, step)
    {
      StepVerifiesIff(env, l, step);
    }
    SurvivesIff(Stepping(env), step => true, l => Tracks(env, l), (l, step) => StepDisciplined(env, l, step),
                (l: Ledger) => EventsOk(env, l.events), EmptyLedger(env), steps);
  }

  /** The ledger of any run verifies if and only if every accepted direct transition was disciplined. */
  lemma RunVerifiesIffDisciplined(env: Environment, steps: seq<Step>)
    requires env.Trusted()
    ensures ChainValid(env, Run(env, steps)) <==> RunDisciplined(env, steps)
  {
    RunTracks(env, steps);
    TrackedRowsVerify(env, Run(env, steps));
    RunEventsOk(env, steps);
  }
}
