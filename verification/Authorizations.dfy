/** Signed transition authorizations: preparing one, and how tightly it is bound to its event. */
module Authorizations {
  import opened Basics
  import opened States
  import opened Records
  import opened HashChain
  import opened Events
  import opened Guards
  import opened LedgerSteps
  import opened StoreTheorems
  import opened StoreRuns
  import opened Runs

  datatype Prepared = Prepared(sequence: int, previous: Digest, commitment: Digest, occurredAt: string, recordHash: Digest)

  /** The event material prepare_transition_authorization hashes: every supplied record, no authorization. */
  function PreparedBody(env: Environment, prior: State, req: Request, occurredAt: string): Body {
    TransitionBody(env, prior, req).(authorization := None, occurredAt := occurredAt, records := multiset(req.records))
  }

  function PrepareOutcome(env: Environment, l: Ledger, req: Request, occurredAt: string): Result<Prepared> {
    var actor := ResolveActor(env, req.actor);
    if actor.Fail? then Err(actor.failure)
    else if req.state.caseId != req.caseId then Err(ValueError)
    else if req.caseId !in l.cases then Err(KeyError)
    else if l.cases[req.caseId].version != req.expectedVersion then Err(RuntimeError)
    else
      var body := PreparedBody(env, l.cases[req.caseId].state.position.state, req, occurredAt);
      Ok(Prepared(|l.events| + 1, Head(l.events), env.Commitment(|l.events| + 1, Head(l.events), body), occurredAt, body.recordHash))
  }

  /** A preparation names the place, the time and the record of an event of the case as it stands, for the store's own
      controller, and refuses every other. */
  lemma PreparedNames(env: Environment, l: Ledger, req: Request, occurredAt: string)
    ensures PrepareOutcome(env, l, req, occurredAt).Ok? <==>
      && (req.actor.Some? ==> req.actor.value == env.controller.controllerId) && req.state.caseId == req.caseId
      && req.caseId in l.cases && l.cases[req.caseId].version == req.expectedVersion
    ensures PrepareOutcome(env, l, req, occurredAt).Ok? ==>
      var p := PrepareOutcome(env, l, req, occurredAt).value;
      && p.sequence == |l.events| + 1 && p.previous == (if l.events == [] then GENESIS_HASH else l.events[|l.events| - 1].digest)
      && p.occurredAt == occurredAt && p.recordHash == env.hash(RecordValue(Normalize(env, req.state)))
      && p.commitment == SignedCommitment(env, l.events, l.cases[req.caseId].state.position.state, req, occurredAt)
    ensures PrepareOutcome(env, l, req, occurredAt).Err? ==>
      PrepareOutcome(env, l, req, occurredAt).failure
        == if req.actor.Some? && req.actor.value != env.controller.controllerId then PermissionError
           else if req.state.caseId != req.caseId then ValueError else if req.caseId !in l.cases then KeyError else RuntimeError
  {
  }

  lemma {:induction false} HistoryOfPrefix(shorter: seq<Event>, longer: seq<Event>, caseId: string)
    requires shorter <= longer
    ensures History(shorter, caseId) <= History(longer, caseId)
    decreases |longer|
  {
    if |shorter| == |longer| {
      assert shorter == longer;
    } else {
      HistoryOfPrefix(shorter, longer[..|longer| - 1], caseId);
    }
  }

  /** The row of one case repeats the last event of that case, as in every reachable ledger. */
  predicate CaseTracks(env: Environment, l: Ledger, caseId: string) {
    caseId in l.cases && RowTracks(env, History(l.events, caseId), caseId, l.cases[caseId])
  }

  /** A case whose version did not change has the same row, however many events other cases committed. */
  lemma SameVersionSameState(env: Environment, earlier: Ledger, later: Ledger, caseId: string)
    requires earlier.events <= later.events
    requires CaseTracks(env, earlier, caseId) && CaseTracks(env, later, caseId)
    requires earlier.cases[caseId].version == later.cases[caseId].version
    ensures earlier.cases[caseId] == later.cases[caseId]
  {
    HistoryOfPrefix(earlier.events, later.events, caseId);
  }

  lemma CommitmentInjective(env: Environment, n: int, p: Digest, b: Body, n': int, p': Digest, b': Body)
    requires env.IdealHash()
    ensures env.Commitment(n, p, b) == env.Commitment(n', p', b')
       <==> n == n' && p == p' && b.(authorization := None) == b'.(authorization := None)
  {
    var v := CommitmentValue(n, p, b.(authorization := None));
    var w := CommitmentValue(n', p', b'.(authorization := None));
    assert env.SameHash(v, w) <==> v == w;
  }

  lemma PreparedIsWritten(env: Environment, prior: State, req: Request)
    requires req.authorization.Some?
    ensures PreparedBody(env, prior, req, req.authorization.value.occurredAt) == TransitionBody(env, prior, req).(authorization := None)
       <==> multiset(req.records) == KeptRecords(req)
  {
  }

  lemma CommitmentsBetween(env: Environment, earlier: seq<Event>, later: seq<Event>, prepared: Body, written: Body)
    requires env.IdealHash() && earlier <= later && prepared.authorization.None?
    ensures env.Commitment(|earlier| + 1, Head(earlier), prepared) == env.Commitment(|later| + 1, Head(later), written)
       <==> later == earlier && prepared == written.(authorization := None)
  {
    CommitmentInjective(env, |earlier| + 1, Head(earlier), prepared, |later| + 1, Head(later), written);
    assert |earlier| == |later| <==> earlier == later;
  }

  /** The commitment an approver signs for the event after `events`. */
  function SignedCommitment(env: Environment, events: seq<Event>, prior: State, req: Request, occurredAt: string): Digest {
    env.Commitment(|events| + 1, Head(events), PreparedBody(env, prior, req, occurredAt))
  }

  /** The commitment the store recomputes while it holds the write transaction. */
  function RecomputedCommitment(env: Environment, events: seq<Event>, prior: State, req: Request): Digest {
    env.Commitment(|events| + 1, Head(events), TransitionBody(env, prior, req))
  }

  lemma CommitmentsAtTwoLengths(env: Environment, prior: State, earlier: seq<Event>, later: seq<Event>, req: Request)
    requires env.IdealHash() && earlier <= later && req.authorization.Some?
    ensures SignedCommitment(env, earlier, prior, req, req.authorization.value.occurredAt) == RecomputedCommitment(env, later, prior, req)
       <==> later == earlier && multiset(req.records) == KeptRecords(req)
  {
    var prepared, written := PreparedBody(env, prior, req, req.authorization.value.occurredAt), TransitionBody(env, prior, req);
    PreparedIsWritten(env, prior, req);
    CommitmentsBetween(env, earlier, later, prepared, written);
  }

  lemma PreparedCommitment(env: Environment, l: Ledger, req: Request, occurredAt: string)
    requires PrepareOutcome(env, l, req, occurredAt).Ok?
    ensures req.caseId in l.cases && l.cases[req.caseId].version == req.expectedVersion
    ensures PrepareOutcome(env, l, req, occurredAt).value.commitment
         == SignedCommitment(env, l.events, l.cases[req.caseId].state.position.state, req, occurredAt)
  {
  }

  predicate Extends(earlier: Ledger, later: Ledger) { earlier.events <= later.events }

  /** The ledger is append-only. */
  lemma RunGrows(env: Environment, l: Ledger, steps: seq<Step>)
    requires Tracks(env, l)
    ensures l.events <= RunFrom(env, l, steps).events
  {
    StepsTrack(env);
    RelatedAlong(Stepping(env), step => true, l => Tracks(env, l), (a, b) => Extends(a, b), l, steps);
  }

  lemma RowBetween(env: Environment, before: seq<Step>, after: seq<Step>, earlier: Ledger, later: Ledger, caseId: string)
    requires earlier == Run(env, before) && later == RunFrom(env, earlier, after)
    ensures earlier.events <= later.events
    ensures caseId in earlier.cases && caseId in later.cases && earlier.cases[caseId].version == later.cases[caseId].version ==>
      earlier.cases[caseId] == later.cases[caseId]
  {
    RunTracks(env, before);
    RunGrows(env, earlier, after);
    RunFromTracks(env, earlier, after);
    if caseId in earlier.cases && caseId in later.cases && earlier.cases[caseId].version == later.cases[caseId].version {
      SameVersionSameState(env, earlier, later, caseId);
    }
  }

  /** In any run, a request prepared after some calls and still at its version after more of them is offered
      the commitment that was signed if and only if the later calls committed no event of any case. */
  lemma PreparedInRun(env: Environment, before: seq<Step>, after: seq<Step>, earlier: Ledger, later: Ledger, req: Request)
    requires env.IdealHash() && req.authorization.Some?
    requires earlier == Run(env, before) && later == RunFrom(env, earlier, after)
    requires PrepareOutcome(env, earlier, req, req.authorization.value.occurredAt).Ok?
    requires req.caseId in later.cases && later.cases[req.caseId].version == req.expectedVersion
    ensures
      PrepareOutcome(env, earlier, req, req.authorization.value.occurredAt).value.commitment
        == RecomputedCommitment(env, later.events, later.cases[req.caseId].state.position.state, req)
      <==> later.events == earlier.events && multiset(req.records) == KeptRecords(req)
  {
    RowBetween(env, before, after, earlier, later, req.caseId);
    PreparedCommitment(env, earlier, req, req.authorization.value.occurredAt);
    CommitmentsAtTwoLengths(env, later.cases[req.caseId].state.position.state, earlier.events, later.events, req);
  }

  // ---- Authorizations in reachable ledgers ----

  /** Every stored authorization commits to its event: what _append_event_tx checks before it writes. */
  ghost predicate AuthorizationsBound(env: Environment, events: seq<Event>) {
    forall i :: 0 <= i < |events| ==> AuthorizationBound(env, events[i])
  }

  predicate AuthorizationBound(env: Environment, e: Event) {
    e.body.authorization.Some? ==>
      && e.body.authorization.value.commitment == env.Commitment(e.sequence, e.previous, e.body)
      && e.body.authorization.value.occurredAt == e.body.occurredAt
      && e.body.authorization.value.createdAt == e.body.occurredAt
  }

  lemma AcceptedTransitionBound(env: Environment, l: Ledger, req: Request)
    requires TransitionOutcome(env, l, req).Appended?
    ensures AuthorizationBound(env, TransitionOutcome(env, l, req).event)
  {
    AcceptedTransition(env, l, req);
  }

  lemma AcceptedInitBound(env: Environment, l: Ledger, r: Record, actor: Option<string>, key: Option<string>, now: string)
    requires InitOutcome(env, l, r, actor, key, now).Appended?
    ensures AuthorizationBound(env, InitOutcome(env, l, r, actor, key, now).event)
  {
  }

  lemma StepBindsAuthorizations(env: Environment, l: Ledger, step: Step)
    requires AuthorizationsBound(env, l.events)
    ensures AuthorizationsBound(env, Next(env, l, step).events)
  {
    if StepOutcome(env, l, step).Appended? {
      match step
      case InitStep(r, actor, key, now) => AcceptedInitBound(env, l, r, actor, key, now);
      case TransitionStep(req) => AcceptedTransitionBound(env, l, req);
      case MutateStep(_, _, _, _, _, _) =>
        MutationIsTransition(env, l, step);
        AcceptedTransitionBound(env, l, MutationRequestOf(env, l, step));
    }
  }

  /** Every run binds each authorization it stores to its event. */
  lemma RunBindsAuthorizations(env: Environment, steps: seq<Step>)
    ensures AuthorizationsBound(env, Run(env, steps).events)
  {
    forall l: Ledger, step: Step | AuthorizationsBound(env, l.events) ensures AuthorizationsBound(env, Next(env, l, step).events) {
      StepBindsAuthorizations(env, l, step);
    }
    InvariantAlong(Stepping(env), step => true, (l: Ledger) => AuthorizationsBound(env, l.events), EmptyLedger(env), steps);
  }

  /** A signature pins the whole past: two ledgers, even of different stores, that hold one authorization
      agree on every event up to and including the one it authorizes. */
  lemma AuthorizationPinsHistory(env: Environment, a: seq<Event>, b: seq<Event>, i: nat, j: nat)
    requires env.IdealHash() && Linked(env.Hasher(), a) && Linked(env.Hasher(), b)
    requires AuthorizationsBound(env, a) && AuthorizationsBound(env, b)
    requires i < |a| && j < |b|
    requires a[i].body.authorization.Some? && a[i].body.authorization == b[j].body.authorization
    ensures i == j && a[..i + 1] == b[..j + 1]
  {
    IdealHasher(env);
    assert AuthorizationBound(env, a[i]) && AuthorizationBound(env, b[j]);
    CommitmentInjective(env, a[i].sequence, a[i].previous, a[i].body, b[j].sequence, b[j].previous, b[j].body);
    assert LinkedAt(env.Hasher(), a, i) && LinkedAt(env.Hasher(), b, j);
    assert a[i].body == b[j].body;
    PrefixLinked(env.Hasher(), a, i);
    PrefixLinked(env.Hasher(), b, j);
    HeadDeterminesChain(env.Hasher(), a[..i], b[..j]);
    assert a[..i + 1] == a[..i] + [a[i]] && b[..j + 1] == b[..j] + [b[j]];
  }
}
