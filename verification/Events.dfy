/** Lifecycle events, the ledger that holds them, and the environment the store runs in. */
module Events {
  import opened Basics
  import opened States
  import opened Records
  import opened HashChain

  const LIFECYCLE_CONTROLLER_ID := "platform:lifecycle-controller"
  const LIFECYCLE_CONTROLLER_TYPE := "protected-lifecycle-controller"
  const TRANSITION_AUTHORIZATION_TYPE := "LIFECYCLE_TRANSITION_AUTHORIZATION"
  const NO_CODE_EVIDENCE := "RESOLVED_NO_CODE_PROVEN"

  datatype Identity = Identity(controllerId: string, controllerType: string, runtime: string,
                               source: string, mechanism: string)

  datatype Evidence = Evidence(evidenceId: string, kind: string, caseId: string, content: string)

  /** What a signed authorization says about the one event it authorizes. */
  datatype Claim = Claim(
    caseId: string, expectedVersion: int, currentRecordHash: Digest, nextRecordHash: Digest,
    requested: State, decision: Decision, actor: string, key: string,
    fingerprint: Digest, epoch: int, required: set<string>, accepted: set<string>, rejected: set<string>,
    policyHash: Option<string>, toolchainHash: Option<string>,
    controllerId: string, controllerType: string, source: string, mechanism: string)

  datatype Authorization = Authorization(evidenceId: string, kind: string, createdAt: string, claim: Claim,
                                         commitment: Digest, occurredAt: string, signature: string)

  datatype RiskSnapshot = RiskSnapshot(level: Option<RiskLevel>, cls: Option<RiskClass>)

  /** Everything an event hashes besides its number and its predecessor. No `prior` means <GENESIS>. */
  datatype Body = Body(
    caseId: string, key: string, actor: string, occurredAt: string,
    prior: Option<State>, requested: State, decision: Decision,
    required: set<string>, accepted: set<string>, rejected: set<string>, records: multiset<Evidence>,
    subject: Subject, epoch: int, fingerprint: Digest,
    policyHash: Option<string>, toolchainHash: Option<string>,
    risk: RiskSnapshot, domains: Option<seq<string>>,
    authorization: Option<Authorization>, identity: Identity, binding: string,
    recordHash: Digest, state: Record)

  type Event = Link<Body, string>

  /** The JSON documents the toolkit hashes. */
  datatype Value =
    | RecordValue(record: Record)
    | SubjectValue(subject: Subject)
    | EventValue(sequence: int, previous: Digest, body: Body)
    | CommitmentValue(sequence: int, previous: Digest, body: Body)

  datatype Environment = Environment(
    hash: Value -> Digest, mac: Digest -> string,
    binding: string, controller: Identity, hostAccepted: bool,
    subjectValid: Subject -> bool,
    evidenceValid: (Evidence, Subject) -> bool,
    authorizationValid: (Authorization, Subject) -> bool,
    initKey: (string, Digest) -> string,
    transitionKey: (string, int, State, Digest) -> string)
  {
    function Hasher(): Hasher<Body, string> {
      HashChain.Hasher((n, p, b) => hash(EventValue(n, p, b)), mac)
    }

    /** `LifecycleStore.__init__` refuses any other controller. */
    predicate Trusted() {
      controller.controllerId == LIFECYCLE_CONTROLLER_ID && controller.controllerType == LIFECYCLE_CONTROLLER_TYPE
    }

    function Fingerprint(s: Subject): Digest { hash(SubjectValue(s)) }

    /** event_commitment: the event without its authorization. */
    function Commitment(sequence: int, previous: Digest, body: Body): Digest {
      hash(CommitmentValue(sequence, previous, body.(authorization := None)))
    }

    predicate SameHash(v: Value, w: Value) { hash(v) == hash(w) }

    /** No two documents share a hash, and no document hashes to the genesis value. */
    ghost predicate IdealHash() {
      && (forall v, w :: SameHash(v, w) ==> v == w)
      && (forall v :: hash(v) != GENESIS_HASH)
    }
  }

  datatype CaseRow = CaseRow(version: int, epoch: int, state: Record, currentHash: Digest)

  /** The three tables of the database. */
  datatype Ledger = Ledger(binding: string, events: seq<Event>, cases: map<string, CaseRow>)

  /** The events of one case, in order. */
  function History(events: seq<Event>, caseId: string): seq<Event> {
    if events == [] then []
    else
      var rest := History(events[..|events| - 1], caseId);
      if events[|events| - 1].body.caseId == caseId then rest + [events[|events| - 1]] else rest
  }

  function Last(events: seq<Event>): Event
    requires events != []
  {
    events[|events| - 1]
  }

  lemma {:induction false} HistoryAppend(events: seq<Event>, e: Event, caseId: string)
    ensures History(events + [e], caseId)
         == if e.body.caseId == caseId then History(events, caseId) + [e] else History(events, caseId)
  {
  }

  /** _snapshot: the stored record with the authority fields overwritten from its row. */
  function Snapshot(row: CaseRow): Record {
    row.state.(authority := row.state.authority.(
      authoritative := true, store := Some(STORE_NAME), version := Some(row.version), recordHash := Some(row.currentHash)))
  }

  lemma IdealHasher(env: Environment)
    requires env.IdealHash()
    ensures Ideal(env.Hasher())
  {
    var h := env.Hasher();
    forall n, p, b, n', p', b' | SameDigest(h, n, p, b, n', p', b') ensures n == n' && p == p' && b == b' {
      assert env.SameHash(EventValue(n, p, b), EventValue(n', p', b'));
    }
  }
}
