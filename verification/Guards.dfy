/** The guards of `LifecycleStore.transition`, in the order the store raises them. */
module Guards {
  import opened Basics
  import opened States
  import opened Records
  import opened Events

  /** The arguments of `transition`; `now` is the clock reading of the call. */
  datatype Request = Request(
    caseId: string, state: Record, actor: Option<string>, expectedVersion: int,
    requested: State, decision: Decision,
    required: set<string>, accepted: seq<string>, records: seq<Evidence>, rejected: set<string>,
    policyHash: Option<string>, toolchainHash: Option<string>,
    risk: Option<RiskSnapshot>, domains: Option<Option<seq<string>>>,
    key: Option<string>, authorization: Option<Authorization>, now: string)

  // ---- Subject and risk checks (subject.py, _validate_risk_and_domains) ----

  /** validate_subject_epoch_transition reports no error. */
  predicate EpochStepOk(env: Environment, prev: Record, next: Record) {
    var changes := MaterialChanges(SubjectOf(prev), SubjectOf(next));
    && (changes != {} ==> next.subject.epoch == prev.subject.epoch + 1)
    && (changes == {} ==> next.subject.epoch == prev.subject.epoch)
    && (changes != {} ==> next.subject.fingerprint == Some(env.Fingerprint(SubjectOf(next))))
    && ((exists f :: f in changes && ProductionField(f)) ==>
          next.position.state == RollbackRequired || next.position.state == Blocked || next.position.state == ChangePlanned)
  }

  const VALID_DOMAINS: set<string> := {"GENERAL", "DATABASE", "AUTH_TENANT", "FINANCIAL", "ZATCA",
                                       "PROVIDER", "CONCURRENCY", "SECURITY"}

  predicate KnownLevel(l: Option<RiskLevel>) { l.None? || !l.value.OtherRisk? }

  function Upper(text: string): string {
    seq(|text|, i requires 0 <= i < |text| => if 'a' <= text[i] <= 'z' then text[i] - 'a' + 'A' else text[i])
  }

  function UpperAll(texts: seq<string>): seq<string> {
    seq(|texts|, i requires 0 <= i < |texts| => Upper(texts[i]))
  }

  /** _validate_risk_and_domains */
  function RiskGuard(current: RiskProfile, next: Record): Check {
    var risk := next.risk;
    var domains := if next.domains.Some? then UpperAll(next.domains.value) else [];
    :- Need(Distinct(domains) && SetOf(domains) <= VALID_DOMAINS, ValueError);
    :- Need(KnownLevel(current.level) && KnownLevel(risk.level), ValueError);
    :- Need(current.level.None? || risk.level.None? || LevelOrder(current.level.value) <= LevelOrder(risk.level.value),
            PermissionError);
    :- Need(risk.cls.None? || !risk.cls.value.OtherClass?, ValueError);
    :- Need(risk.cls.None? || risk.level.Some?, ValueError);
    :- Need(risk.level.None? || risk.cls.None? || ClassOf(risk.level.value) == risk.cls.value, PermissionError);
    :- Need(risk.level.None? || SetOf(domains) <= {"GENERAL"} || LevelOrder(risk.level.value) >= LevelOrder(R3),
            PermissionError);
    :- Need(forall i :: 0 <= i < |risk.history| ==> KnownLevel(risk.history[i].level), ValueError);
    Need(DominatesHistory(risk), PermissionError)
  }

  predicate DominatesHistory(risk: RiskProfile) {
    risk.level.Some? ==> forall i :: 0 <= i < |risk.history| && risk.history[i].level.Some? ==>
      LevelOrder(risk.history[i].level.value) <= LevelOrder(risk.level.value)
  }

  // ---- Guards of transition ----

  function Normalize(env: Environment, r: Record): Record {
    r.(
      authority := r.authority.(authoritative := true, store := Some(STORE_NAME)),
      position := if Authoritative(r.position.state) then r.position.(lastCompleted := Some(r.position.state)) else r.position,
      subject := r.subject.(fingerprint := Some(env.Fingerprint(SubjectOf(r)))))
  }

  function DeliveryModelOf(next: Record, current: Record): string {
    var a := if DeliveryModel in next.subject.material then next.subject.material[DeliveryModel] else "";
    var b := if DeliveryModel in current.subject.material then current.subject.material[DeliveryModel] else "";
    if a != "" then a else if b != "" then b else HOSTED_RUNTIME_SERVICE
  }

  function DeliveryGuard(model: string, state: State, requested: State): Check {
    var known := Authoritative(state) || state == Blocked || state == RollbackRequired;
    :- Need(known, ValueError);
    :- Need(Authoritative(requested) || requested == RollbackRequired, ValueError);
    :- Need(model != PACKAGE_OR_PLUGIN || (state != RollbackRequired && requested != RollbackRequired), PermissionError);
    :- Need(model != PACKAGE_OR_PLUGIN || (!RuntimeState(state) && !RuntimeState(requested)), PermissionError);
    Need(model == PACKAGE_OR_PLUGIN || model == HYBRID || (!PackageState(state) && !PackageState(requested)), PermissionError)
  }

  predicate AliasAgrees(alias: Option<string>, canonical: Option<string>) {
    alias.None? || alias == canonical
  }

  function SubjectGuard(env: Environment, current: Record, next: Record, decision: Decision): Check {
    var before := SubjectOf(current);
    var after := SubjectOf(next);
    :- Need(env.subjectValid(before) && env.subjectValid(after), ValueError);
    :- RiskGuard(current.risk, next);
    :- Need(EpochStepOk(env, current, next), PermissionError);
    :- Need(before.material == after.material || BindingDecision(decision), PermissionError);
    :- Need(AliasAgrees(next.subject.baseSha, Lookup(after.material, ProtectedBase)), PermissionError);
    :- Need(AliasAgrees(next.subject.headSha, OrText(Lookup(after.material, MergedMain), Lookup(after.material, PrHead))),
            PermissionError);
    :- Need(AliasAgrees(next.subject.diffHash, Lookup(after.material, ReviewedDiff)), PermissionError);
    Need(before.version == after.version, PermissionError)
  }

  /** No field outside SUBJECT_MUTATION_FIELDS differs. */
  predicate OnlySubjectFieldsChanged(current: Record, next: Record) {
    && next.caseId == current.caseId && next.risk == current.risk && next.domains == current.domains
    && next.scheduling == current.scheduling && next.other == current.other
    && next.position.lastCompleted == current.position.lastCompleted
    && next.position.closureClass == current.position.closureClass
  }

  /** No field outside LIFECYCLE_MUTATION_FIELDS and the store's own markers differs. */
  predicate OnlyLifecycleFieldsChanged(current: Record, next: Record) {
    && next.caseId == current.caseId && next.domains == current.domains && next.other == current.other
    && next.subject == current.subject && next.evidence.historical == current.evidence.historical
    && next.authority.binding == current.authority.binding
  }

  function AllReferences(refs: References): set<string> {
    set t, r | t in refs && r in refs[t] :: r
  }

  function FieldGuard(current: Record, next: Record, decision: Decision): Check {
    if BindingDecision(decision) then
      var changes := MaterialChanges(SubjectOf(current), SubjectOf(next));
      :- Need(OnlySubjectFieldsChanged(current, next), PermissionError);
      :- Need(changes == {} || next.evidence.current == map[], PermissionError);
      :- Need(changes == {} || (next.subject.mutations != []
                && next.subject.mutations[|next.subject.mutations| - 1].changed == changes), PermissionError);
      :- Need(changes != {} || next == current, PermissionError);
      Need(AllReferences(current.evidence.current) <= AllReferences(next.evidence.historical), PermissionError)
    else
      Need(OnlyLifecycleFieldsChanged(current, next), PermissionError)
  }

  /** The state that order checks start from: a blocked case counts as its resume state. */
  function Logical(p: Position): State {
    if p.state == Blocked then (if p.resume.Some? then p.resume.value else Unknown("")) else p.state
  }

  function OrderGuard(current: Position, next: Position, requested: State, decision: Decision): Check {
    var binding := BindingDecision(decision);
    var state := next.state;
    :- Need(!binding || state == current.state || state == Blocked || state == RollbackRequired, PermissionError);
    if Authoritative(state) then
      :- Need(next.lastCompleted == Some(state), PermissionError);
      :- Need(binding || decision == Proceed, PermissionError);
      :- Need(!binding || requested == state || requested == current.state, PermissionError);
      Need(binding || requested in AllowedTransitions(Logical(current)), PermissionError)
    else if state == RollbackRequired then
      Need(decision == RollbackDecision || decision == SubjectMutationInvalidated, PermissionError)
    else
      :- Need(binding || decision == BlockedDecision, PermissionError);
      var resume := if next.resume.Some? then next.resume.value else Unknown("");
      :- Need(Ordered(resume), PermissionError);
      :- Need(Ordered(Logical(current)), PermissionError);
      Need(Order(resume) <= Order(Logical(current)), PermissionError)
  }

  function ClosureGuard(model: string, current: State, next: Position, required: set<string>): Check {
    if Terminal(next.state) then
      :- Need(next.finalState == Some(next.state), PermissionError);
      if next.state == ResolvedNoCode then
        :- Need(next.closureClass == Some("RESOLVED_NO_CODE"), PermissionError);
        Need(NO_CODE_EVIDENCE in required, PermissionError)
      else
        :- Need(current != PostDeployVerified || next.closureClass == Some("CODE_FIX"), PermissionError);
        :- Need(current != ConsumerValidationPass || next.closureClass == Some("PACKAGE_RELEASE"), PermissionError);
        :- Need(model != HYBRID || current == PostDeployVerified || current == RollbackRequired, PermissionError);
        Need(current != RollbackRequired || next.closureClass == Some("ROLLBACK_CLOSURE"), PermissionError)
    else
      Need(next.finalState.None? && Blank(next.closureClass), PermissionError)
  }

  // ---- Evidence and authorization of a protected transition ----

  /** _validate_accepted_evidence reports no error. */
  predicate EvidenceOk(env: Environment, records: multiset<Evidence>, caseId: string, subject: Subject,
                       required: set<string>, accepted: set<string>)
  {
    && (forall r :: r in records ==> r.evidenceId != "" && records[r] == 1 && r.caseId == caseId)
    && (forall r, r' :: r in records && r' in records && r.evidenceId == r'.evidenceId ==> r == r')
    && (forall id :: id in accepted ==> exists r :: r in records && r.evidenceId == id)
    && (forall r :: r in records && r.evidenceId in accepted ==>
          env.evidenceValid(r, subject) && (required == {} || r.kind in required))
  }

  function EvidenceGuard(env: Environment, req: Request, subject: Subject): Check {
    var valid := EvidenceOk(env, multiset(req.records), req.caseId, subject, req.required, SetOf(req.accepted));
    Need(Distinct(req.accepted) && valid, PermissionError)
  }

  function ClaimOf(env: Environment, caseId: string, version: int, currentHash: Digest, nextHash: Digest,
                   requested: State, decision: Decision, actor: string, key: string, subject: Subject,
                   required: set<string>, accepted: set<string>, rejected: set<string>,
                   policyHash: Option<string>, toolchainHash: Option<string>): Claim
  {
    Claim(caseId, version, currentHash, nextHash, requested, decision, actor, key,
          env.Fingerprint(subject), subject.epoch, required, accepted, rejected, policyHash, toolchainHash,
          env.controller.controllerId, env.controller.controllerType, env.controller.source, env.controller.mechanism)
  }

  predicate EvidenceIdPrefixed(id: string) { "ev-" <= id }

  /** _validate_transition_authorization reports no error; `expected` is the claim the transition requires. */
  predicate AuthorizationOk(env: Environment, auth: Option<Authorization>, expected: Claim, subject: Subject) {
    && (ProtectedState(expected.requested) ==> expected.accepted != {})
    && auth.Some?
    && env.authorizationValid(auth.value, subject)
    && env.hostAccepted
    && auth.value.kind == TRANSITION_AUTHORIZATION_TYPE
    && EvidenceIdPrefixed(auth.value.evidenceId)
    && auth.value.commitment != "" && auth.value.occurredAt != ""
    && auth.value.claim == expected
  }
}
