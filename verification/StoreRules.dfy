/** What a transition must be for the store to accept it, by the decision it carries; and what it then writes. */
module StoreRules {
  import opened Basics
  import opened States
  import opened Records
  import opened Events
  import opened Guards
  import opened LedgerSteps
  import opened VerifiedEvents

  // ---- The record written ----

  /** The record as it is stored: marked as the store's own, with its fingerprint, and naming the state it completes. */
  predicate StoredAs(env: Environment, given: Record, stored: Record) {
    && stored.caseId == given.caseId && stored.risk == given.risk && stored.domains == given.domains
    && stored.evidence == given.evidence && stored.scheduling == given.scheduling && stored.other == given.other
    && stored.authority == given.authority.(authoritative := true, store := Some("controller-owned-sqlite"))
    && stored.subject == given.subject.(fingerprint := Some(env.hash(SubjectValue(SubjectOf(given)))))
    && stored.position == given.position.(lastCompleted := stored.position.lastCompleted)
    && stored.position.lastCompleted == (if Ordered(given.position.state) || given.position.state == ResolvedNoCode
                                         then Some(given.position.state) else given.position.lastCompleted)
  }

  lemma NormalizedStored(env: Environment, given: Record)
    ensures StoredAs(env, given, Normalize(env, given))
  {
  }

  // ---- Risk and domains ----

  const KNOWN_LEVELS: set<RiskLevel> := {R0, R1, R2, R3, R4}

  predicate LevelKnown(l: Option<RiskLevel>) { l.Some? ==> l.value in KNOWN_LEVELS }

  /** The class that goes with a level. */
  predicate Classed(l: RiskLevel, c: RiskClass) {
    (c == Low && (l == R0 || l == R1)) || (c == Medium && l == R2) || (c == High && l == R3) || (c == Critical && l == R4)
  }

  /** The levels below this one. */
  function Below(l: RiskLevel): set<RiskLevel> {
    match l
    case R0 => {} case R1 => {R0} case R2 => {R0, R1} case R3 => {R0, R1, R2} case R4 => {R0, R1, R2, R3}
    case OtherRisk(_) => {}
  }

  predicate DomainsKnown(domains: Option<seq<string>>) {
    domains.Some? ==>
      var upper := UpperAll(domains.value);
      && (forall i, j :: 0 <= i < j < |upper| ==> upper[i] != upper[j])
      && (forall i :: 0 <= i < |upper| ==>
            upper[i] in {"GENERAL", "DATABASE", "AUTH_TENANT", "FINANCIAL", "ZATCA", "PROVIDER", "CONCURRENCY", "SECURITY"})
  }

  predicate OnlyGeneral(domains: Option<seq<string>>) {
    domains.Some? ==> forall i :: 0 <= i < |domains.value| ==> UpperAll(domains.value)[i] == "GENERAL"
  }

  /** The levels are known and not lowered, a class is the one of its level, a case with a domain of its own is at R3 or
      R4, and no level its history records is above its own. */
  predicate RiskFits(before: RiskProfile, after: RiskProfile, domains: Option<seq<string>>) {
    && DomainsKnown(domains) && LevelKnown(before.level) && LevelKnown(after.level)
    && (before.level.Some? && after.level.Some? ==> after.level.value !in Below(before.level.value))
    && (after.cls.Some? ==> after.level.Some? && Classed(after.level.value, after.cls.value))
    && (after.level.Some? && !OnlyGeneral(domains) ==> after.level.value == R3 || after.level.value == R4)
    && (forall i :: 0 <= i < |after.history| ==> LevelKnown(after.history[i].level))
    && (after.level.Some? ==> forall i :: 0 <= i < |after.history| && after.history[i].level.Some? ==>
          after.level.value !in Below(after.history[i].level.value))
  }

  lemma LevelFacts(a: RiskLevel, b: RiskLevel)
    ensures a in KNOWN_LEVELS && b in KNOWN_LEVELS ==> (LevelOrder(a) <= LevelOrder(b) <==> b !in Below(a))
    ensures KnownLevel(Some(a)) <==> LevelKnown(Some(a))
    ensures a in KNOWN_LEVELS ==> (LevelOrder(a) >= LevelOrder(R3) <==> a == R3 || a == R4)
  {
  }

  lemma ClassFacts(l: RiskLevel, c: RiskClass)
    ensures l in KNOWN_LEVELS ==> (!c.OtherClass? && ClassOf(l) == c <==> Classed(l, c))
  {
  }

  lemma DomainFacts(domains: Option<seq<string>>)
    ensures var upper := if domains.Some? then UpperAll(domains.value) else [];
      && (Distinct(upper) && SetOf(upper) <= VALID_DOMAINS <==> DomainsKnown(domains))
      && (SetOf(upper) <= {"GENERAL"} <==> OnlyGeneral(domains))
  {
    var upper := if domains.Some? then UpperAll(domains.value) else [];
    assert forall i :: 0 <= i < |upper| ==> upper[i] in SetOf(upper);
  }

  lemma HistoryFacts(risk: RiskProfile)
    requires LevelKnown(risk.level) && forall i :: 0 <= i < |risk.history| ==> LevelKnown(risk.history[i].level)
    ensures DominatesHistory(risk) <==>
      (risk.level.Some? ==> forall i :: 0 <= i < |risk.history| && risk.history[i].level.Some? ==>
        risk.level.value !in Below(risk.history[i].level.value))
  {
    if risk.level.Some? {
      forall i | 0 <= i < |risk.history| && risk.history[i].level.Some?
        ensures LevelOrder(risk.history[i].level.value) <= LevelOrder(risk.level.value) <==> risk.level.value !in Below(risk.history[i].level.value)
      {
        LevelFacts(risk.history[i].level.value, risk.level.value);
      }
    }
  }

  lemma KnownFacts(risk: RiskProfile)
    ensures KnownLevel(risk.level) <==> LevelKnown(risk.level)
    ensures (forall i :: 0 <= i < |risk.history| ==> KnownLevel(risk.history[i].level))
       <==> forall i :: 0 <= i < |risk.history| ==> LevelKnown(risk.history[i].level)
  {
    forall l: Option<RiskLevel> ensures KnownLevel(l) <==> LevelKnown(l) {
      if l.Some? { LevelFacts(l.value, l.value); }
    }
  }

  /** What the guard asks, check by check. */
  lemma RiskParts(before: RiskProfile, next: Record)
    ensures var after := next.risk; var upper := if next.domains.Some? then UpperAll(next.domains.value) else [];
      RiskGuard(before, next).Pass? <==>
      && Distinct(upper) && SetOf(upper) <= VALID_DOMAINS && KnownLevel(before.level) && KnownLevel(after.level)
      && (before.level.Some? && after.level.Some? ==> LevelOrder(before.level.value) <= LevelOrder(after.level.value))
      && (after.cls.Some? ==> after.level.Some? && !after.cls.value.OtherClass? && ClassOf(after.level.value) == after.cls.value)
      && (after.level.Some? && !(SetOf(upper) <= {"GENERAL"}) ==> LevelOrder(after.level.value) >= LevelOrder(R3))
      && (forall i :: 0 <= i < |after.history| ==> KnownLevel(after.history[i].level)) && DominatesHistory(after)
  {
  }

  lemma RiskIff(before: RiskProfile, next: Record)
    ensures RiskGuard(before, next).Pass? <==> RiskFits(before, next.risk, next.domains)
  {
    var after := next.risk;
    RiskParts(before, next);
    DomainFacts(next.domains);
    KnownFacts(before);
    KnownFacts(after);
    if LevelKnown(after.level) && LevelKnown(before.level) && forall i :: 0 <= i < |after.history| ==> LevelKnown(after.history[i].level) {
      HistoryFacts(after);
      if after.level.Some? {
        LevelFacts(after.level.value, after.level.value);
        if before.level.Some? { LevelFacts(before.level.value, after.level.value); }
        if after.cls.Some? { ClassFacts(after.level.value, after.cls.value); }
      }
    }
  }

  // ---- The subject ----

  predicate AliasFits(alias: Option<string>, named: Option<string>) { alias == None || alias == named }

  /** The head of a subject: its merged revision, or the head of its pull request. */
  function HeadOf(m: Material): Option<string> {
    if MergedMain in m && m[MergedMain] != "" then Some(m[MergedMain]) else if PrHead in m then Some(m[PrHead]) else None
  }

  /** Both subjects are valid, the aliases name what the subject names, its version stays, and its epoch counts. */
  predicate SubjectFits(env: Environment, before: Record, after: Record) {
    var old_, new_ := SubjectOf(before), SubjectOf(after);
    && env.subjectValid(old_) && env.subjectValid(new_) && new_.version == old_.version
    && AliasesFit(after) && CountsEpoch(env, before, after)
  }

  predicate Binds(decision: Decision) { decision in {SubjectBound, ArtifactBound, SubjectMutationInvalidated} }

  lemma BindsIff(decision: Decision)
    ensures BindingDecision(decision) <==> Binds(decision)
  {
  }

  /** The aliases name what the subject names. */
  predicate AliasesFit(r: Record) {
    var m := SubjectOf(r).material;
    && AliasFits(r.subject.baseSha, Lookup(m, ProtectedBase)) && AliasFits(r.subject.headSha, HeadOf(m))
    && AliasFits(r.subject.diffHash, Lookup(m, ReviewedDiff))
  }

  lemma AliasesIff(r: Record)
    ensures var m := SubjectOf(r).material;
      AliasesFit(r) <==>
      && AliasAgrees(r.subject.baseSha, Lookup(m, ProtectedBase))
      && AliasAgrees(r.subject.headSha, OrText(Lookup(m, MergedMain), Lookup(m, PrHead)))
      && AliasAgrees(r.subject.diffHash, Lookup(m, ReviewedDiff))
  {
    HeadIs(SubjectOf(r).material);
  }

  lemma HeadIs(m: Material)
    ensures OrText(Lookup(m, MergedMain), Lookup(m, PrHead)) == HeadOf(m)
  {
  }

  lemma SubjectParts(env: Environment, before: Record, after: Record, decision: Decision)
    ensures var old_, new_ := SubjectOf(before), SubjectOf(after);
      SubjectGuard(env, before, after, decision).Pass? <==>
      && env.subjectValid(old_) && env.subjectValid(new_) && RiskGuard(before.risk, after).Pass? && EpochStepOk(env, before, after)
      && (old_.material == new_.material || BindingDecision(decision))
      && AliasAgrees(after.subject.baseSha, Lookup(new_.material, ProtectedBase))
      && AliasAgrees(after.subject.headSha, OrText(Lookup(new_.material, MergedMain), Lookup(new_.material, PrHead)))
      && AliasAgrees(after.subject.diffHash, Lookup(new_.material, ReviewedDiff))
      && old_.version == new_.version
  {
  }

  lemma SubjectIff(env: Environment, before: Record, after: Record, decision: Decision)
    ensures SubjectGuard(env, before, after, decision).Pass? <==>
      && SubjectFits(env, before, after) && RiskFits(before.risk, after.risk, after.domains)
      && (SubjectOf(before).material == SubjectOf(after).material || Binds(decision))
  {
    SubjectParts(env, before, after, decision);
    RiskIff(before.risk, after);
    CountsEpochIff(env, before, after);
    BindsIff(decision);
    AliasesIff(after);
  }

  // ---- The fields that may differ ----

  /** A binding that changes nothing of the subject changes nothing at all; one that does leaves the rest of the case, says
      what it changed, and archives what was current. Every other decision leaves the subject and the archive alone. */
  predicate FieldsFit(before: Record, after: Record, decision: Decision) {
    if Binds(decision) then
      && (forall t, id :: t in before.evidence.current && id in before.evidence.current[t] ==>
            exists u :: u in after.evidence.historical && id in after.evidence.historical[u])
      && if SubjectOf(before).material == SubjectOf(after).material then after == before
         else
           && after.caseId == before.caseId && after.risk == before.risk && after.domains == before.domains
           && after.scheduling == before.scheduling && after.other == before.other
           && after.position.lastCompleted == before.position.lastCompleted && after.position.closureClass == before.position.closureClass
           && after.evidence.current == map[] && after.subject.mutations != []
           && forall f :: f in after.subject.mutations[|after.subject.mutations| - 1].changed
                <==> Lookup(SubjectOf(before).material, f) != Lookup(SubjectOf(after).material, f)
    else
      && after.caseId == before.caseId && after.domains == before.domains && after.other == before.other
      && after.subject == before.subject && after.evidence.historical == before.evidence.historical
      && after.authority.binding == before.authority.binding
  }

  lemma ArchivedIff(current: References, historical: References)
    ensures AllReferences(current) <= AllReferences(historical) <==>
      forall t, id :: t in current && id in current[t] ==> exists u :: u in historical && id in historical[u]
  {
    if AllReferences(current) <= AllReferences(historical) {
      forall t, id | t in current && id in current[t] ensures exists u :: u in historical && id in historical[u] {
        assert id in AllReferences(current);
        assert id in AllReferences(historical);
      }
    }
  }

  lemma SameChanges(before: Subject, after: Subject, changed: set<MaterialField>)
    ensures changed == MaterialChanges(before, after) <==> forall f :: f in changed <==> Lookup(before.material, f) != Lookup(after.material, f)
  {
    forall f ensures f in MaterialChanges(before, after) <==> Lookup(before.material, f) != Lookup(after.material, f) {
      ChangesAre(before, after, f);
    }
  }

  lemma FieldsIff(before: Record, after: Record, decision: Decision)
    ensures FieldGuard(before, after, decision).Pass? <==> FieldsFit(before, after, decision)
  {
    BindsIff(decision);
    ArchivedIff(before.evidence.current, after.evidence.historical);
    if after.subject.mutations != [] {
      SameChanges(SubjectOf(before), SubjectOf(after), after.subject.mutations[|after.subject.mutations| - 1].changed);
    }
  }

  // ---- The order of states ----

  /** A PROCEED completes a state and asks for one next to where the case stood; a binding stays, blocks or rolls back; a
      block resumes no later than where the case stood. */
  predicate OrderFits(before: Position, after: Position, requested: State, decision: Decision) {
    if Ordered(after.state) || after.state == ResolvedNoCode then
      && after.lastCompleted == Some(after.state)
      && if Binds(decision) then after.state == before.state == requested
         else decision == Proceed && requested in AllowedTransitions(Stood(before))
    else if after.state == RollbackRequired then decision == RollbackDecision || decision == SubjectMutationInvalidated
    else
      && (decision == BlockedDecision || (Binds(decision) && after.state in {before.state, Blocked}))
      && after.resume.Some? && 0 <= Order(after.resume.value) <= Order(Stood(before))
  }

  lemma OrderIff(before: Position, after: Position, requested: State, decision: Decision)
    ensures OrderGuard(before, after, requested, decision).Pass? <==> OrderFits(before, after, requested, decision)
  {
    BindsIff(decision);
  }

  // ---- Delivery and closure ----

  /** What the case delivers: the new record says so, or else the old one. */
  function Delivers(before: Record, after: Record): Option<string> {
    if !Blank(Lookup(after.subject.material, DeliveryModel)) then Lookup(after.subject.material, DeliveryModel)
    else Lookup(before.subject.material, DeliveryModel)
  }

  const RELEASE_LANE: set<State> := {StagingPass, ReadyForOwnerRelease, ProductionReleased, PostDeployVerified}
  const PACKAGE_LANE: set<State> := {PackageReleased, ReleaseArtifactVerified, ConsumerValidationPass}

  /** The target is on a lane of this delivery; a package takes no rollback. */
  predicate OnLane(delivers: Option<string>, target: State) {
    && (delivers == Some("PACKAGE_OR_PLUGIN") ==> target !in RELEASE_LANE && target != RollbackRequired)
    && (target in PACKAGE_LANE ==> delivers == Some("PACKAGE_OR_PLUGIN") || delivers == Some("HYBRID"))
  }

  predicate DeliveryFits(delivers: Option<string>, state: State, requested: State) {
    && (Authoritative(state) || state == Blocked || state == RollbackRequired)
    && (Authoritative(requested) || requested == RollbackRequired) && OnLane(delivers, state) && OnLane(delivers, requested)
  }

  lemma LaneIs(delivers: Option<string>, s: State)
    ensures OnLane(delivers, s) <==>
      && (delivers == Some("PACKAGE_OR_PLUGIN") ==> !RuntimeState(s) && s != RollbackRequired)
      && (delivers != Some("PACKAGE_OR_PLUGIN") && delivers != Some("HYBRID") ==> !PackageState(s))
  {
  }

  predicate IsModel(model: string, delivers: Option<string>) {
    (model == PACKAGE_OR_PLUGIN <==> delivers == Some("PACKAGE_OR_PLUGIN")) && (model == HYBRID <==> delivers == Some("HYBRID"))
  }

  lemma DeliveryModelIs(before: Record, after: Record)
    ensures IsModel(DeliveryModelOf(after, before), Delivers(before, after))
  {
  }

  lemma DeliveryParts(model: string, state: State, requested: State)
    ensures DeliveryGuard(model, state, requested).Pass? <==>
      && (Authoritative(state) || state == Blocked || state == RollbackRequired)
      && (Authoritative(requested) || requested == RollbackRequired)
      && (model == PACKAGE_OR_PLUGIN ==>
            state != RollbackRequired && requested != RollbackRequired && !RuntimeState(state) && !RuntimeState(requested))
      && (model != PACKAGE_OR_PLUGIN && model != HYBRID ==> !PackageState(state) && !PackageState(requested))
  {
  }

  lemma DeliveryIff(model: string, delivers: Option<string>, state: State, requested: State)
    requires IsModel(model, delivers)
    ensures DeliveryGuard(model, state, requested).Pass? <==> DeliveryFits(delivers, state, requested)
  {
    DeliveryParts(model, state, requested);
    LaneIs(delivers, state);
    LaneIs(delivers, requested);
  }

  /** A record names the end of its case as it must: the class of a close out of each of the three states that lead to it,
      no other way for a hybrid case, the class and the evidence of a resolution without code, and no end otherwise. */
  predicate EndFits(delivers: Option<string>, before: State, after: Position, required: set<string>) {
    && (after.state == Closed ==>
          && after.finalState == Some(Closed)
          && (before == PostDeployVerified ==> after.closureClass == Some("CODE_FIX"))
          && (before == ConsumerValidationPass ==> after.closureClass == Some("PACKAGE_RELEASE"))
          && (before == RollbackRequired ==> after.closureClass == Some("ROLLBACK_CLOSURE"))
          && (delivers == Some("HYBRID") ==> before == PostDeployVerified || before == RollbackRequired))
    && (after.state == ResolvedNoCode ==>
          after.finalState == Some(ResolvedNoCode) && after.closureClass == Some("RESOLVED_NO_CODE") && "RESOLVED_NO_CODE_PROVEN" in required)
    && (after.state != Closed && after.state != ResolvedNoCode ==>
          after.finalState == None && (after.closureClass == None || after.closureClass == Some("")))
  }

  lemma EndIff(model: string, delivers: Option<string>, before: State, after: Position, required: set<string>)
    requires IsModel(model, delivers)
    ensures ClosureGuard(model, before, after, required).Pass? <==> EndFits(delivers, before, after, required)
  {
  }

  // ---- Evidence and signature ----

  /** Each record offered is one of this case under a name of its own; each accepted name, given once, has its record; and
      what is accepted is valid for the subject and of a required type. */
  predicate EvidenceFits(env: Environment, req: Request, subject: Subject) {
    && (forall i, j :: 0 <= i < j < |req.accepted| ==> req.accepted[i] != req.accepted[j])
    && (forall i :: 0 <= i < |req.records| ==> req.records[i].caseId == req.caseId && req.records[i].evidenceId != "")
    && (forall i, j :: 0 <= i < j < |req.records| ==> req.records[i].evidenceId != req.records[j].evidenceId)
    && (forall id :: id in req.accepted ==> exists i :: 0 <= i < |req.records| && req.records[i].evidenceId == id)
    && (forall i :: 0 <= i < |req.records| && req.records[i].evidenceId in req.accepted ==>
          env.evidenceValid(req.records[i], subject) && (req.required != {} ==> req.records[i].kind in req.required))
  }

  lemma {:induction false} TwiceInMultiset<T>(xs: seq<T>, i: nat, j: nat)
    requires i < j < |xs| && xs[i] == xs[j]
    ensures multiset(xs)[xs[i]] >= 2
  {
    assert xs == xs[..j] + xs[j..];
    assert xs[i] in xs[..j] && xs[j] in xs[j..];
    assert multiset(xs) == multiset(xs[..j]) + multiset(xs[j..]);
  }

  lemma {:induction false} OnceInMultiset<T>(xs: seq<T>, x: T)
    requires x in xs && forall i, j :: 0 <= i < j < |xs| ==> xs[i] != xs[j]
    ensures multiset(xs)[x] == 1
  {
    var n := |xs| - 1;
    assert xs == xs[..n] + [xs[n]];
    if x != xs[n] {
      OnceInMultiset(xs[..n], x);
    } else {
      assert x !in xs[..n];
    }
  }

  /** No two records share a name exactly if each is there once and names its record alone. */
  lemma NamesApart(records: seq<Evidence>)
    ensures (forall i, j :: 0 <= i < j < |records| ==> records[i].evidenceId != records[j].evidenceId) <==>
      && (forall r :: r in multiset(records) ==> multiset(records)[r] == 1)
      && (forall r, s :: r in multiset(records) && s in multiset(records) && r.evidenceId == s.evidenceId ==> r == s)
  {
    if forall i, j :: 0 <= i < j < |records| ==> records[i].evidenceId != records[j].evidenceId {
      forall r | r in multiset(records) ensures multiset(records)[r] == 1 {
        OnceInMultiset(records, r);
      }
    } else {
      var i, j :| 0 <= i < j < |records| && records[i].evidenceId == records[j].evidenceId;
      assert records[i] in multiset(records) && records[j] in multiset(records);
      if records[i] == records[j] {
        TwiceInMultiset(records, i, j);
      }
    }
  }

  /** The same evidence as a set of records. */
  predicate RecordsFit(env: Environment, req: Request, subject: Subject) {
    && (forall r :: r in req.records ==> r.caseId == req.caseId && r.evidenceId != "")
    && (forall id :: id in req.accepted ==> exists r :: r in req.records && r.evidenceId == id)
    && (forall r :: r in req.records && r.evidenceId in req.accepted ==>
          env.evidenceValid(r, subject) && (req.required != {} ==> r.kind in req.required))
  }

  lemma RecordsIff(env: Environment, req: Request, subject: Subject)
    ensures RecordsFit(env, req, subject) <==>
      && (forall i :: 0 <= i < |req.records| ==> req.records[i].caseId == req.caseId && req.records[i].evidenceId != "")
      && (forall id :: id in req.accepted ==> exists i :: 0 <= i < |req.records| && req.records[i].evidenceId == id)
      && (forall i :: 0 <= i < |req.records| && req.records[i].evidenceId in req.accepted ==>
            env.evidenceValid(req.records[i], subject) && (req.required != {} ==> req.records[i].kind in req.required))
  {
    forall id | id in req.accepted
      ensures (exists r :: r in req.records && r.evidenceId == id) <==> exists i :: 0 <= i < |req.records| && req.records[i].evidenceId == id
    {
      if r :| r in req.records && r.evidenceId == id {
        var i :| 0 <= i < |req.records| && req.records[i] == r;
      }
    }
  }

  lemma EvidenceParts(env: Environment, req: Request, subject: Subject)
    ensures EvidenceGuard(env, req, subject).Pass? <==>
      && Distinct(req.accepted) && RecordsFit(env, req, subject)
      && (forall r :: r in multiset(req.records) ==> multiset(req.records)[r] == 1)
      && (forall r, s :: r in multiset(req.records) && s in multiset(req.records) && r.evidenceId == s.evidenceId ==> r == s)
  {
    assert forall r :: r in multiset(req.records) <==> r in req.records;
    assert forall id :: id in SetOf(req.accepted) <==> id in req.accepted;
  }

  lemma EvidenceIff(env: Environment, req: Request, subject: Subject)
    ensures EvidenceGuard(env, req, subject).Pass? <==> EvidenceFits(env, req, subject)
  {
    NamesApart(req.records);
    RecordsIff(env, req, subject);
    EvidenceParts(env, req, subject);
  }

  /** The key of the event: the one given, or the one derived from the transition. */
  function KeyGiven(env: Environment, req: Request, stored: Record): string {
    if req.key.Some? && req.key.value != "" then req.key.value
    else env.transitionKey(req.caseId, req.expectedVersion, req.requested, env.hash(RecordValue(stored)))
  }

  /** What was named in the call, or else what the record names. */
  function Named(given: Option<string>, stored: Record, field: MaterialField): Option<string> {
    if given.Some? && given.value != "" then given else Lookup(stored.subject.material, field)
  }

  /** The signature names this transition in full. */
  predicate SignatureFits(env: Environment, row: CaseRow, req: Request, stored: Record) {
    req.authorization.Some? &&
    var a := req.authorization.value; var subject := SubjectOf(stored);
    && env.hostAccepted && env.authorizationValid(a, subject)
    && a.kind == "LIFECYCLE_TRANSITION_AUTHORIZATION" && |a.evidenceId| >= 3 && a.evidenceId[..3] == "ev-"
    && a.commitment != "" && a.occurredAt != ""
    && a.claim.caseId == req.caseId && a.claim.expectedVersion == req.expectedVersion
    && a.claim.key == KeyGiven(env, req, stored) && a.claim.actor == env.controller.controllerId
    && a.claim.currentRecordHash == row.currentHash && a.claim.nextRecordHash == env.hash(RecordValue(stored))
    && a.claim.requested == req.requested && a.claim.decision == req.decision
    && a.claim.fingerprint == env.hash(SubjectValue(subject)) && a.claim.epoch == subject.epoch
    && a.claim.required == req.required && a.claim.accepted == SetOf(req.accepted) && a.claim.rejected == req.rejected
    && a.claim.policyHash == Named(req.policyHash, stored, PolicyBundle)
    && a.claim.toolchainHash == Named(req.toolchainHash, stored, Toolchain)
    && a.claim.controllerId == env.controller.controllerId && a.claim.controllerType == env.controller.controllerType
    && a.claim.source == env.controller.source && a.claim.mechanism == env.controller.mechanism
    && (req.requested in SIGNED_STATES ==> req.accepted != [])
  }

  lemma SignatureIff(env: Environment, row: CaseRow, req: Request)
    ensures var stored := Normalize(env, req.state);
      AuthorizationOk(env, req.authorization, ExpectedClaim(env, row, req), SubjectOf(stored)) <==> SignatureFits(env, row, req, stored)
  {
    SignedStates(req.requested);
    assert req.accepted != [] ==> req.accepted[0] in SetOf(req.accepted);
    if req.authorization.Some? {
      Prefixed(req.authorization.value.evidenceId);
    }
  }

  predicate ProtectionFits(env: Environment, row: CaseRow, req: Request, stored: Record) {
    stored.position.state in SIGNED_STATES ==>
      EvidenceFits(env, req, SubjectOf(stored)) && SignatureFits(env, row, req, stored)
  }

  lemma ProtectionIff(env: Environment, row: CaseRow, req: Request)
    ensures ProtectionGuard(env, row, req).Pass? <==> ProtectionFits(env, row, req, Normalize(env, req.state))
  {
    SignedStates(Normalize(env, req.state).position.state);
    EvidenceIff(env, req, SubjectOf(Normalize(env, req.state)));
    SignatureIff(env, row, req);
  }

  // ---- The whole transition ----

  /** The case as its caller reads it, with the markers of its row. */
  predicate ReadAs(row: CaseRow, current: Record) {
    && current == row.state.(authority := current.authority)
    && current.authority == Authority(true, Some("controller-owned-sqlite"), Some(row.version), Some(row.currentHash), row.state.authority.binding)
  }

  /** Everything a transition must be. */
  predicate Fits(env: Environment, row: CaseRow, req: Request, before: Record, after: Record) {
    && (req.decision == Proceed || req.decision == BlockedDecision || req.decision == RollbackDecision || Binds(req.decision))
    && DeliveryFits(Delivers(before, after), after.position.state, req.requested)
    && SubjectFits(env, before, after) && RiskFits(before.risk, after.risk, after.domains)
    && FieldsFit(before, after, req.decision) && OrderFits(before.position, after.position, req.requested, req.decision)
    && EndFits(Delivers(before, after), before.position.state, after.position, req.required)
    && ProtectionFits(env, row, req, after)
  }

  lemma GuardSplits(env: Environment, row: CaseRow, req: Request)
    ensures var current, next := Snapshot(row), Normalize(env, req.state); var model := DeliveryModelOf(next, current);
      TransitionGuard(env, row, req).Pass? <==>
      && DeliveryGuard(model, next.position.state, req.requested).Pass? && TransitionDecision(req.decision)
      && SubjectGuard(env, current, next, req.decision).Pass? && FieldGuard(current, next, req.decision).Pass?
      && OrderGuard(current.position, next.position, req.requested, req.decision).Pass?
      && ClosureGuard(model, current.position.state, next.position, req.required).Pass? && ProtectionGuard(env, row, req).Pass?
  {
  }

  lemma UnchangedMaterial(before: Record, after: Record, decision: Decision)
    requires FieldsFit(before, after, decision) && !Binds(decision)
    ensures SubjectOf(before).material == SubjectOf(after).material
  {
  }

  lemma GuardIff(env: Environment, row: CaseRow, req: Request)
    ensures TransitionGuard(env, row, req).Pass? <==> Fits(env, row, req, Snapshot(row), Normalize(env, req.state))
  {
    var before, after := Snapshot(row), Normalize(env, req.state);
    var model := DeliveryModelOf(after, before);
    GuardSplits(env, row, req);
    DeliveryModelIs(before, after);
    DeliveryIff(model, Delivers(before, after), after.position.state, req.requested);
    BindsIff(req.decision);
    SubjectIff(env, before, after, req.decision);
    FieldsIff(before, after, req.decision);
    if FieldsFit(before, after, req.decision) && !Binds(req.decision) {
      UnchangedMaterial(before, after, req.decision);
    }
    OrderIff(before.position, after.position, req.requested, req.decision);
    EndIff(model, Delivers(before, after), before.position.state, after.position, req.required);
    ProtectionIff(env, row, req);
  }
}
