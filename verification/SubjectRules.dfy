/** What a change of the subject does to a record, field by field. */
module SubjectRules {
  import opened Basics
  import opened States
  import opened Records
  import opened Events
  import opened Guards
  import opened SubjectUpdates
  import opened VerifiedEvents
  import opened EvidenceTrail

  /** How a record names a field of its subject: by the field itself, or by the legacy alias where that is absent; the alias of
      the head stands only for a subject that names no merged revision either. */
  function FieldNamed(r: Record, f: MaterialField): Option<string> {
    if f in r.subject.material then Some(r.subject.material[f])
    else match f
      case ProtectedBase => r.subject.baseSha
      case ReviewedDiff => r.subject.diffHash
      case PrHead => if MergedMain in r.subject.material then None else r.subject.headSha
      case _ => None
  }

  /** subject_from_record */
  lemma SubjectNames(r: Record, f: MaterialField)
    ensures Lookup(SubjectOf(r).material, f) == FieldNamed(r, f)
    ensures SubjectOf(r).epoch == r.subject.epoch && SubjectOf(r).version == (if r.subject.version == 0 then 1 else r.subject.version)
  {
  }

  /** Each field is what the update says, cleared where it says nothing, and otherwise as it was. */
  predicate MaterialUpdated(before: Material, updates: Updates, after: Material) {
    forall f :: Lookup(after, f) == if f in updates then updates[f] else Lookup(before, f)
  }

  /** The aliases follow the fields they stand for; a merged revision comes before the head of the pull request. */
  predicate AliasesFollow(before: SubjectFields, updates: Updates, after: SubjectFields) {
    var merged := MergedMain in updates && updates[MergedMain] != None && updates[MergedMain] != Some("");
    && after.baseSha == (if ProtectedBase in updates then updates[ProtectedBase] else before.baseSha)
    && after.headSha == (if merged then updates[MergedMain] else if PrHead in updates then updates[PrHead] else before.headSha)
    && after.diffHash == (if ReviewedDiff in updates then updates[ReviewedDiff] else before.diffHash)
  }

  const ARTIFACT_FIELDS: set<MaterialField> := {
    ArtifactDigest, ReleaseFingerprint, SbomDigest, ProvenanceDigest, AttestationDigest, ArtifactIdentity}

  predicate Differs(before: Material, after: Material, f: MaterialField) { Lookup(before, f) != Lookup(after, f) }

  /** What has to be validated again: the production release, the artifact, or everything from the plan on. */
  ghost function ValidatesFrom(before: Material, after: Material): State {
    if Differs(before, after, ProductionRelease) || Differs(before, after, DeployedRevision) then RollbackRequired
    else if exists f :: f in ARTIFACT_FIELDS && Differs(before, after, f) then CiPass else ChangePlanned
  }

  /** Where the change sends the case: back from production, to CI_PASS for a package, nowhere before there is a patch or
      while it is blocked, and otherwise to a block that resumes where it has to be validated from. */
  predicate SentBack(p: Position, from: State, q: Position) {
    if p.state in {ProductionReleased, PostDeployVerified, Closed, RollbackRequired} then
      && q.state == RollbackRequired && q.resume == Some(RollbackRequired) && q.blockedTarget == Some(p.state) && q.finalState == None
      && q.lastCompleted == p.lastCompleted && q.closureClass == p.closureClass
    else if p.state in {UnverifiedReport, SourceOfTruthResolved, IssueClassified, BugReproduced, RootCauseProven, BlastRadiusMapped,
                        ChangePlanned, Blocked} then q == p
    else
      && q.state == Blocked && q.blockedTarget == Some(p.state) && q.finalState == None
      && q.resume == Some(if p.state in {PackageReleased, ReleaseArtifactVerified, ConsumerValidationPass} then CiPass else from)
      && q.lastCompleted == p.lastCompleted && q.closureClass == p.closureClass
  }

  ghost predicate HeldAnywhere(refs: References, id: string) { exists t :: id in Held(refs, t) }

  /** The change is logged last, with what it changed and the evidence it made obsolete, under the next epoch. */
  ghost predicate Logged(env: Environment, r: Record, reason: string, now: string, after: Record) {
    after.subject.mutations != [] &&
    var m := after.subject.mutations[|after.subject.mutations| - 1];
    && after.subject.mutations == r.subject.mutations + [m]
    && m.epoch == r.subject.epoch + 1 && m.occurredAt == now && m.reason == reason
    && (forall f :: f in m.changed <==> Differs(SubjectOf(r).material, SubjectOf(after).material, f))
    && m.oldFingerprint == env.hash(SubjectValue(SubjectOf(r))) && m.newFingerprint == env.hash(SubjectValue(SubjectOf(after)))
    && (forall id :: id in m.invalidated <==> HeldAnywhere(r.evidence.current, id))
  }

  /** The whole record after a change of the subject. */
  ghost predicate Changed(env: Environment, r: Record, updates: Updates, reason: string, now: string, after: Record) {
    var before, material := SubjectOf(r).material, SubjectOf(after).material;
    && after.caseId == r.caseId && after.risk == r.risk && after.domains == r.domains && after.scheduling == r.scheduling && after.other == r.other
    && after.authority == Authority(false, None, None, None, None)
    && MaterialUpdated(r.subject.material, updates, after.subject.material) && AliasesFollow(r.subject, updates, after.subject)
    && after.subject.fingerprint == Some(env.hash(SubjectValue(SubjectOf(after))))
    && if material == before then
         && after.position == r.position && after.evidence == r.evidence
         && after.subject.epoch == r.subject.epoch && after.subject.version == r.subject.version && after.subject.mutations == r.subject.mutations
       else
         && SentBack(r.position, ValidatesFrom(before, material), after.position) && Archived(r.evidence, after.evidence)
         && after.subject.epoch == r.subject.epoch + 1 && after.subject.version == (if r.subject.version > 1 then r.subject.version else 1)
         && Logged(env, r, reason, now, after)
  }

  // ---- The function does just that ----

  lemma FieldUpdated(m: Material, updates: Updates)
    ensures MaterialUpdated(m, updates, UpdateMaterial(m, updates))
  {
  }

  lemma EarliestIs(before: Subject, after: Subject)
    ensures EarliestRevalidation(MaterialChanges(before, after)) == ValidatesFrom(before.material, after.material)
  {
    var changed := MaterialChanges(before, after);
    forall f ensures f in changed <==> Differs(before.material, after.material, f) {
      ChangesAre(before, after, f);
    }
    ProductionChanged(before.material, after.material, changed);
    ArtifactFields(changed);
  }

  lemma ArtifactFields(changed: set<MaterialField>)
    ensures (exists f :: f in changed && ArtifactField(f)) <==> exists f :: f in ARTIFACT_FIELDS && f in changed
  {
    forall f ensures ArtifactField(f) <==> f in ARTIFACT_FIELDS {}
  }

  lemma InvalidatedSent(p: Position, changed: set<MaterialField>)
    ensures SentBack(p, EarliestRevalidation(changed), Invalidate(p, changed))
  {
  }

  lemma UpdatedFields(env: Environment, r: Record, updates: Updates, reason: string, now: string)
    requires ApplySubjectUpdate(env, r, updates, reason, now).Ok?
    ensures var after := ApplySubjectUpdate(env, r, updates, reason, now).value; var given := WithUpdates(r, updates);
      && after.caseId == r.caseId && after.risk == r.risk && after.domains == r.domains && after.scheduling == r.scheduling && after.other == r.other
      && after.authority == given.authority
      && after.subject.material == given.subject.material && after.subject.baseSha == given.subject.baseSha
      && after.subject.headSha == given.subject.headSha && after.subject.diffHash == given.subject.diffHash
      && SubjectOf(after).material == SubjectOf(given).material
      && after.subject.fingerprint == Some(env.hash(SubjectValue(SubjectOf(after))))
      && (MaterialChanges(SubjectOf(r), SubjectOf(given)) == {} ==>
            after.position == r.position && after.evidence == r.evidence && after.subject.epoch == r.subject.epoch
            && after.subject.version == r.subject.version && after.subject.mutations == r.subject.mutations)
  {
  }

  lemma UpdatedChange(env: Environment, r: Record, updates: Updates, reason: string, now: string)
    requires ApplySubjectUpdate(env, r, updates, reason, now).Ok?
    requires SubjectOf(WithUpdates(r, updates)).material != SubjectOf(r).material
    ensures var after := ApplySubjectUpdate(env, r, updates, reason, now).value; var given := SubjectOf(WithUpdates(r, updates));
      var changed := MaterialChanges(SubjectOf(r), given);
      && after.subject.epoch == r.subject.epoch + 1 && after.subject.version == (if r.subject.version > 1 then r.subject.version else 1)
      && after.position == Invalidate(r.position, changed)
      && after.subject.mutations == r.subject.mutations
           + [Mutation(r.subject.epoch + 1, now, reason, changed, env.hash(SubjectValue(SubjectOf(r))), env.hash(SubjectValue(SubjectOf(after))),
                       AllReferences(r.evidence.current))]
  {
  }

  lemma Obsolete(refs: References, id: string)
    ensures id in AllReferences(refs) <==> HeldAnywhere(refs, id)
  {
    if t :| t in refs && id in refs[t] {
      assert id in Held(refs, t);
    }
  }

  lemma ChangeLogged(env: Environment, r: Record, updates: Updates, reason: string, now: string)
    requires ApplySubjectUpdate(env, r, updates, reason, now).Ok?
    requires SubjectOf(WithUpdates(r, updates)).material != SubjectOf(r).material
    ensures Logged(env, r, reason, now, ApplySubjectUpdate(env, r, updates, reason, now).value)
  {
    var after := ApplySubjectUpdate(env, r, updates, reason, now).value;
    UpdatedChange(env, r, updates, reason, now);
    UpdatedFields(env, r, updates, reason, now);
    forall f ensures f in MaterialChanges(SubjectOf(r), SubjectOf(after)) <==> Differs(SubjectOf(r).material, SubjectOf(after).material, f) {
      ChangesAre(SubjectOf(r), SubjectOf(after), f);
    }
    SameMaterialSameChanges(SubjectOf(r), SubjectOf(after), SubjectOf(WithUpdates(r, updates)));
    forall id ensures id in AllReferences(r.evidence.current) <==> HeldAnywhere(r.evidence.current, id) {
      Obsolete(r.evidence.current, id);
    }
  }

  lemma SameMaterialSameChanges(before: Subject, a: Subject, b: Subject)
    requires a.material == b.material
    ensures MaterialChanges(before, a) == MaterialChanges(before, b)
  {
  }

  /** A subject update succeeds exactly for a subject that is valid, and changes the record just so. */
  lemma UpdateChanges(env: Environment, r: Record, updates: Updates, reason: string, now: string)
    ensures ApplySubjectUpdate(env, r, updates, reason, now).Ok? <==> env.subjectValid(SubjectOf(WithUpdates(r, updates)))
    ensures ApplySubjectUpdate(env, r, updates, reason, now).Ok? ==>
      Changed(env, r, updates, reason, now, ApplySubjectUpdate(env, r, updates, reason, now).value)
  {
    if ApplySubjectUpdate(env, r, updates, reason, now).Ok? {
      var given := WithUpdates(r, updates);
      UpdatedFields(env, r, updates, reason, now);
      FieldUpdated(r.subject.material, updates);
      UpdateArchivesIff(env, r, updates, reason, now);
      if SubjectOf(given).material != SubjectOf(r).material {
        UpdatedChange(env, r, updates, reason, now);
        ChangeLogged(env, r, updates, reason, now);
        InvalidatedSent(r.position, MaterialChanges(SubjectOf(r), SubjectOf(given)));
        EarliestIs(SubjectOf(r), SubjectOf(given));
      }
    }
  }
}
