/** apply_subject_update: changing the delivery subject and invalidating what depended on it. */
module SubjectUpdates {
  import opened Basics
  import opened States
  import opened Records
  import opened Events

  /** The changed fields; no value clears a field. */
  type Updates = map<MaterialField, Option<string>>

  function UpdateMaterial(m: Material, updates: Updates): Material {
    (m - updates.Keys) + (map f | f in updates && updates[f].Some? :: updates[f].value)
  }

  /** The update with its legacy aliases, before any invalidation. */
  function WithUpdates(r: Record, updates: Updates): Record {
    var s := r.subject;
    var base := if ProtectedBase in updates then updates[ProtectedBase] else s.baseSha;
    var head := if MergedMain in updates && updates[MergedMain].Some? && updates[MergedMain].value != "" then updates[MergedMain]
                else if PrHead in updates then updates[PrHead] else s.headSha;
    var diff := if ReviewedDiff in updates then updates[ReviewedDiff] else s.diffHash;
    r.(authority := Authority(false, None, None, None, None),
       subject := s.(material := UpdateMaterial(s.material, updates), baseSha := base, headSha := head, diffHash := diff))
  }

  function Archive(refs: References, historical: References): References {
    map t | t in refs.Keys + historical.Keys ::
      (if t in refs then refs[t] else {}) + (if t in historical then historical[t] else {})
  }

  predicate PostProduction(s: State) {
    s == ProductionReleased || s == PostDeployVerified || s == Closed || s == RollbackRequired
  }

  predicate BeforePatch(s: State) {
    0 <= Order(s) <= Order(ChangePlanned) || s == Blocked
  }

  /** Where a case goes when its subject changes. */
  function Invalidate(p: Position, changed: set<MaterialField>): Position {
    if PostProduction(p.state) then
      p.(state := RollbackRequired, resume := Some(RollbackRequired), blockedTarget := Some(p.state),
         blockers := ["rollback or containment is required"], finalState := None)
    else if PackageState(p.state) then
      p.(state := Blocked, resume := Some(CiPass), blockedTarget := Some(p.state),
         blockers := ["revoke or replace the affected package"], finalState := None)
    else if !BeforePatch(p.state) then
      p.(state := Blocked, resume := Some(EarliestRevalidation(changed)), blockedTarget := Some(p.state),
         blockers := ["revalidation is required"], finalState := None)
    else p
  }

  function MaxOne(v: int): int { if v < 1 then 1 else v }

  function ApplySubjectUpdate(env: Environment, r: Record, updates: Updates, reason: string, now: string): Result<Record> {
    var before := SubjectOf(r);
    var updated := WithUpdates(r, updates);
    var after := SubjectOf(updated);
    if !env.subjectValid(after) then Err(ValueError)
    else
      var changed := MaterialChanges(before, after);
      if changed == {} then
        Ok(updated.(subject := updated.subject.(fingerprint := Some(env.Fingerprint(after)))))
      else
        var renewed := updated.(subject := updated.subject.(epoch := before.epoch + 1, version := MaxOne(updated.subject.version)));
        var fingerprint := env.Fingerprint(SubjectOf(renewed));
        var mutation := Mutation(before.epoch + 1, now, reason, changed, env.Fingerprint(before), fingerprint,
                                 set t, id | t in r.evidence.current && id in r.evidence.current[t] :: id);
        Ok(renewed.(
          subject := renewed.subject.(fingerprint := Some(fingerprint), mutations := renewed.subject.mutations + [mutation]),
          evidence := Evidenced(map[], Archive(r.evidence.current, r.evidence.historical)),
          position := Invalidate(r.position, changed)))
  }

  /** An update leaves the case where it is if no material field changed, and otherwise where the change sends it. */
  lemma UpdatedPosition(env: Environment, r: Record, updates: Updates, reason: string, now: string)
    requires ApplySubjectUpdate(env, r, updates, reason, now).Ok?
    ensures var p := ApplySubjectUpdate(env, r, updates, reason, now).value.position;
      var changed := MaterialChanges(SubjectOf(r), SubjectOf(WithUpdates(r, updates)));
      p == if changed == {} then r.position else Invalidate(r.position, changed)
    ensures ApplySubjectUpdate(env, r, updates, reason, now).value.caseId == r.caseId
  {
  }
}
