/** Lifecycle records and the delivery subject they carry (subject.py). */
module Records {
  import opened Basics
  import opened States

  /** MATERIAL_SUBJECT_FIELDS, in the order of subject.py. */
  datatype MaterialField =
    | Repository | DeliveryModel | DeliveryModelProof | ProtectedBase | PrHead | ReviewedDiff
    | MergedMain | MergeMethod | MergeProvenance | PostMergeCiRun | ChangeContract | PolicyBundle
    | Toolchain | ArtifactDigest | ReleaseFingerprint | SbomDigest | ProvenanceDigest
    | AttestationDigest | ProductionRelease | DeployedRevision | ArtifactIdentity

  predicate ProductionField(f: MaterialField) { f == ProductionRelease || f == DeployedRevision }

  predicate ArtifactField(f: MaterialField) {
    f == ArtifactDigest || f == ReleaseFingerprint || f == SbomDigest || f == ProvenanceDigest
    || f == AttestationDigest || f == ArtifactIdentity
  }

  /** A null field is absent from the map. */
  type Material = map<MaterialField, string>

  function Lookup(m: Material, f: MaterialField): Option<string> {
    if f in m then Some(m[f]) else None
  }

  datatype Subject = Subject(material: Material, epoch: int, version: int)

  datatype RiskLevel = R0 | R1 | R2 | R3 | R4 | OtherRisk(text: string)
  datatype RiskClass = Low | Medium | High | Critical | OtherClass(text: string)
  datatype RiskEntry = RiskEntry(level: Option<RiskLevel>, cls: Option<RiskClass>, state: State)
  datatype RiskProfile = RiskProfile(level: Option<RiskLevel>, cls: Option<RiskClass>, history: seq<RiskEntry>)

  /** Position of the case: the fields a lifecycle step rewrites. */
  datatype Position = Position(
    state: State, lastCompleted: Option<State>, resume: Option<State>, blockedTarget: Option<State>,
    blockers: seq<string>, finalState: Option<State>, closureClass: Option<string>)

  datatype Mutation = Mutation(epoch: int, occurredAt: string, reason: string, changed: set<MaterialField>,
                               oldFingerprint: Digest, newFingerprint: Digest, invalidated: set<string>)

  /** Subject fields as written, with the three legacy aliases. */
  datatype SubjectFields = SubjectFields(
    material: Material, baseSha: Option<string>, headSha: Option<string>, diffHash: Option<string>,
    epoch: int, version: int, fingerprint: Option<Digest>, mutations: seq<Mutation>)

  /** Evidence identifiers by evidence type. */
  type References = map<string, set<string>>

  datatype Evidenced = Evidenced(current: References, historical: References)

  datatype Authority = Authority(authoritative: bool, store: Option<string>, version: Option<int>,
                                 recordHash: Option<Digest>, binding: Option<string>)

  /** `scheduling` holds internal_execution_complete and scheduler_state; `other` every remaining field. */
  datatype Record = Record(
    caseId: string, position: Position, risk: RiskProfile, domains: Option<seq<string>>,
    subject: SubjectFields, evidence: Evidenced, authority: Authority,
    scheduling: map<string, string>, other: map<string, string>)

  const STORE_NAME := "controller-owned-sqlite"

  function OrZeroVersion(v: int): int { if v == 0 then 1 else v }

  /** `result[f] = value`, where a null value is absence. */
  function Put(m: Material, f: MaterialField, v: Option<string>): Material {
    if v.Some? then m[f := v.value] else m - {f}
  }

  /** subject_from_record: explicit fields first, legacy aliases where they are null. */
  function SubjectOf(r: Record): Subject {
    var raw := r.subject.material;
    var head := if PrHead !in raw && MergedMain !in raw then r.subject.headSha else Lookup(raw, PrHead);
    var base := Lookup(raw, ProtectedBase).Or(r.subject.baseSha);
    var diff := Lookup(raw, ReviewedDiff).Or(r.subject.diffHash);
    Subject(Put(Put(Put(raw, PrHead, head), ProtectedBase, base), ReviewedDiff, diff),
            r.subject.epoch, OrZeroVersion(r.subject.version))
  }

  /** material_subject_changes: the fields on which two subjects differ. */
  function MaterialChanges(old_: Subject, new_: Subject): (changed: set<MaterialField>)
    ensures changed == {} <==> old_.material == new_.material
  {
    var both := old_.material.Keys + new_.material.Keys;
    var changed := set f | f in both && Lookup(old_.material, f) != Lookup(new_.material, f);
    assert changed == {} ==> old_.material == new_.material by {
      if changed == {} {
        forall f | f in both ensures f in old_.material && f in new_.material && old_.material[f] == new_.material[f] {
          assert f !in changed;
        }
      }
    }
    changed
  }

  /** earliest_revalidation_state */
  function EarliestRevalidation(changed: set<MaterialField>): State {
    if exists f :: f in changed && ProductionField(f) then RollbackRequired
    else if exists f :: f in changed && ArtifactField(f) then CiPass
    else ChangePlanned
  }

  function LevelOrder(l: RiskLevel): int {
    match l
    case R0 => 0 case R1 => 1 case R2 => 2 case R3 => 3 case R4 => 4
    case OtherRisk(_) => -1
  }

  function ClassOf(l: RiskLevel): RiskClass {
    match l
    case R0 => Low case R1 => Low case R2 => Medium case R3 => High case R4 => Critical
    case OtherRisk(t) => OtherClass(t)
  }

  function ClassOrder(c: RiskClass): int {
    match c
    case Low => 0 case Medium => 1 case High => 2 case Critical => 3
    case OtherClass(_) => -1
  }
}
