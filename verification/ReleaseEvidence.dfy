/** Producing and verifying release evidence (generate_release_evidence.py, verify_release_evidence.py). */
module ReleaseEvidence {
  import opened Basics

  datatype Subject = Subject(name: string, digest: Digest, size: nat)

  datatype Package = Package(name: string, checksums: seq<string>)

  datatype Sbom = Sbom(title: string, documentNamespace: string, created: string, packages: seq<Package>)

  datatype Provenance = Provenance(repository: string, sourceSha: string, version: string, created: string,
                                   subjects: seq<Subject>, sbomDigest: Digest)

  /** RELEASE_EVIDENCE.json */
  datatype Evidence = Evidence(
    schema: int, repository: string, sourceSha: string, version: string, fingerprint: Digest, identity: string,
    subjects: seq<Subject>, sbomDigest: Digest, provenanceDigest: Digest,
    attestation: Option<Digest>, sbomAttestation: Option<Digest>, isProtected: bool)

  /** What the fingerprint hashes. */
  datatype Document =
    | SbomDocument(sbom: Sbom)
    | ProvenanceDocument(provenance: Provenance)
    | FingerprintDocument(sourceSha: string, version: string, subjects: seq<Subject>, sbomDigest: Digest,
                          provenanceDigest: Digest, attestation: Option<Digest>, sbomAttestation: Option<Digest>)

  const ALGORITHM := "sha256:"

  predicate Hexadecimal(s: string) {
    s == "" || (('0' <= s[0] <= '9' || 'a' <= s[0] <= 'f') && Hexadecimal(s[1..]))
  }

  /** The form of a rendered digest: its algorithm and 64 hexadecimal digits. */
  predicate Sha256(d: Digest) { |d| == 71 && d[..7] == ALGORITHM && Hexadecimal(d[7..]) }

  /** Digests of bytes and of documents, and the shape checks of identifiers. */
  datatype Hashes = Hashes(file: string -> Digest, document: Document -> Digest,
                           commitId: string -> bool, semver: string -> bool, plainName: string -> bool)
  {
    ghost predicate Renders() { forall b :: Sha256(file(b)) }

    predicate SameFile(a: string, b: string) { file(a) == file(b) }

    predicate SameDocument(a: Document, b: Document) { document(a) == document(b) }

    ghost predicate Ideal() {
      (forall a, b :: SameFile(a, b) ==> a == b) && forall a, b :: SameDocument(a, b) ==> a == b
    }
  }

  /** A release directory: its other files, and the three documents. */
  datatype Release = Release(files: map<string, string>, evidence: Option<Evidence>, sbom: Option<Sbom>, provenance: Option<Provenance>)

  datatype Request = Request(repository: string, sourceSha: string, version: string)

  const PROVENANCE_ATTESTATION := "PROVENANCE_ATTESTATION.json"
  const SBOM_ATTESTATION := "SBOM_ATTESTATION.json"
  const EXCLUDED: set<string> := {PROVENANCE_ATTESTATION, SBOM_ATTESTATION, "SUBJECT_CHECKSUMS.sha256", "CHECKSUMS.sha256"}

  function FileDigest(h: Hashes, r: Release, name: string): Option<Digest> {
    if name in r.files then Some(h.file(r.files[name])) else None
  }

  function Publishable(r: Release): set<string> { r.files.Keys - EXCLUDED }

  datatype NamedDigest = NamedDigest(name: string, digest: Digest)

  function Named(subjects: seq<Subject>): seq<NamedDigest> {
    seq(|subjects|, i requires 0 <= i < |subjects| => NamedDigest(subjects[i].name, subjects[i].digest))
  }

  function Entry(item: NamedDigest): string { item.name + "@" + item.digest }

  function Join(items: seq<NamedDigest>): string {
    if items == [] then ""
    else if |items| == 1 then Entry(items[0])
    else Entry(items[0]) + "," + Join(items[1..])
  }

  function Identity(req: Request, subjects: seq<Subject>): string {
    req.repository + "@" + req.sourceSha + ":" + Join(Named(subjects))
  }

  // ---- build ----

  function SubjectsOf(h: Hashes, r: Release, names: seq<string>): seq<Subject>
    requires forall n :: n in names ==> n in r.files
  {
    seq(|names|, i requires 0 <= i < |names| => Subject(names[i], h.file(r.files[names[i]]), |r.files[names[i]]|))
  }

  function WithoutAlgorithm(d: Digest): string { if ALGORITHM <= d then d[7..] else d }

  function PackagesOf(subjects: seq<Subject>): seq<Package> {
    seq(|subjects|, i requires 0 <= i < |subjects| => Package(subjects[i].name, [WithoutAlgorithm(subjects[i].digest)]))
  }

  function Fingerprint(h: Hashes, req: Request, subjects: seq<Subject>, sbomDigest: Digest, provenanceDigest: Digest,
                       attestation: Option<Digest>, sbomAttestation: Option<Digest>): Digest
  {
    h.document(FingerprintDocument(req.sourceSha, req.version, subjects, sbomDigest, provenanceDigest, attestation, sbomAttestation))
  }

  /** The names of all publishable files, each once: `sorted(release_dir.iterdir())` without the excluded ones. */
  predicate Lists(r: Release, names: seq<string>) { Distinct(names) && SetOf(names) == Publishable(r) }

  /** build: the directory with its three documents; `attestation` is the digest of the attestation path, if given. */
  function Build(h: Hashes, r: Release, req: Request, names: seq<string>, created: string, attestation: Option<Digest>): Result<Release>
    requires Lists(r, names)
  {
    if !h.commitId(req.sourceSha) || !h.semver(req.version) || names == [] then Err(ValueError)
    else
      assert forall n :: n in names ==> n in SetOf(names);
      var subjects := SubjectsOf(h, r, names);
      var sbom := Sbom(req.version, req.repository + "/" + req.version + "/" + req.sourceSha, created, PackagesOf(subjects));
      var sbomDigest := h.document(SbomDocument(sbom));
      var provenance := Provenance(req.repository, req.sourceSha, req.version, created, subjects, sbomDigest);
      var provenanceDigest := h.document(ProvenanceDocument(provenance));
      var sbomAttestation := FileDigest(h, r, SBOM_ATTESTATION);
      var evidence := Evidence(1, req.repository, req.sourceSha, req.version,
        Fingerprint(h, req, subjects, sbomDigest, provenanceDigest, attestation, sbomAttestation),
        Identity(req, subjects), subjects, sbomDigest, provenanceDigest, attestation, sbomAttestation,
        attestation.Some? && sbomAttestation.Some?);
      Ok(r.(evidence := Some(evidence), sbom := Some(sbom), provenance := Some(provenance)))
  }

  /** The producer: it lists the publishable files of the directory and writes the three documents. */
  method GenerateEvidence(h: Hashes, r: Release, req: Request, created: string, attestation: Option<Digest>)
    returns (result: Result<Release>, names: seq<string>)
    ensures Lists(r, names) && result == Build(h, r, req, names, created, attestation)
  {
    names := Enumerate(Publishable(r));
    result := Build(h, r, req, names, created, attestation);
  }

  // ---- verify ----

  predicate Single(p: Package) { |p.checksums| == 1 }

  function SbomSubjects(packages: seq<Package>): seq<NamedDigest>
    requires forall i :: 0 <= i < |packages| ==> Single(packages[i])
  {
    seq(|packages|, i requires 0 <= i < |packages| && Single(packages[i]) => NamedDigest(packages[i].name, ALGORITHM + packages[i].checksums[0]))
  }

  /** A subject record is well-formed and describes the file of its name. */
  predicate SubjectOk(h: Hashes, r: Release, s: Subject) {
    && s.name != "" && h.plainName(s.name) && Sha256(s.digest)
    && s.name in r.files && h.file(r.files[s.name]) == s.digest && |r.files[s.name]| == s.size
  }

  predicate DistinctNames(subjects: seq<Subject>) {
    forall i, j :: 0 <= i < j < |subjects| ==> subjects[i].name != subjects[j].name
  }

  predicate SubjectsOk(h: Hashes, r: Release, subjects: seq<Subject>) {
    DistinctNames(subjects) && forall i :: 0 <= i < |subjects| ==> SubjectOk(h, r, subjects[i])
  }

  predicate SbomMatches(sbom: Sbom, subjects: seq<Subject>) {
    && (forall i :: 0 <= i < |sbom.packages| ==> Single(sbom.packages[i]))
    && multiset(SbomSubjects(sbom.packages)) == multiset(Named(subjects))
  }

  predicate ProvenanceMatches(req: Request, p: Provenance, subjects: seq<Subject>, sbomDigest: Digest) {
    && p.repository == req.repository && p.sourceSha == req.sourceSha && p.version == req.version
    && p.subjects == subjects && p.sbomDigest == sbomDigest
  }

  predicate Attested(h: Hashes, r: Release, e: Evidence, requireProtected: bool) {
    && e.attestation == FileDigest(h, r, PROVENANCE_ATTESTATION)
    && e.sbomAttestation == FileDigest(h, r, SBOM_ATTESTATION)
    && (requireProtected ==> e.isProtected && e.attestation.Some? && e.sbomAttestation.Some?)
  }

  predicate Named?(req: Request, e: Evidence) {
    e.repository == req.repository && e.sourceSha == req.sourceSha && e.version == req.version && e.schema == 1
  }

  /** verify reports no error. */
  predicate Verified(h: Hashes, r: Release, req: Request, requireProtected: bool) {
    r.evidence.Some? && r.sbom.Some? && r.provenance.Some? && h.commitId(req.sourceSha) &&
    var e, sbom, p := r.evidence.value, r.sbom.value, r.provenance.value;
    && Named?(req, e) && e.subjects != [] && SubjectsOk(h, r, e.subjects)
    && e.identity == Identity(req, e.subjects)
    && e.sbomDigest == h.document(SbomDocument(sbom)) && e.provenanceDigest == h.document(ProvenanceDocument(p))
    && SbomMatches(sbom, e.subjects) && ProvenanceMatches(req, p, e.subjects, e.sbomDigest)
    && Attested(h, r, e, requireProtected)
    && e.fingerprint == Fingerprint(h, req, e.subjects, e.sbomDigest, e.provenanceDigest, e.attestation, e.sbomAttestation)
  }

  datatype EvidenceError = MissingDocument | BadCommitId | IdentityField | NoSubjects | BadSubject | SubjectMismatch | BadIdentity
    | SbomDigestMismatch | ProvenanceDigestMismatch | BadPackage | SbomDiffers | ProvenanceDiffers | AttestationMismatch
    | NotProtected | BadFingerprint

  lemma SubjectsOkAppend(h: Hashes, r: Release, subjects: seq<Subject>, s: Subject)
    ensures SubjectsOk(h, r, subjects + [s]) <==>
      && SubjectsOk(h, r, subjects) && SubjectOk(h, r, s)
      && forall i :: 0 <= i < |subjects| ==> subjects[i].name != s.name
  {
    var all := subjects + [s];
    assert all[|subjects|] == s && forall i :: 0 <= i < |subjects| ==> all[i] == subjects[i];
  }

  /** The loop over the subject records; a bad record is reported and left out of the normalized list. */
  method Normalize(h: Hashes, r: Release, records: seq<Subject>) returns (errors: seq<EvidenceError>, normalized: seq<Subject>)
    ensures errors == [] <==> SubjectsOk(h, r, records)
    ensures errors == [] ==> normalized == records
  {
    errors, normalized := [], [];
    var names: set<string> := {};
    for i := 0 to |records|
      invariant names <= set j | 0 <= j < i :: records[j].name
      invariant errors == [] ==> names == set j | 0 <= j < i :: records[j].name
      invariant errors == [] <==> SubjectsOk(h, r, records[..i])
      invariant errors == [] ==> normalized == records[..i]
    {
      var s := records[i];
      ghost var ok := errors == [];
      assert records[..i + 1] == records[..i] + [s];
      SubjectsOkAppend(h, r, records[..i], s);
      assert ok ==> (s.name in names <==> exists j :: 0 <= j < i && records[..i][j].name == s.name);
      if s.name == "" || !h.plainName(s.name) || s.name in names {
        errors := errors + [BadSubject];
      } else {
        names := names + {s.name};
        if !Sha256(s.digest) || s.name !in r.files {
          errors := errors + [BadSubject];
        } else {
          if h.file(r.files[s.name]) != s.digest || |r.files[s.name]| != s.size {
            errors := errors + [SubjectMismatch];
          }
          normalized := normalized + [s];
        }
      }
    }
    assert records[..|records|] == records;
  }

  /** The loop over the SBOM packages. */
  method ReadPackages(packages: seq<Package>) returns (errors: seq<EvidenceError>, subjects: seq<NamedDigest>)
    ensures errors == [] <==> forall i :: 0 <= i < |packages| ==> Single(packages[i])
    ensures errors == [] ==> subjects == SbomSubjects(packages)
  {
    errors, subjects := [], [];
    for i := 0 to |packages|
      invariant errors == [] <==> forall j :: 0 <= j < i ==> Single(packages[j])
      invariant errors == [] ==> |subjects| == i
      invariant errors == [] ==> forall j :: 0 <= j < i ==> subjects[j] == NamedDigest(packages[j].name, ALGORITHM + packages[j].checksums[0])
    {
      if !Single(packages[i]) {
        errors := errors + [BadPackage];
      } else {
        subjects := subjects + [NamedDigest(packages[i].name, ALGORITHM + packages[i].checksums[0])];
      }
    }
  }

  method CheckAttestations(h: Hashes, r: Release, e: Evidence, requireProtected: bool) returns (errors: seq<EvidenceError>)
    ensures errors == [] <==> Attested(h, r, e, requireProtected)
  {
    errors := [];
    var attestation, sbomAttestation := FileDigest(h, r, PROVENANCE_ATTESTATION), FileDigest(h, r, SBOM_ATTESTATION);
    if e.attestation != attestation { errors := errors + [AttestationMismatch]; }
    if e.sbomAttestation != sbomAttestation { errors := errors + [AttestationMismatch]; }
    var isProtected := e.isProtected && attestation.Some? && sbomAttestation.Some?;
    if requireProtected && !isProtected { errors := errors + [NotProtected]; }
  }

  method CheckDocuments(h: Hashes, req: Request, e: Evidence, sbom: Sbom, p: Provenance, normalized: seq<Subject>)
    returns (errors: seq<EvidenceError>)
    ensures errors == [] <==>
      && e.identity == Identity(req, normalized)
      && e.sbomDigest == h.document(SbomDocument(sbom)) && e.provenanceDigest == h.document(ProvenanceDocument(p))
      && SbomMatches(sbom, normalized) && ProvenanceMatches(req, p, normalized, h.document(SbomDocument(sbom)))
  {
    errors := [];
    if e.identity != Identity(req, normalized) { errors := errors + [BadIdentity]; }
    var sbomDigest, provenanceDigest := h.document(SbomDocument(sbom)), h.document(ProvenanceDocument(p));
    if e.sbomDigest != sbomDigest { errors := errors + [SbomDigestMismatch]; }
    if e.provenanceDigest != provenanceDigest { errors := errors + [ProvenanceDigestMismatch]; }
    var packageErrors, subjects := ReadPackages(sbom.packages);
    errors := errors + packageErrors;
    if multiset(subjects) != multiset(Named(normalized)) { errors := errors + [SbomDiffers]; }
    if !ProvenanceMatches(req, p, normalized, sbomDigest) { errors := errors + [ProvenanceDiffers]; }
  }

  /** verify */
  method Verify(h: Hashes, r: Release, req: Request, requireProtected: bool) returns (errors: seq<EvidenceError>)
    ensures errors == [] <==> Verified(h, r, req, requireProtected)
  {
    errors := if h.commitId(req.sourceSha) then [] else [BadCommitId];
    if r.evidence.None? || r.sbom.None? || r.provenance.None? {
      return errors + [MissingDocument];
    }
    var e, sbom, p := r.evidence.value, r.sbom.value, r.provenance.value;
    if !Named?(req, e) { errors := errors + [IdentityField]; }
    if e.subjects == [] { errors := errors + [NoSubjects]; }
    var subjectErrors, normalized := Normalize(h, r, e.subjects);
    var documentErrors := CheckDocuments(h, req, e, sbom, p, normalized);
    var attestationErrors := CheckAttestations(h, r, e, requireProtected);
    var fingerprint := Fingerprint(h, req, normalized, h.document(SbomDocument(sbom)), h.document(ProvenanceDocument(p)),
                                   FileDigest(h, r, PROVENANCE_ATTESTATION), FileDigest(h, r, SBOM_ATTESTATION));
    var bound := if e.fingerprint == fingerprint then [] else [BadFingerprint];
    ghost var header := errors == [];
    errors := errors + subjectErrors + documentErrors + attestationErrors + bound;
    assert errors == [] <==> header && subjectErrors == [] && documentErrors == [] && attestationErrors == [] && bound == [];
  }

  // ---- Producer and verifier agree ----

  lemma SubjectsDescribe(h: Hashes, r: Release, names: seq<string>)
    requires Lists(r, names) && h.Renders() && forall n :: n in r.files ==> n != "" && h.plainName(n)
    ensures (forall n :: n in names ==> n in r.files) && SubjectsOk(h, r, SubjectsOf(h, r, names))
  {
    assert forall n :: n in names ==> n in SetOf(names);
    var subjects := SubjectsOf(h, r, names);
    forall i | 0 <= i < |subjects| ensures SubjectOk(h, r, subjects[i]) {
      assert names[i] in r.files;
    }
  }

  lemma PackagesDescribe(h: Hashes, r: Release, names: seq<string>)
    requires h.Renders() && forall n :: n in names ==> n in r.files
    ensures var subjects := SubjectsOf(h, r, names); var packages := PackagesOf(subjects);
      && (forall i :: 0 <= i < |packages| ==> Single(packages[i])) && SbomSubjects(packages) == Named(subjects)
  {
    var subjects := SubjectsOf(h, r, names);
    forall i | 0 <= i < |subjects| ensures ALGORITHM + WithoutAlgorithm(subjects[i].digest) == subjects[i].digest {
      assert Sha256(h.file(r.files[names[i]]));
    }
  }

  /** The evidence just built verifies if and only if the attestation it was given is the one in the directory
      (and, where protection is required, both attestations are there). */
  lemma BuildVerifiesIff(h: Hashes, r: Release, req: Request, names: seq<string>, created: string, attestation: Option<Digest>, requireProtected: bool)
    requires h.Renders() && Lists(r, names) && forall n :: n in r.files ==> n != "" && h.plainName(n)
    requires Build(h, r, req, names, created, attestation).Ok?
    ensures Verified(h, Build(h, r, req, names, created, attestation).value, req, requireProtected) <==>
      && attestation == FileDigest(h, r, PROVENANCE_ATTESTATION)
      && (requireProtected ==> attestation.Some? && FileDigest(h, r, SBOM_ATTESTATION).Some?)
  {
    SubjectsDescribe(h, r, names);
    PackagesDescribe(h, r, names);
    var built := Build(h, r, req, names, created, attestation).value;
    var subjects := SubjectsOf(h, r, names);
    assert built.evidence.value.subjects == subjects;
    assert SubjectsOk(h, built, subjects) by {
      forall i | 0 <= i < |subjects| ensures SubjectOk(h, built, subjects[i]) {
        assert SubjectOk(h, r, subjects[i]);
      }
    }
  }

  // ---- What an error-free verification forces ----

  function NamesOf(subjects: seq<Subject>): seq<string> {
    seq(|subjects|, i requires 0 <= i < |subjects| => subjects[i].name)
  }

  /** The records of the evidence are what the disk says of their names, digests and sizes, each name once; the
      provenance repeats them in order, the SBOM names and digests with their multiplicity, the identity in order. */
  lemma VerifiedIsOneList(h: Hashes, r: Release, req: Request, requireProtected: bool)
    requires Verified(h, r, req, requireProtected)
    ensures var names := NamesOf(r.evidence.value.subjects);
      && Distinct(names) && (forall n :: n in names ==> n in r.files) &&
      var onDisk := SubjectsOf(h, r, names);
      && r.evidence.value.subjects == onDisk && r.provenance.value.subjects == onDisk
      && multiset(SbomSubjects(r.sbom.value.packages)) == multiset(Named(onDisk))
      && r.evidence.value.identity == Identity(req, onDisk)
  {
    var subjects := r.evidence.value.subjects;
    var names := NamesOf(subjects);
    forall i | 0 <= i < |subjects| ensures names[i] in r.files && subjects[i] == Subject(names[i], h.file(r.files[names[i]]), |r.files[names[i]]|) {
      assert SubjectOk(h, r, subjects[i]);
    }
    assert subjects == SubjectsOf(h, r, names);
  }

  lemma FingerprintBinds(h: Hashes, a: Release, b: Release, reqA: Request, reqB: Request, requireProtected: bool)
    requires h.Ideal() && Verified(h, a, reqA, requireProtected) && Verified(h, b, reqB, requireProtected)
    requires a.evidence.value.fingerprint == b.evidence.value.fingerprint
    ensures a.evidence.value.subjects == b.evidence.value.subjects && reqA == reqB
    ensures a.sbom == b.sbom && a.provenance == b.provenance
    ensures FileDigest(h, a, PROVENANCE_ATTESTATION) == FileDigest(h, b, PROVENANCE_ATTESTATION)
    ensures FileDigest(h, a, SBOM_ATTESTATION) == FileDigest(h, b, SBOM_ATTESTATION)
  {
    var e, f := a.evidence.value, b.evidence.value;
    assert h.SameDocument(
      FingerprintDocument(reqA.sourceSha, reqA.version, e.subjects, e.sbomDigest, e.provenanceDigest, e.attestation, e.sbomAttestation),
      FingerprintDocument(reqB.sourceSha, reqB.version, f.subjects, f.sbomDigest, f.provenanceDigest, f.attestation, f.sbomAttestation));
    assert h.SameDocument(SbomDocument(a.sbom.value), SbomDocument(b.sbom.value));
    assert h.SameDocument(ProvenanceDocument(a.provenance.value), ProvenanceDocument(b.provenance.value));
  }

  /** One fingerprint is one release: two verified directories with the same release fingerprint hold the same
      documents, up to the `protected_attestation` flag nothing hashes, and the same bytes in every listed file. */
  lemma FingerprintPinsRelease(h: Hashes, a: Release, b: Release, reqA: Request, reqB: Request, requireProtected: bool, i: nat)
    requires h.Ideal() && Verified(h, a, reqA, requireProtected) && Verified(h, b, reqB, requireProtected)
    requires a.evidence.value.fingerprint == b.evidence.value.fingerprint
    requires i < |a.evidence.value.subjects|
    ensures a.sbom == b.sbom && a.provenance == b.provenance
    ensures a.evidence.value == b.evidence.value.(isProtected := a.evidence.value.isProtected)
    ensures var name := a.evidence.value.subjects[i].name;
      name in a.files && name in b.files && a.files[name] == b.files[name]
  {
    FingerprintBinds(h, a, b, reqA, reqB, requireProtected);
    var s := a.evidence.value.subjects[i];
    assert SubjectOk(h, a, s) && SubjectOk(h, b, s);
    assert h.SameFile(a.files[s.name], b.files[s.name]);
  }

  /** Completeness is not part of it: a file the evidence does not list may be added to a verified release unseen. */
  lemma UnlistedFilesPass(h: Hashes, r: Release, req: Request, requireProtected: bool, name: string, bytes: string)
    requires Verified(h, r, req, requireProtected) && name != PROVENANCE_ATTESTATION && name != SBOM_ATTESTATION
    ensures Verified(h, r.(files := r.files[name := bytes]), req, requireProtected)
       <==> forall i :: 0 <= i < |r.evidence.value.subjects| && r.evidence.value.subjects[i].name == name ==>
              r.evidence.value.subjects[i].digest == h.file(bytes) && r.evidence.value.subjects[i].size == |bytes|
  {
    var after, subjects := r.(files := r.files[name := bytes]), r.evidence.value.subjects;
    forall i | 0 <= i < |subjects|
      ensures SubjectOk(h, after, subjects[i]) <==> (subjects[i].name == name ==> subjects[i].digest == h.file(bytes) && subjects[i].size == |bytes|)
    {
      assert SubjectOk(h, r, subjects[i]);
    }
    assert FileDigest(h, after, PROVENANCE_ATTESTATION) == FileDigest(h, r, PROVENANCE_ATTESTATION);
    assert FileDigest(h, after, SBOM_ATTESTATION) == FileDigest(h, r, SBOM_ATTESTATION);
  }
}
