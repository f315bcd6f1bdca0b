/** What release evidence must be to verify, and what the producer writes, document by document. */
module ReleaseRules {
  import opened Basics
  import opened ReleaseEvidence

  // ---- Verification ----

  /** The digest names its algorithm and has 64 hexadecimal digits. */
  predicate IsSha256(d: Digest) {
    |d| == 71 && d[..7] == "sha256:" && forall i :: 7 <= i < 71 ==> '0' <= d[i] <= '9' || 'a' <= d[i] <= 'f'
  }

  /** The digest of a file, if it is there. */
  function DigestAt(h: Hashes, r: Release, name: string): Option<Digest> {
    if name in r.files then Some(h.file(r.files[name])) else None
  }

  /** Each subject has a plain name of its own and is the file of that name: its digest and its size. */
  predicate AreFiles(h: Hashes, r: Release, subjects: seq<Subject>) {
    && (forall i, j :: 0 <= i < j < |subjects| ==> subjects[i].name != subjects[j].name)
    && forall i :: 0 <= i < |subjects| ==> var s := subjects[i];
         && s.name != "" && h.plainName(s.name) && IsSha256(s.digest)
         && DigestAt(h, r, s.name) == Some(s.digest) && s.size == |r.files[s.name]|
  }

  /** The packages are the subjects, in some order, each with the one checksum of its file. */
  ghost predicate ArePackages(packages: seq<Package>, subjects: seq<Subject>) {
    && (forall i :: 0 <= i < |packages| ==> |packages[i].checksums| == 1)
    && multiset(seq(|packages|, i requires 0 <= i < |packages| && |packages[i].checksums| == 1 =>
                      NamedDigest(packages[i].name, "sha256:" + packages[i].checksums[0])))
       == multiset(seq(|subjects|, i requires 0 <= i < |subjects| => NamedDigest(subjects[i].name, subjects[i].digest)))
  }

  /** Every document names the release it was asked for. */
  predicate NamesRelease(req: Request, e: Evidence, p: Provenance) {
    && e.schema == 1 && e.repository == req.repository && e.sourceSha == req.sourceSha && e.version == req.version
    && p.repository == req.repository && p.sourceSha == req.sourceSha && p.version == req.version
  }

  /** Every digest is that of what it names. */
  predicate Hashed(h: Hashes, r: Release, e: Evidence, sbom: Sbom, p: Provenance) {
    && e.sbomDigest == h.document(SbomDocument(sbom)) && p.sbomDigest == e.sbomDigest && e.provenanceDigest == h.document(ProvenanceDocument(p))
    && e.attestation == DigestAt(h, r, "PROVENANCE_ATTESTATION.json") && e.sbomAttestation == DigestAt(h, r, "SBOM_ATTESTATION.json")
    && e.fingerprint == h.document(FingerprintDocument(e.sourceSha, e.version, e.subjects, e.sbomDigest, e.provenanceDigest,
                                                       e.attestation, e.sbomAttestation))
  }

  ghost predicate Agrees(h: Hashes, r: Release, req: Request, requireProtected: bool) {
    r.evidence.Some? && r.sbom.Some? && r.provenance.Some? &&
    var e, sbom, p := r.evidence.value, r.sbom.value, r.provenance.value;
    && h.commitId(req.sourceSha) && NamesRelease(req, e, p) && Hashed(h, r, e, sbom, p)
    && e.subjects != [] && AreFiles(h, r, e.subjects) && ArePackages(sbom.packages, e.subjects) && p.subjects == e.subjects
    && e.identity == req.repository + "@" + req.sourceSha + ":" + Join(Named(e.subjects))
    && (requireProtected ==> e.isProtected && "PROVENANCE_ATTESTATION.json" in r.files && "SBOM_ATTESTATION.json" in r.files)
  }

  predicate HexFrom(s: string, from: nat) { forall i :: from <= i < |s| ==> '0' <= s[i] <= '9' || 'a' <= s[i] <= 'f' }

  lemma {:induction false} HexIff(s: string, from: nat)
    requires from <= |s|
    ensures Hexadecimal(s[from..]) <==> HexFrom(s, from)
    decreases |s| - from
  {
    if from < |s| {
      assert s[from..][1..] == s[from + 1..];
      HexIff(s, from + 1);
    }
  }

  lemma Sha256Iff(d: Digest)
    ensures Sha256(d) <==> IsSha256(d)
  {
    if |d| == 71 { HexIff(d, 7); }
  }

  lemma AreFilesIff(h: Hashes, r: Release, subjects: seq<Subject>)
    ensures SubjectsOk(h, r, subjects) <==> AreFiles(h, r, subjects)
  {
    forall i | 0 <= i < |subjects|
      ensures SubjectOk(h, r, subjects[i]) <==> (var s := subjects[i];
        && s.name != "" && h.plainName(s.name) && IsSha256(s.digest)
        && DigestAt(h, r, s.name) == Some(s.digest) && s.size == |r.files[s.name]|)
    {
      Sha256Iff(subjects[i].digest);
    }
  }

  lemma ArePackagesIff(sbom: Sbom, subjects: seq<Subject>)
    ensures SbomMatches(sbom, subjects) <==> ArePackages(sbom.packages, subjects)
  {
    var packages := sbom.packages;
    if forall i :: 0 <= i < |packages| ==> |packages[i].checksums| == 1 {
      assert forall i :: 0 <= i < |packages| ==> Single(packages[i]);
      assert SbomSubjects(packages) == seq(|packages|, i requires 0 <= i < |packages| && |packages[i].checksums| == 1 =>
                                             NamedDigest(packages[i].name, "sha256:" + packages[i].checksums[0]));
      assert Named(subjects) == seq(|subjects|, i requires 0 <= i < |subjects| => NamedDigest(subjects[i].name, subjects[i].digest));
    } else {
      var i :| 0 <= i < |packages| && |packages[i].checksums| != 1;
      assert !Single(packages[i]);
    }
  }

  /** Evidence verifies exactly if its documents agree with the release that is asked for, with the files, and with each other. */
  lemma VerifiedIff(h: Hashes, r: Release, req: Request, requireProtected: bool)
    ensures Verified(h, r, req, requireProtected) <==> Agrees(h, r, req, requireProtected)
  {
    if r.evidence.Some? && r.sbom.Some? && r.provenance.Some? {
      AreFilesIff(h, r, r.evidence.value.subjects);
      ArePackagesIff(r.sbom.value, r.evidence.value.subjects);
    }
  }

  // ---- Production ----

  /** What the producer publishes: every file but the two attestations and the two checksum lists. */
  lemma PublishableAre(r: Release, name: string)
    ensures name in Publishable(r) <==>
      name in r.files && name !in {"PROVENANCE_ATTESTATION.json", "SBOM_ATTESTATION.json", "SUBJECT_CHECKSUMS.sha256", "CHECKSUMS.sha256"}
  {
  }

  /** The documents of a build: one subject for each published file, a package for each subject, and everything named and hashed. */
  predicate Writes(h: Hashes, r: Release, req: Request, names: seq<string>, created: string, attestation: Option<Digest>, after: Release)
    requires forall i :: 0 <= i < |names| ==> names[i] in r.files
  {
    && after.files == r.files && after.evidence.Some? && after.sbom.Some? && after.provenance.Some?
    && var e, sbom, p := after.evidence.value, after.sbom.value, after.provenance.value;
    && NamesRelease(req, e, p) && p.subjects == e.subjects && p.created == created
    && |e.subjects| == |names| == |sbom.packages|
    && (forall i :: 0 <= i < |names| ==> e.subjects[i] == Subject(names[i], h.file(r.files[names[i]]), |r.files[names[i]]|))
    && (forall i :: 0 <= i < |names| ==> var p := sbom.packages[i];
         p.name == names[i] && |p.checksums| == 1 && ("sha256:" <= e.subjects[i].digest ==> "sha256:" + p.checksums[0] == e.subjects[i].digest))
    && sbom.title == req.version && sbom.created == created
    && sbom.documentNamespace == req.repository + "/" + req.version + "/" + req.sourceSha
    && e.identity == req.repository + "@" + req.sourceSha + ":" + Join(Named(e.subjects))
    && e.sbomDigest == h.document(SbomDocument(sbom)) && p.sbomDigest == e.sbomDigest && e.provenanceDigest == h.document(ProvenanceDocument(p))
    && e.attestation == attestation && e.sbomAttestation == DigestAt(h, r, "SBOM_ATTESTATION.json")
    && (e.isProtected <==> attestation.Some? && "SBOM_ATTESTATION.json" in r.files)
    && e.fingerprint == h.document(FingerprintDocument(req.sourceSha, req.version, e.subjects, e.sbomDigest, e.provenanceDigest,
                                                       e.attestation, e.sbomAttestation))
  }

  lemma ListedFiles(r: Release, names: seq<string>)
    requires Lists(r, names)
    ensures forall i :: 0 <= i < |names| ==> names[i] in r.files
  {
    forall i | 0 <= i < |names| ensures names[i] in r.files {
      assert names[i] in SetOf(names);
    }
  }

  /** The producer refuses exactly an unusual commit or version and a directory with nothing to publish. */
  lemma BuildWrites(h: Hashes, r: Release, req: Request, names: seq<string>, created: string, attestation: Option<Digest>)
    requires Lists(r, names)
    ensures forall i :: 0 <= i < |names| ==> names[i] in r.files
    ensures var built := Build(h, r, req, names, created, attestation);
      && (built.Ok? <==> h.commitId(req.sourceSha) && h.semver(req.version) && names != [])
      && (built.Ok? ==> Writes(h, r, req, names, created, attestation, built.value))
  {
    ListedFiles(r, names);
  }
}
