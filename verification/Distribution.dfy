/** Internal manifests and archives of a distribution (distribution.py). */
module Distribution {
  import opened Basics

  const MANIFEST_NAME := "MANIFEST.sha256"
  const MAX_ARCHIVE_FILES := 10000
  const MAX_ARCHIVE_UNCOMPRESSED_BYTES := 512 * 1024 * 1024
  const MAX_ARCHIVE_COMPRESSED_BYTES := 512 * 1024 * 1024
  const MAX_COMPRESSION_RATIO := 1000

  /** The file part of a package, by path. */
  type Files = map<string, string>

  predicate Above(dir: string, p: string) { 0 < |dir| < |p| && p[..|dir|] == dir && p[|dir|] == '/' }

  /** The directories above the files. */
  function Directories(files: Files): set<string> {
    set p, n | p in files && 0 < n < |p| && p[n] == '/' :: p[..n]
  }

  /** All paths a walk over the tree yields; empty directories are not in the model. */
  function Paths(files: Files): set<string> { files.Keys + Directories(files) }

  lemma DirectoryIs(files: Files, dir: string)
    ensures dir in Directories(files) <==> exists p :: p in files && Above(dir, p)
  {
    if p :| p in files && Above(dir, p) {
      assert p[..|dir|] == dir;
    }
  }

  /** Path portability, cross-platform collision keys, and SHA-256 in hexadecimal. */
  datatype Kit = Kit(portable: string -> Option<string>, key: string -> string, digest: string -> string)
  {
    /** Normalizing a path keeps a normal one, drops characters only, and accepts no control characters. */
    ghost predicate Normalizes() {
      forall p :: p != "" && portable(p).Some? ==> NormalOf(p)
    }

    predicate NormalOf(p: string)
      requires portable(p).Some?
    {
      var q := portable(p).value;
      && portable(q) == Some(q) && (forall i :: 0 <= i < |q| ==> q[i] in p)
      && forall i :: 0 <= i < |p| ==> !Control(p[i])
    }

    ghost predicate Hexadecimal() { forall b :: IsDigest(digest(b)) }
  }

  predicate Control(c: char) { c < ' ' || c == '\U{7f}' }

  predicate IsHex(c: char) { '0' <= c <= '9' || 'a' <= c <= 'f' }

  predicate IsDigest(s: string) { |s| == 64 && forall i :: 0 <= i < 64 ==> IsHex(s[i]) }

  // ---- Lines ----

  /** Where `str.splitlines` ends a line. */
  predicate Break(c: char) {
    '\n' <= c <= '\r' || '\U{1c}' <= c <= '\U{1e}' || c == '\U{85}' || c == '\U{2028}' || c == '\U{2029}'
  }

  predicate BreakFree(s: string) { forall i :: 0 <= i < |s| ==> !Break(s[i]) }

  /** The universal newlines of a text file. */
  function Universal(s: string): string {
    if s == "" then ""
    else if s[0] == '\r' then "\n" + Universal(if |s| > 1 && s[1] == '\n' then s[2..] else s[1..])
    else [s[0]] + Universal(s[1..])
  }

  /** `splitlines` on text without carriage returns; `line` is what was read of the current line. */
  function SplitFrom(line: string, s: string): seq<string>
    decreases |s|
  {
    if s == "" then (if line == "" then [] else [line])
    else if Break(s[0]) then [line] + SplitFrom("", s[1..])
    else SplitFrom(line + [s[0]], s[1..])
  }

  function Lines(text: string): seq<string> { SplitFrom("", Universal(text)) }

  // ---- Entries ----

  datatype Entry = Entry(digest: string, path: string)

  function LineOf(e: Entry): string { e.digest + "  " + e.path }

  /** write_internal_manifest */
  function Print(entries: seq<Entry>): string {
    if entries == [] then "" else LineOf(entries[0]) + "\n" + Print(entries[1..])
  }

  /** The pattern of one manifest line. */
  function ParseLine(line: string): Option<Entry> {
    if |line| > 66 && IsDigest(line[..64]) && line[64] == ' ' && line[65] == ' ' && (forall i :: 66 <= i < |line| ==> line[i] != '\n')
    then Some(Entry(line[..64], line[66..])) else None
  }

  /** The line is a well-formed entry with a portable path other than the manifest's own. */
  function ReadLine(k: Kit, line: string): Option<Entry> {
    var e := ParseLine(line);
    if e.None? then None
    else
      var path := k.portable(e.value.path);
      if path.None? || path.value == MANIFEST_NAME then None else Some(Entry(e.value.digest, path.value))
  }

  /** What each line of the manifest says. */
  function ReadAll(k: Kit, lines: seq<string>): seq<Option<Entry>> {
    seq(|lines|, i requires 0 <= i < |lines| => ReadLine(k, lines[i]))
  }

  predicate Apart(k: Kit, a: Option<Entry>, b: Option<Entry>) {
    a.Some? && b.Some? ==> a.value.path != b.value.path && k.key(a.value.path) != k.key(b.value.path)
  }

  /** All lines are entries, and no two of them collide on any platform. */
  predicate Readable(k: Kit, items: seq<Option<Entry>>) {
    (forall i :: 0 <= i < |items| ==> items[i].Some?) && forall i, j :: 0 <= i < j < |items| ==> Apart(k, items[i], items[j])
  }

  /** The digests a manifest lists, by path. */
  function Expected(items: seq<Option<Entry>>): map<string, string> {
    if items == [] then map[]
    else
      var last := items[|items| - 1];
      if last.Some? then Expected(items[..|items| - 1])[last.value.path := last.value.digest] else Expected(items[..|items| - 1])
  }

  function Digests(k: Kit, files: Files): map<string, string> {
    map p | p in files && p != MANIFEST_NAME :: k.digest(files[p])
  }

  /** Every path is portable as it stands, and no two differ only in what some platform ignores. */
  predicate Portable(k: Kit, paths: set<string>) {
    && (forall p :: p in paths ==> k.portable(p).Some?)
    && (forall p, q :: p in paths && q in paths && k.key(Normal(k, p)) == k.key(Normal(k, q)) ==> Normal(k, p) == Normal(k, q))
  }

  function Normal(k: Kit, p: string): string { if k.portable(p).Some? then k.portable(p).value else p }

  /** verify_internal_manifest reports the package as valid: the manifest lists exactly its files. */
  predicate Valid(k: Kit, files: Files) {
    && MANIFEST_NAME in files && Portable(k, Paths(files))
    && Readable(k, ReadAll(k, Lines(files[MANIFEST_NAME])))
    && Expected(ReadAll(k, Lines(files[MANIFEST_NAME]))) == Digests(k, files)
  }

  datatype ManifestError = NoManifest | Malformed | Unsafe | Duplicate | NotPortable | Collision | MissingFiles | UnlistedFiles | DigestMismatch

  // ---- verify_internal_manifest ----

  /** The loop over the manifest's lines. */
  method ReadManifest(k: Kit, lines: seq<string>) returns (errors: seq<ManifestError>, expected: map<string, string>)
    ensures errors == [] <==> Readable(k, ReadAll(k, lines))
    ensures errors == [] ==> expected == Expected(ReadAll(k, lines))
  {
    errors, expected := [], map[];
    ghost var items := ReadAll(k, lines);
    var keys: map<string, string> := map[];
    for i := 0 to |lines|
      invariant errors == [] <==> Readable(k, items[..i])
      invariant errors == [] ==> expected == Expected(items[..i]) && keys.Keys == set p | p in expected :: k.key(p)
    {
      var e := ReadLine(k, lines[i]);
      assert items[..i + 1] == items[..i] + [e];
      ReadableNext(k, items[..i], e);
      if e.None? {
        errors := errors + [if ParseLine(lines[i]).None? then Malformed else Unsafe];
      } else if e.value.path in expected || k.key(e.value.path) in keys {
        errors := errors + [Duplicate];
      } else {
        expected := expected[e.value.path := e.value.digest];
        keys := keys[k.key(e.value.path) := e.value.path];
      }
    }
    assert items[..|items|] == items;
  }

  lemma {:induction false} ExpectedPaths(items: seq<Option<Entry>>, p: string)
    ensures p in Expected(items) <==> exists i :: 0 <= i < |items| && items[i].Some? && items[i].value.path == p
  {
    if items != [] {
      ExpectedPaths(items[..|items| - 1], p);
    }
  }

  /** One more entry keeps a manifest readable exactly when neither its path nor its key is there yet. */
  lemma {:induction false} ReadableNext(k: Kit, items: seq<Option<Entry>>, e: Option<Entry>)
    ensures Readable(k, items + [e]) <==>
      && Readable(k, items) && e.Some?
      && e.value.path !in Expected(items) && k.key(e.value.path) !in set p | p in Expected(items) :: k.key(p)
  {
    var longer := items + [e];
    forall p {
      ExpectedPaths(items, p);
    }
    if Readable(k, longer) {
      assert forall i :: 0 <= i < |items| ==> longer[i] == items[i];
      assert longer[|items|] == e;
      forall p | p in Expected(items) ensures p != e.value.path && k.key(p) != k.key(e.value.path) {
        var i :| 0 <= i < |items| && items[i].Some? && items[i].value.path == p;
        assert Apart(k, longer[i], longer[|items|]);
      }
    }
    if Readable(k, items) && e.Some? && e.value.path !in Expected(items) && k.key(e.value.path) !in set p | p in Expected(items) :: k.key(p) {
      forall i | 0 <= i < |items| ensures Apart(k, items[i], e) {
        assert items[i].value.path in Expected(items);
      }
    }
  }

  /** The loop over the packaged paths, directories included. */
  method CheckPaths(k: Kit, paths: set<string>) returns (errors: seq<ManifestError>)
    ensures errors == [] <==> Portable(k, paths)
  {
    errors := [];
    var found: map<string, string> := map[];
    var remaining := paths;
    while remaining != {}
      invariant remaining <= paths
      invariant errors == [] <==> Portable(k, paths - remaining)
      invariant errors == [] ==> forall p :: p in paths - remaining ==> k.key(Normal(k, p)) in found && found[k.key(Normal(k, p))] == Normal(k, p)
      invariant errors == [] ==> forall key :: key in found ==> exists p :: p in paths - remaining && k.key(Normal(k, p)) == key
      decreases remaining
    {
      var path :| path in remaining;
      PortableNext(k, paths - remaining, path);
      assert paths - (remaining - {path}) == (paths - remaining) + {path};
      remaining := remaining - {path};
      if k.portable(path).None? {
        errors := errors + [NotPortable];
      } else {
        var normal := Normal(k, path);
        if k.key(normal) in found && found[k.key(normal)] != normal {
          errors := errors + [Collision];
        }
        found := found[k.key(normal) := normal];
      }
    }
    assert paths - remaining == paths;
  }

  lemma PortableNext(k: Kit, paths: set<string>, path: string)
    ensures Portable(k, paths + {path}) <==>
      && Portable(k, paths) && k.portable(path).Some?
      && forall p :: p in paths && k.key(Normal(k, p)) == k.key(Normal(k, path)) ==> Normal(k, p) == Normal(k, path)
  {
  }

  method CompareDigests(expected: map<string, string>, actual: map<string, string>) returns (errors: seq<ManifestError>)
    ensures errors == [] <==> expected == actual
  {
    errors := [];
    if expected.Keys - actual.Keys != {} { errors := errors + [MissingFiles]; }
    if actual.Keys - expected.Keys != {} { errors := errors + [UnlistedFiles]; }
    if exists p :: p in expected && p in actual && expected[p] != actual[p] { errors := errors + [DigestMismatch]; }
    if errors == [] {
      assert expected.Keys == actual.Keys;
    }
  }

  method VerifyInternalManifest(k: Kit, files: Files) returns (errors: seq<ManifestError>)
    ensures errors == [] <==> Valid(k, files)
  {
    if MANIFEST_NAME !in files {
      return [NoManifest];
    }
    var readErrors, expected := ReadManifest(k, Lines(files[MANIFEST_NAME]));
    var pathErrors := CheckPaths(k, Paths(files));
    var digestErrors := CompareDigests(expected, Digests(k, files));
    errors := readErrors + pathErrors + digestErrors;
    assert errors == [] <==> readErrors == [] && pathErrors == [] && digestErrors == [];
  }
}
