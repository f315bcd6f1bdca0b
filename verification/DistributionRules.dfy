/** What a manifest and an archive must be to be accepted, line by line and member by member. */
module DistributionRules {
  import opened Basics
  import opened Distribution
  import opened ManifestRoundTrip
  import opened Archive

  // ---- Lines ----

  /** The characters that end a line: line feed, vertical tab, form feed, carriage return, the file, group and record
      separators, the next line, and the line and paragraph separators. */
  const BREAKS: set<char> := {'\n', '\U{b}', '\U{c}', '\r', '\U{1c}', '\U{1d}', '\U{1e}', '\U{85}', '\U{2028}', '\U{2029}'}

  lemma BreaksAre(c: char)
    ensures Break(c) <==> c in BREAKS
  {
  }

  predicate Hex64(s: string) { |s| == 64 && forall i :: 0 <= i < 64 ==> '0' <= s[i] <= '9' || 'a' <= s[i] <= 'f' }

  /** A line is the entry of 64 hexadecimal digits, two spaces and a path of at least one character and no line feed, and no other. */
  lemma EntryLine(line: string, e: Entry)
    ensures ParseLine(line) == Some(e) <==> Hex64(e.digest) && e.path != "" && '\n' !in e.path && line == e.digest + "  " + e.path
  {
    if ParseLine(line) == Some(e) {
      assert line == line[..64] + "  " + line[66..];
    }
    if Hex64(e.digest) && e.path != "" && '\n' !in e.path && line == e.digest + "  " + e.path {
      assert line[..64] == e.digest && line[66..] == e.path;
      forall i | 66 <= i < |line| ensures line[i] != '\n' { assert line[i] == e.path[i - 66]; }
    }
  }

  // ---- Manifests ----

  /** The line lists this normalized path with this digest. */
  predicate Lists(k: Kit, line: string, path: string, digest: string) {
    && |line| > 66 && Hex64(line[..64]) && line[64..66] == "  " && '\n' !in line[66..]
    && digest == line[..64] && k.portable(line[66..]) == Some(path) && path != "MANIFEST.sha256"
  }

  lemma ListsIff(k: Kit, line: string, path: string, digest: string)
    ensures ReadLine(k, line) == Some(Entry(digest, path)) <==> Lists(k, line, path, digest)
  {
    if |line| > 66 {
      assert line[64..66] == [line[64], line[65]];
      assert '\n' !in line[66..] <==> forall i :: 66 <= i < |line| ==> line[i] != '\n' by {
        assert forall i :: 66 <= i < |line| ==> line[i] == line[66..][i - 66];
      }
    }
  }

  ghost predicate ListsSome(k: Kit, line: string) { exists path, digest :: Lists(k, line, path, digest) }

  /** Every line lists some path, and no two list one path, or two that are the same on some platform. */
  ghost predicate ListsApart(k: Kit, lines: seq<string>) {
    && (forall i :: 0 <= i < |lines| ==> ListsSome(k, lines[i]))
    && (forall i, j, p, q, c, d :: 0 <= i < j < |lines| && Lists(k, lines[i], p, c) && Lists(k, lines[j], q, d) ==> k.key(p) != k.key(q) && p != q)
  }

  lemma ReadIs(k: Kit, line: string)
    ensures ReadLine(k, line).Some? <==> ListsSome(k, line)
    ensures ReadLine(k, line).Some? ==> Lists(k, line, ReadLine(k, line).value.path, ReadLine(k, line).value.digest)
  {
    if ReadLine(k, line).Some? {
      ListsIff(k, line, ReadLine(k, line).value.path, ReadLine(k, line).value.digest);
    }
    if path, digest :| Lists(k, line, path, digest) {
      ListsIff(k, line, path, digest);
    }
  }

  lemma ReadableLists(k: Kit, lines: seq<string>)
    requires Readable(k, ReadAll(k, lines))
    ensures ListsApart(k, lines)
  {
    var items := ReadAll(k, lines);
    forall i | 0 <= i < |lines| ensures ListsSome(k, lines[i]) {
      assert items[i].Some?;
      ReadIs(k, lines[i]);
    }
    forall i, j, p, q, c, d | 0 <= i < j < |lines| && Lists(k, lines[i], p, c) && Lists(k, lines[j], q, d)
      ensures k.key(p) != k.key(q) && p != q
    {
      ListsIff(k, lines[i], p, c);
      ListsIff(k, lines[j], q, d);
      assert Apart(k, items[i], items[j]);
    }
  }

  lemma ListsReadable(k: Kit, lines: seq<string>)
    requires ListsApart(k, lines)
    ensures Readable(k, ReadAll(k, lines))
  {
    var items := ReadAll(k, lines);
    forall i | 0 <= i < |items| ensures items[i].Some? && Lists(k, lines[i], items[i].value.path, items[i].value.digest) {
      ReadIs(k, lines[i]);
    }
    forall i, j | 0 <= i < j < |items| ensures Apart(k, items[i], items[j]) {
      assert Lists(k, lines[i], items[i].value.path, items[i].value.digest) && Lists(k, lines[j], items[j].value.path, items[j].value.digest);
    }
  }

  lemma ApartIff(k: Kit, lines: seq<string>)
    ensures Readable(k, ReadAll(k, lines)) <==> ListsApart(k, lines)
  {
    if Readable(k, ReadAll(k, lines)) { ReadableLists(k, lines); }
    if ListsApart(k, lines) { ListsReadable(k, lines); }
  }

  lemma {:induction false} ExpectedHolds(k: Kit, items: seq<Option<Entry>>, i: nat)
    requires Readable(k, items) && i < |items|
    ensures var e := items[i].value; e.path in Expected(items) && Expected(items)[e.path] == e.digest
  {
    var n := |items| - 1;
    if i < n {
      assert forall j :: 0 <= j < n ==> items[..n][j] == items[j];
      ExpectedHolds(k, items[..n], i);
      assert Apart(k, items[i], items[n]);
    }
  }

  predicate ListedWith(k: Kit, lines: seq<string>, path: string, digest: string) {
    exists i :: 0 <= i < |lines| && Lists(k, lines[i], path, digest)
  }

  lemma ExpectedIs(k: Kit, lines: seq<string>, path: string, digest: string)
    requires ListsApart(k, lines)
    ensures var expected := Expected(ReadAll(k, lines)); path in expected && expected[path] == digest <==> ListedWith(k, lines, path, digest)
  {
    var items := ReadAll(k, lines);
    ApartIff(k, lines);
    ExpectedPaths(items, path);
    if i :| 0 <= i < |items| && items[i].Some? && items[i].value.path == path {
      ExpectedHolds(k, items, i);
      ListsIff(k, lines[i], path, items[i].value.digest);
      assert ReadLine(k, lines[i]) == Some(Entry(items[i].value.digest, path));
    }
    if i :| 0 <= i < |lines| && Lists(k, lines[i], path, digest) {
      ListsIff(k, lines[i], path, digest);
      ExpectedHolds(k, items, i);
    }
  }

  predicate SameKey(k: Kit, p: string, q: string) {
    k.portable(p).Some? && k.portable(q).Some? && k.key(k.portable(p).value) == k.key(k.portable(q).value)
  }

  /** No path of the package is unusual, and no two are one path on some platform while they differ. */
  ghost predicate PathsFit(k: Kit, files: Files) {
    && (forall p :: p in files || (exists q :: q in files && Above(p, q)) ==> k.portable(p).Some?)
    && (forall p, q :: p in Paths(files) && q in Paths(files) && SameKey(k, p, q) ==> k.portable(p) == k.portable(q))
  }

  lemma PathsIff(k: Kit, files: Files)
    ensures Portable(k, Paths(files)) <==> PathsFit(k, files)
  {
    forall p ensures p in Paths(files) <==> p in files || exists q :: q in files && Above(p, q) {
      DirectoryIs(files, p);
    }
  }

  /** A package verifies exactly if its paths fit, each line of its manifest lists a path apart from the others, and what is
      listed are its files but the manifest, with the digests of their bytes. */
  lemma ValidIff(k: Kit, files: Files)
    ensures Valid(k, files) <==>
      && "MANIFEST.sha256" in files && PathsFit(k, files) && ListsApart(k, Lines(files["MANIFEST.sha256"]))
      && forall p, d :: ListedWith(k, Lines(files["MANIFEST.sha256"]), p, d) <==> p in files && p != "MANIFEST.sha256" && d == k.digest(files[p])
  {
    PathsIff(k, files);
    if MANIFEST_NAME in files {
      var lines := Lines(files[MANIFEST_NAME]);
      ApartIff(k, lines);
      if ListsApart(k, lines) {
        ListedIff(k, files, lines);
      }
    }
  }

  lemma ListedIff(k: Kit, files: Files, lines: seq<string>)
    requires ListsApart(k, lines)
    ensures Expected(ReadAll(k, lines)) == Digests(k, files) <==>
      forall p, d :: ListedWith(k, lines, p, d) <==> p in files && p != "MANIFEST.sha256" && d == k.digest(files[p])
  {
    var expected, actual := Expected(ReadAll(k, lines)), Digests(k, files);
    forall p, d ensures p in expected && expected[p] == d <==> ListedWith(k, lines, p, d) {
      ExpectedIs(k, lines, p, d);
    }
    if forall p, d :: ListedWith(k, lines, p, d) <==> p in files && p != "MANIFEST.sha256" && d == k.digest(files[p]) {
      forall p ensures p in expected <==> p in actual
        ensures p in expected ==> expected[p] == actual[p]
      {
        if p in expected { assert ListedWith(k, lines, p, expected[p]); }
        if p in actual { assert ListedWith(k, lines, p, actual[p]); }
      }
      assert expected == actual;
    }
  }

  // ---- Copies ----

  /** A copy looks at every path of the tree, directories included, whose own name is not excluded, and demands that it is
      portable as it stands and no other such path is the same on some platform; it then holds the files not excluded. */
  lemma CopyIff(k: Kit, source: Files, excluded: string -> bool)
    ensures CleanPaths(k, Examined(source, excluded)) <==>
      && (forall p :: p in Paths(source) && !excluded(p) ==> k.portable(p) == Some(p))
      && (forall p, q :: p in Paths(source) && q in Paths(source) && !excluded(p) && !excluded(q) && p != q ==> k.key(p) != k.key(q))
    ensures forall p :: p in Kept(source, excluded) <==> p in source && !excluded(p)
    ensures forall p :: p in Kept(source, excluded) ==> Kept(source, excluded)[p] == source[p]
  {
    assert forall p :: p in Examined(source, excluded) <==> p in Paths(source) && !excluded(p);
  }

  // ---- Archives ----

  /** A member is neither encrypted, linked nor special, below the one top-level directory, under a portable path, and unpacks to
      no more than a thousand times its size; and no file stands for the top-level directory itself. */
  predicate MemberFits(k: Kit, top: string, m: Member) {
    && m.sound && m.top == top && k.portable(m.path).Some? && |m.data| <= 1000 * m.compressed
    && (k.portable(m.path) == Some(".") ==> m.directory)
  }

  /** Two members have different paths on every platform, and neither is a file where the other needs a directory. */
  predicate MembersFit(k: Kit, a: Member, b: Member)
    requires k.portable(a.path).Some? && k.portable(b.path).Some?
  {
    var p, q := k.portable(a.path).value, k.portable(b.path).value;
    && p != q && k.key(p) != k.key(q) && (Above(p, q) ==> a.directory) && (Above(q, p) ==> b.directory)
  }

  lemma MemberIff(k: Kit, top: string, m: Member)
    ensures MemberOk(k, top, m) <==> MemberFits(k, top, m)
  {
  }

  lemma ApartMembers(k: Kit, a: Member, b: Member)
    requires k.portable(a.path).Some? && k.portable(b.path).Some?
    ensures MembersApart(k, a, b) <==> MembersFit(k, a, b)
  {
  }

  /** An archive is extracted exactly if it holds one to ten thousand members, no more than 512 MiB, packed and unpacked, and all
      its members fit, by themselves and beside each other. */
  lemma ExtractableIff(k: Kit, top: string, members: seq<Member>, size: nat)
    ensures Extractable(k, top, members, size) <==>
      && size <= 536870912 && Sizes(members) <= 536870912 && 1 <= |members| <= 10000
      && (forall i :: 0 <= i < |members| ==> MemberFits(k, top, members[i]))
      && (forall i, j :: 0 <= i < j < |members| ==> MembersFit(k, members[i], members[j]))
  {
    forall i | 0 <= i < |members| ensures MemberOk(k, top, members[i]) <==> MemberFits(k, top, members[i]) {
      MemberIff(k, top, members[i]);
    }
    if forall i :: 0 <= i < |members| ==> MemberFits(k, top, members[i]) {
      forall i, j | 0 <= i < j < |members| ensures MembersApart(k, members[i], members[j]) <==> MembersFit(k, members[i], members[j]) {
        ApartMembers(k, members[i], members[j]);
      }
    }
  }

  /** What an extracted archive leaves: each file member under its path with its bytes, and nothing else. */
  lemma {:induction false} UnpackedFiles(k: Kit, top: string, members: seq<Member>, path: string, bytes: string)
    requires Accepted(k, top, members)
    ensures path in Unpacked(k, members) && Unpacked(k, members)[path] == bytes <==>
      exists i :: 0 <= i < |members| && !members[i].directory && k.portable(members[i].path) == Some(path) && members[i].data == bytes
  {
    if members != [] {
      var n := |members| - 1;
      AcceptedPrefix(k, top, members, n);
      UnpackedFiles(k, top, members[..n], path, bytes);
      assert forall i :: 0 <= i < n ==> members[..n][i] == members[i];
      assert forall i :: 0 <= i < n ==> MembersApart(k, members[i], members[n]);
    }
  }
}
