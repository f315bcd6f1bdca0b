/** A manifest written for a clean tree is read back as that tree, unless a path holds a Unicode line separator. */
module ManifestRoundTrip {
  import opened Basics
  import opened Distribution

  // ---- Splitting what was printed ----

  lemma {:induction false} UniversalUnchanged(s: string)
    requires forall i :: 0 <= i < |s| ==> s[i] != '\r'
    ensures Universal(s) == s
  {
    if s != "" {
      UniversalUnchanged(s[1..]);
    }
  }

  lemma {:induction false} SplitLine(read: string, line: string, rest: string)
    requires BreakFree(line)
    ensures SplitFrom(read, line + "\n" + rest) == [read + line] + SplitFrom("", rest)
    decreases |line|
  {
    var s := line + "\n" + rest;
    if line == "" {
      assert s[1..] == rest && read + line == read;
    } else {
      assert s[1..] == line[1..] + "\n" + rest;
      SplitLine(read + [line[0]], line[1..], rest);
      assert read + [line[0]] + line[1..] == read + line;
    }
  }

  /** The lines the verifier reads never contain a line separator of any kind. */
  lemma {:induction false} SplitIsBreakFree(read: string, s: string)
    requires BreakFree(read)
    ensures forall i :: 0 <= i < |SplitFrom(read, s)| ==> BreakFree(SplitFrom(read, s)[i])
    decreases |s|
  {
    if s != "" {
      if Break(s[0]) {
        SplitIsBreakFree("", s[1..]);
      } else {
        SplitIsBreakFree(read + [s[0]], s[1..]);
      }
    }
  }

  function LinesOf(entries: seq<Entry>): seq<string> {
    seq(|entries|, i requires 0 <= i < |entries| => LineOf(entries[i]))
  }

  lemma {:induction false} PrintedLines(entries: seq<Entry>)
    requires forall i :: 0 <= i < |entries| ==> BreakFree(LineOf(entries[i]))
    ensures SplitFrom("", Print(entries)) == LinesOf(entries)
  {
    if entries != [] {
      SplitLine("", LineOf(entries[0]), Print(entries[1..]));
      assert "" + LineOf(entries[0]) == LineOf(entries[0]);
      PrintedLines(entries[1..]);
      assert LinesOf(entries) == [LineOf(entries[0])] + LinesOf(entries[1..]);
    }
  }

  lemma {:induction false} PrintedIsPlain(entries: seq<Entry>)
    requires forall i :: 0 <= i < |entries| ==> BreakFree(LineOf(entries[i]))
    ensures forall i :: 0 <= i < |Print(entries)| ==> Print(entries)[i] != '\r'
  {
    if entries != [] {
      PrintedIsPlain(entries[1..]);
    }
  }

  /** A printed line is the entry it was printed for. */
  lemma ParsePrinted(e: Entry)
    requires IsDigest(e.digest) && e.path != "" && BreakFree(e.path)
    ensures ParseLine(LineOf(e)) == Some(e) && BreakFree(LineOf(e))
  {
    var line := LineOf(e);
    assert line[..64] == e.digest && line[66..] == e.path;
    forall i | 0 <= i < |line| ensures !Break(line[i]) {
      if i < 64 {
        assert IsHex(e.digest[i]);
      } else if i >= 66 {
        assert line[i] == e.path[i - 66];
      }
    }
  }

  // ---- Clean trees ----

  /** Normal portable paths that no platform confuses. */
  predicate CleanPaths(k: Kit, paths: set<string>) {
    && (forall p :: p in paths ==> k.portable(p) == Some(p))
    && (forall p, q :: p in paths && q in paths && k.key(p) == k.key(q) ==> p == q)
  }

  /** Files and directories have names and are clean, and none is called as the manifest, which the copy skips. */
  predicate Clean(k: Kit, files: Files) { "" !in files && CleanPaths(k, Paths(files)) && MANIFEST_NAME !in Paths(files) }

  /** No path is a platform's other spelling of the manifest; the copy, which skips the manifest, cannot tell. */
  predicate NoTwin(k: Kit, paths: set<string>) { forall p :: p in paths ==> k.key(p) != k.key(MANIFEST_NAME) }

  predicate IndexedBy(k: Kit, portable: map<string, string>, p: string) { k.key(p) in portable && portable[k.key(p)] == p }

  /** The files of the source without its excluded paths. */
  function Kept(source: Files, excluded: string -> bool): Files { map p | p in source && !excluded(p) :: source[p] }

  /** The paths the copy looks at: exclusion is asked of each path by itself. */
  function Examined(source: Files, excluded: string -> bool): set<string> { set p | p in Paths(source) && !excluded(p) }

  /** The walk of _assert_regular_source_tree over the examined paths. */
  method CheckCleanPaths(k: Kit, paths: set<string>) returns (clean: bool)
    requires forall p :: p in paths && k.portable(p).Some? ==> k.portable(p) == Some(p)
    ensures clean <==> CleanPaths(k, paths)
  {
    var portable: map<string, string> := map[];
    var remaining := paths;
    while remaining != {}
      invariant remaining <= paths
      invariant forall p :: p in paths - remaining ==> k.portable(p) == Some(p) && IndexedBy(k, portable, p)
      invariant forall c :: c in portable ==> portable[c] in paths && k.key(portable[c]) == c
      decreases remaining
    {
      var p :| p in remaining;
      remaining := remaining - {p};
      var normal, key := k.portable(p), k.key(p);
      if normal.None? || (key in portable && portable[key] != p) {
        return false;
      }
      portable := portable[key := p];
    }
    return true;
  }

  /** _assert_regular_source_tree and _copy_clean_tree, on paths as a file system lists them. */
  method CopyCleanTree(k: Kit, source: Files, excluded: string -> bool) returns (r: Result<Files>)
    requires forall p :: p in Paths(source) && k.portable(p).Some? ==> k.portable(p) == Some(p)
    ensures r == if CleanPaths(k, Examined(source, excluded)) then Ok(Kept(source, excluded)) else Err(ValueError)
  {
    var clean := CheckCleanPaths(k, Examined(source, excluded));
    if !clean {
      return Err(ValueError);
    }
    var kept: Files := map[];
    var remaining := source.Keys;
    while remaining != {}
      invariant remaining <= source.Keys
      invariant kept == map p | p in source && p !in remaining && !excluded(p) :: source[p]
      decreases remaining
    {
      var p :| p in remaining;
      remaining := remaining - {p};
      if !excluded(p) {
        kept := kept[p := source[p]];
      }
    }
    assert kept == Kept(source, excluded);
    return Ok(kept);
  }

  /** A copy is clean, directories included, when no kept file lies below an excluded name: the copy itself does not
      look at a directory whose name it excludes, such as one that ends in `.pyc`, and takes the files in it. */
  lemma CopyIsClean(k: Kit, source: Files, excluded: string -> bool)
    requires CleanPaths(k, Examined(source, excluded)) && excluded(MANIFEST_NAME) && "" !in source
    requires forall dir :: dir in Directories(Kept(source, excluded)) ==> !excluded(dir)
    ensures Clean(k, Kept(source, excluded))
  {
    var kept := Kept(source, excluded);
    forall p | p in Paths(kept) ensures p in Examined(source, excluded) {
      if p !in kept {
        DirectoryIs(kept, p);
        DirectoryIs(source, p);
      }
    }
  }

  predicate Orders(files: Files, order: seq<string>) { Distinct(order) && SetOf(order) == files.Keys }

  function EntriesOf(k: Kit, files: Files, order: seq<string>): seq<Entry>
    requires forall p :: p in order ==> p in files
  {
    seq(|order|, i requires 0 <= i < |order| => Entry(k.digest(files[order[i]]), order[i]))
  }

  function WithManifest(k: Kit, files: Files, order: seq<string>): Files
    requires forall p :: p in order ==> p in files
  {
    files[MANIFEST_NAME := Print(EntriesOf(k, files, order))]
  }

  lemma OrderListsFiles(files: Files, order: seq<string>)
    requires Orders(files, order)
    ensures forall p :: p in order <==> p in files
  {
  }

  lemma EntryReadsBack(k: Kit, files: Files, p: string)
    requires k.Normalizes() && k.Hexadecimal() && Clean(k, files) && p in files && BreakFree(p)
    ensures var e := Entry(k.digest(files[p]), p); ReadLine(k, LineOf(e)) == Some(e) && BreakFree(LineOf(e))
  {
    assert k.NormalOf(p);
    ParsePrinted(Entry(k.digest(files[p]), p));
  }

  /** The manifest of a clean tree with breakless paths is read as exactly its entries. */
  lemma ManifestReads(k: Kit, files: Files, order: seq<string>)
    requires k.Normalizes() && k.Hexadecimal() && Clean(k, files) && Orders(files, order)
    requires forall p :: p in files ==> BreakFree(p)
    ensures (forall p :: p in order ==> p in files)
    ensures ItemsOf(k, files, order, ReadAll(k, Lines(Print(EntriesOf(k, files, order)))))
  {
    OrderListsFiles(files, order);
    var entries := EntriesOf(k, files, order);
    forall i | 0 <= i < |entries| ensures ReadLine(k, LineOf(entries[i])) == Some(entries[i]) && BreakFree(LineOf(entries[i])) {
      assert order[i] in files;
      EntryReadsBack(k, files, order[i]);
    }
    PrintedIsPlain(entries);
    UniversalUnchanged(Print(entries));
    PrintedLines(entries);
  }

  lemma {:induction false} ExpectedDigest(k: Kit, items: seq<Option<Entry>>, i: nat)
    requires Readable(k, items) && i < |items|
    ensures items[i].value.path in Expected(items) && Expected(items)[items[i].value.path] == items[i].value.digest
  {
    var n := |items| - 1;
    if i < n {
      assert Apart(k, items[i], items[n]);
      ExpectedDigest(k, items[..n], i);
    }
  }

  /** The items are the entries of the files, in order. */
  predicate ItemsOf(k: Kit, files: Files, order: seq<string>, items: seq<Option<Entry>>) {
    |items| == |order| && forall i :: 0 <= i < |order| ==> order[i] in files && items[i] == Some(Entry(k.digest(files[order[i]]), order[i]))
  }

  lemma ItemsReadable(k: Kit, files: Files, order: seq<string>, items: seq<Option<Entry>>)
    requires Clean(k, files) && Distinct(order) && ItemsOf(k, files, order, items)
    ensures Readable(k, items)
  {
  }

  lemma {:induction false} ItemsExpected(k: Kit, files: Files, order: seq<string>, items: seq<Option<Entry>>, p: string)
    requires Readable(k, items) && ItemsOf(k, files, order, items)
    ensures p in Expected(items) <==> p in order
    ensures p in Expected(items) ==> p in files && Expected(items)[p] == k.digest(files[p])
  {
    ExpectedPaths(items, p);
    if p in order {
      var i :| 0 <= i < |order| && order[i] == p;
      assert items[i].value.path == p;
      ExpectedDigest(k, items, i);
    }
  }

  lemma {:induction false} ItemsDigests(k: Kit, files: Files, order: seq<string>, items: seq<Option<Entry>>)
    requires Clean(k, files) && Orders(files, order) && ItemsOf(k, files, order, items)
    ensures Readable(k, items) && Expected(items) == Digests(k, files)
  {
    ItemsReadable(k, files, order, items);
    OrderListsFiles(files, order);
    forall p ensures p in Expected(items) <==> p in Digests(k, files) {
      ItemsExpected(k, files, order, items, p);
    }
    forall p | p in files ensures Expected(items)[p] == k.digest(files[p]) {
      ItemsExpected(k, files, order, items, p);
    }
  }

  lemma CleanIsPortable(k: Kit, files: Files, text: string)
    requires Clean(k, files) && k.portable(MANIFEST_NAME) == Some(MANIFEST_NAME)
    ensures Portable(k, Paths(files[MANIFEST_NAME := text])) <==> NoTwin(k, Paths(files))
    ensures Digests(k, files[MANIFEST_NAME := text]) == Digests(k, files)
  {
    PathsWithManifest(files, text);
    OneMorePath(k, Paths(files));
  }

  lemma OneMorePath(k: Kit, paths: set<string>)
    requires CleanPaths(k, paths) && MANIFEST_NAME !in paths && k.portable(MANIFEST_NAME) == Some(MANIFEST_NAME)
    ensures Portable(k, paths + {MANIFEST_NAME}) <==> NoTwin(k, paths)
  {
    var all := paths + {MANIFEST_NAME};
    if Portable(k, all) {
      assert MANIFEST_NAME in all;
      forall p | p in paths ensures k.key(p) != k.key(MANIFEST_NAME) {
        assert p in all;
      }
    }
  }

  /** The manifest lies in no directory of its own. */
  lemma PathsWithManifest(files: Files, text: string)
    requires MANIFEST_NAME !in Paths(files)
    ensures Paths(files[MANIFEST_NAME := text]) == Paths(files) + {MANIFEST_NAME}
  {
    var all := files[MANIFEST_NAME := text];
    forall dir ensures dir in Directories(all) <==> dir in Directories(files) {
      DirectoryIs(all, dir);
      DirectoryIs(files, dir);
      TopLevel(dir);
      if p :| p in files && Above(dir, p) {
        assert p in all;
      }
    }
  }

  lemma TopLevel(dir: string)
    ensures !Above(dir, MANIFEST_NAME)
  {
    assert forall i :: 0 <= i < |MANIFEST_NAME| ==> MANIFEST_NAME[i] != '/';
  }

  /** What a manifest lists never contains a line separator, so no such file can ever be listed. */
  lemma ListedIsBreakFree(k: Kit, text: string, p: string)
    requires k.Normalizes() && p in Expected(ReadAll(k, Lines(text)))
    ensures BreakFree(p)
  {
    var lines := Lines(text);
    ExpectedPaths(ReadAll(k, lines), p);
    var i :| 0 <= i < |lines| && ReadLine(k, lines[i]).Some? && ReadLine(k, lines[i]).value.path == p;
    SplitIsBreakFree("", Universal(text));
    var path := ParseLine(lines[i]).value.path;
    assert forall j :: 0 <= j < |path| ==> path[j] == lines[i][66 + j];
    assert k.NormalOf(path);
  }

  /** A clean tree verifies against the manifest just written for it if and only if no path of it contains a
      line separator or is another spelling of the manifest's own. */
  lemma ManifestValidIff(k: Kit, files: Files, order: seq<string>)
    requires k.Normalizes() && k.Hexadecimal() && k.portable(MANIFEST_NAME) == Some(MANIFEST_NAME)
    requires Clean(k, files) && Orders(files, order)
    ensures forall p :: p in order ==> p in files
    ensures Valid(k, WithManifest(k, files, order)) <==> NoTwin(k, Paths(files)) && forall p :: p in files ==> BreakFree(p)
  {
    OrderListsFiles(files, order);
    var text := Print(EntriesOf(k, files, order));
    ValidMeans(k, files, text);
    if forall p :: p in files ==> BreakFree(p) {
      ManifestReads(k, files, order);
      ItemsDigests(k, files, order, ReadAll(k, Lines(text)));
    } else if Expected(ReadAll(k, Lines(text))) == Digests(k, files) {
      forall p | p in files ensures BreakFree(p) {
        assert p in Digests(k, files);
        ListedIsBreakFree(k, text, p);
      }
    }
  }

  /** A clean tree with any manifest text is valid when the text is readable and lists its digests. */
  lemma ValidMeans(k: Kit, files: Files, text: string)
    requires Clean(k, files) && k.portable(MANIFEST_NAME) == Some(MANIFEST_NAME)
    ensures Valid(k, files[MANIFEST_NAME := text]) <==>
      && NoTwin(k, Paths(files)) && Readable(k, ReadAll(k, Lines(text))) && Expected(ReadAll(k, Lines(text))) == Digests(k, files)
  {
    CleanIsPortable(k, files, text);
  }

  /** Of the line separators only three pass the portability check. */
  predicate UnicodeSeparator(c: char) { c == '\U{85}' || c == '\U{2028}' || c == '\U{2029}' }

  lemma PortableBreaks(k: Kit, p: string)
    requires k.Normalizes() && k.portable(p).Some?
    ensures BreakFree(p) <==> forall i :: 0 <= i < |p| ==> !UnicodeSeparator(p[i])
  {
  }

  ghost predicate DigestInjective(k: Kit) {
    forall a, b :: SameDigest(k, a, b) ==> a == b
  }

  predicate SameDigest(k: Kit, a: string, b: string) { k.digest(a) == k.digest(b) }

  /** A valid manifest pins the package: two packages that verify with one manifest are the same package. */
  lemma ManifestPinsPackage(k: Kit, a: Files, b: Files)
    requires DigestInjective(k) && Valid(k, a) && Valid(k, b) && a[MANIFEST_NAME] == b[MANIFEST_NAME]
    ensures a == b
  {
    var digests := Digests(k, a);
    assert digests == Digests(k, b);
    forall p ensures p in a <==> p in b {
      if p != MANIFEST_NAME {
        assert p in a <==> p in digests;
        assert p in b <==> p in Digests(k, b);
      }
    }
    forall p | p in a ensures a[p] == b[p] {
      if p != MANIFEST_NAME {
        assert digests[p] == Digests(k, b)[p];
        assert SameDigest(k, a[p], b[p]);
      }
    }
  }
}
