/** Packing a package into an archive and extracting it within limits (distribution.py). */
module Archive {
  import opened Basics
  import opened Distribution
  import opened ManifestRoundTrip

  /** One member: its top-level directory and the path below it; `sound` is an unencrypted member of a supported
      method that is neither a link nor special. */
  datatype Member = Member(top: string, path: string, data: string, compressed: nat, directory: bool, sound: bool)

  /** How the top-level directory itself is written below itself. */
  const ROOT := "."

  function Sizes(members: seq<Member>): nat {
    if members == [] then 0 else Sizes(members[..|members| - 1]) + |members[|members| - 1].data|
  }

  /** A member's own size checks. */
  predicate SizeOk(m: Member) {
    && (|m.data| > 0 ==> m.compressed > 0)
    && (m.compressed > 0 ==> |m.data| <= MAX_COMPRESSION_RATIO * m.compressed)
  }

  predicate MemberOk(k: Kit, top: string, m: Member) {
    m.sound && m.top == top && k.portable(m.path).Some? && SizeOk(m) && (m.directory || Normal(k, m.path) != ROOT)
  }

  predicate MembersApart(k: Kit, a: Member, b: Member) {
    && Normal(k, a.path) != Normal(k, b.path) && k.key(Normal(k, a.path)) != k.key(Normal(k, b.path))
    && !InTheWay(k, a, b)
  }

  /** A file stands where the other member needs a directory. */
  predicate InTheWay(k: Kit, a: Member, b: Member) {
    (!a.directory && Above(Normal(k, a.path), Normal(k, b.path))) || (!b.directory && Above(Normal(k, b.path), Normal(k, a.path)))
  }

  /** What safe_extract_archive accepts of an archive file of `size` bytes. */
  predicate Extractable(k: Kit, top: string, members: seq<Member>, size: nat) {
    && size <= MAX_ARCHIVE_COMPRESSED_BYTES
    && 0 < |members| <= MAX_ARCHIVE_FILES && Sizes(members) <= MAX_ARCHIVE_UNCOMPRESSED_BYTES
    && (forall i :: 0 <= i < |members| ==> MemberOk(k, top, members[i]))
    && (forall i, j :: 0 <= i < j < |members| ==> MembersApart(k, members[i], members[j]))
  }

  /** The files the members leave, by normalized path. */
  function Unpacked(k: Kit, members: seq<Member>): Files {
    if members == [] then map[]
    else
      var last := members[|members| - 1];
      With(k, Unpacked(k, members[..|members| - 1]), last)
  }

  function With(k: Kit, files: Files, m: Member): Files {
    if m.directory then files else files[Normal(k, m.path) := m.data]
  }

  lemma {:induction false} SizesGrow(members: seq<Member>, n: nat)
    requires n <= |members|
    ensures Sizes(members[..n]) <= Sizes(members)
    decreases |members|
  {
    if n < |members| {
      assert members[..|members| - 1][..n] == members[..n];
      SizesGrow(members[..|members| - 1], n);
    } else {
      assert members[..n] == members;
    }
  }

  /** All checks on the members so far. */
  predicate Accepted(k: Kit, top: string, members: seq<Member>) {
    && Sizes(members) <= MAX_ARCHIVE_UNCOMPRESSED_BYTES
    && (forall i :: 0 <= i < |members| ==> MemberOk(k, top, members[i]))
    && (forall i, j :: 0 <= i < j < |members| ==> MembersApart(k, members[i], members[j]))
  }

  lemma AcceptedPrefix(k: Kit, top: string, members: seq<Member>, n: nat)
    requires n <= |members| && Accepted(k, top, members)
    ensures Accepted(k, top, members[..n])
  {
    SizesGrow(members, n);
  }

  /** The loop's `seen` and `seen_portable`. */
  function Seen(k: Kit, members: seq<Member>): set<string> {
    set i | 0 <= i < |members| :: Normal(k, members[i].path)
  }

  function SeenKeys(k: Kit, members: seq<Member>): set<string> {
    set i | 0 <= i < |members| :: k.key(Normal(k, members[i].path))
  }

  predicate NextOk(k: Kit, top: string, members: seq<Member>, m: Member) {
    && MemberOk(k, top, m) && Sizes(members) + |m.data| <= MAX_ARCHIVE_UNCOMPRESSED_BYTES
    && Normal(k, m.path) !in Seen(k, members) && k.key(Normal(k, m.path)) !in SeenKeys(k, members)
    && !Blocked(k, Unpacked(k, members), Seen(k, members), m)
  }

  /** A file already there is in the way of the next member, or something below it is. */
  predicate Blocked(k: Kit, files: Files, seen: set<string>, m: Member) {
    || (exists p :: p in files && Above(p, Normal(k, m.path)))
    || (!m.directory && exists p :: p in seen && Above(Normal(k, m.path), p))
  }

  lemma {:induction false} UnpackedIs(k: Kit, members: seq<Member>, p: string)
    ensures p in Unpacked(k, members) <==> exists i :: 0 <= i < |members| && !members[i].directory && Normal(k, members[i].path) == p
  {
    if members != [] {
      var n := |members| - 1;
      UnpackedIs(k, members[..n], p);
      assert members == members[..n] + [members[n]];
      assert forall i :: 0 <= i < n ==> members[..n][i] == members[i];
    }
  }

  lemma AcceptedNext(k: Kit, top: string, members: seq<Member>, m: Member)
    ensures Accepted(k, top, members + [m]) <==> Accepted(k, top, members) && NextOk(k, top, members, m)
  {
    ApartNext(k, members, m);
    assert (members + [m])[..|members|] == members;
  }

  lemma BlockedIs(k: Kit, members: seq<Member>, m: Member)
    ensures Blocked(k, Unpacked(k, members), Seen(k, members), m) <==> exists i :: 0 <= i < |members| && InTheWay(k, members[i], m)
  {
    forall p ensures p in Unpacked(k, members) <==> exists i :: 0 <= i < |members| && !members[i].directory && Normal(k, members[i].path) == p {
      UnpackedIs(k, members, p);
    }
    forall i | 0 <= i < |members| && InTheWay(k, members[i], m) ensures Blocked(k, Unpacked(k, members), Seen(k, members), m) {
      assert Normal(k, members[i].path) in Seen(k, members);
      if !members[i].directory { assert Normal(k, members[i].path) in Unpacked(k, members); }
    }
  }

  lemma ApartNext(k: Kit, members: seq<Member>, m: Member)
    ensures (forall i :: 0 <= i < |members| ==> MembersApart(k, members[i], m))
       <==> && Normal(k, m.path) !in Seen(k, members) && k.key(Normal(k, m.path)) !in SeenKeys(k, members)
            && !Blocked(k, Unpacked(k, members), Seen(k, members), m)
  {
    BlockedIs(k, members, m);
    if i :| 0 <= i < |members| && InTheWay(k, members[i], m) {
      assert !MembersApart(k, members[i], m);
    }
    if i :| 0 <= i < |members| && !MembersApart(k, members[i], m) {
      assert Normal(k, members[i].path) in Seen(k, members);
    }
  }

  lemma {:induction false} SeenNext(k: Kit, members: seq<Member>, m: Member)
    ensures Seen(k, members + [m]) == Seen(k, members) + {Normal(k, m.path)}
    ensures SeenKeys(k, members + [m]) == SeenKeys(k, members) + {k.key(Normal(k, m.path))}
    ensures Unpacked(k, members + [m]) == With(k, Unpacked(k, members), m)
    ensures Sizes(members + [m]) == Sizes(members) + |m.data|
  {
    var longer := members + [m];
    assert longer[..|members|] == members;
    assert forall i :: 0 <= i < |members| ==> longer[i] == members[i];
    assert longer[|members|] == m;
  }

  /** safe_extract_archive: it stops at the first member it refuses, and then returns nothing. */
  method SafeExtract(k: Kit, top: string, members: seq<Member>, size: nat) returns (r: Result<Files>)
    ensures r.Ok? <==> Extractable(k, top, members, size)
    ensures r.Ok? ==> r.value == Unpacked(k, members)
  {
    if size > MAX_ARCHIVE_COMPRESSED_BYTES {
      return Err(ValueError);
    }
    if members == [] || |members| > MAX_ARCHIVE_FILES {
      return Err(ValueError);
    }
    var files: Files := map[];
    var seen: set<string>, seenKeys: set<string> := {}, {};
    var total := 0;
    for i := 0 to |members|
      invariant Accepted(k, top, members[..i])
      invariant files == Unpacked(k, members[..i]) && total == Sizes(members[..i])
      invariant seen == Seen(k, members[..i]) && seenKeys == SeenKeys(k, members[..i])
    {
      var m := members[i];
      var path := Normal(k, m.path);
      assert members[..i + 1] == members[..i] + [m];
      AcceptedNext(k, top, members[..i], m);
      SeenNext(k, members[..i], m);
      total := total + |m.data|;
      var refused := !MemberOk(k, top, m) || path in seen || k.key(path) in seenKeys || total > MAX_ARCHIVE_UNCOMPRESSED_BYTES;
      if refused || Blocked(k, files, seen, m) {
        assert !Accepted(k, top, members) by {
          if Accepted(k, top, members) {
            AcceptedPrefix(k, top, members, i + 1);
          }
        }
        return Err(if refused then ValueError else OSError);
      }
      seen, seenKeys := seen + {path}, seenKeys + {k.key(path)};
      files := With(k, files, m);
    }
    assert members[..|members|] == members;
    return Ok(files);
  }

  // ---- Round trip ----

  /** _write_reproducible_zip, with the compressed sizes the deflater chose. */
  function Pack(top: string, files: Files, order: seq<string>, compressed: string -> nat): seq<Member>
    requires forall p :: p in order ==> p in files
  {
    seq(|order|, i requires 0 <= i < |order| => Member(top, order[i], files[order[i]], compressed(files[order[i]]), false, true))
  }

  lemma {:induction false} PackUnpacks(k: Kit, top: string, files: Files, order: seq<string>, compressed: string -> nat)
    requires forall p :: p in order ==> p in files && k.portable(p) == Some(p)
    ensures forall p :: p in Unpacked(k, Pack(top, files, order, compressed)) <==> p in order
    ensures forall p :: p in order ==> Unpacked(k, Pack(top, files, order, compressed))[p] == files[p]
  {
    if order != [] {
      var shorter := order[..|order| - 1];
      PackUnpacks(k, top, files, shorter, compressed);
      var members := Pack(top, files, order, compressed);
      assert members[..|members| - 1] == Pack(top, files, shorter, compressed);
      assert order == shorter + [order[|order| - 1]];
      assert members[|members| - 1].path == order[|order| - 1];
    }
  }

  /** The limits an archive of these files has to keep. */
  predicate WithinLimits(members: seq<Member>, size: nat) {
    && size <= MAX_ARCHIVE_COMPRESSED_BYTES
    && 0 < |members| <= MAX_ARCHIVE_FILES && Sizes(members) <= MAX_ARCHIVE_UNCOMPRESSED_BYTES
    && forall i :: 0 <= i < |members| ==> SizeOk(members[i])
  }

  /** The files of a tree: none is a directory too, and none is the root. */
  predicate IsTree(files: Files) { ROOT !in files && forall p, q :: p in files && q in files ==> !Above(p, q) }

  /** A packed tree extracts, and to itself, exactly when it keeps the limits. */
  lemma {:induction false} ArchiveRoundTrip(k: Kit, top: string, files: Files, order: seq<string>, compressed: string -> nat, size: nat)
    requires CleanPaths(k, files.Keys) && IsTree(files) && Orders(files, order)
    ensures forall p :: p in order <==> p in files
    ensures var members := Pack(top, files, order, compressed);
      (Extractable(k, top, members, size) <==> WithinLimits(members, size)) && Unpacked(k, members) == files
  {
    OrderListsFiles(files, order);
    var members := Pack(top, files, order, compressed);
    forall i, j | 0 <= i < j < |members| ensures MembersApart(k, members[i], members[j]) {
      assert order[i] != order[j] && order[i] in files && order[j] in files;
    }
    if WithinLimits(members, size) {
      forall i | 0 <= i < |members| ensures MemberOk(k, top, members[i]) {
        assert order[i] in files;
      }
    }
    PackUnpacks(k, top, files, order, compressed);
  }

  /** Another spelling of the manifest beside the manifest stops the extraction. */
  lemma TwinRefused(k: Kit, top: string, files: Files, listing: seq<string>, order: seq<string>, compressed: string -> nat, size: nat, p: string)
    requires Clean(k, files) && k.portable(MANIFEST_NAME) == Some(MANIFEST_NAME) && p in files && k.key(p) == k.key(MANIFEST_NAME)
    requires (forall q :: q in listing ==> q in files)
    requires Orders(WithManifest(k, files, listing), order) && forall q :: q in order ==> q in WithManifest(k, files, listing)
    ensures !Extractable(k, top, Pack(top, WithManifest(k, files, listing), order, compressed), size)
  {
    var package := WithManifest(k, files, listing);
    OrderListsFiles(package, order);
    assert p in package && MANIFEST_NAME in package;
    assert p in order && MANIFEST_NAME in order;
    var i :| 0 <= i < |order| && order[i] == p;
    var j :| 0 <= j < |order| && order[j] == MANIFEST_NAME;
    var members := Pack(top, package, order, compressed);
    assert !MembersApart(k, members[i], members[j]) && !MembersApart(k, members[j], members[i]);
  }

  lemma PackageIsTree(k: Kit, files: Files, listing: seq<string>)
    requires Clean(k, files) && IsTree(files) && forall p :: p in listing ==> p in files
    requires k.portable(MANIFEST_NAME) == Some(MANIFEST_NAME) && NoTwin(k, files.Keys)
    ensures IsTree(WithManifest(k, files, listing)) && CleanPaths(k, WithManifest(k, files, listing).Keys)
  {
    forall p | p in files ensures !Above(p, MANIFEST_NAME) && !Above(MANIFEST_NAME, p) {
      TopLevel(p);
      DirectoryIs(files, MANIFEST_NAME);
    }
  }

  /** Copied clean, manifested, packed and extracted: the tree comes back identical exactly when it keeps the
      limits and no file is another spelling of the manifest, and then it verifies exactly when no directory is
      one either and no path holds a Unicode line separator. */
  lemma {:induction false} PackageRoundTrip(k: Kit, top: string, files: Files, listing: seq<string>, order: seq<string>,
                                            compressed: string -> nat, size: nat)
    requires k.Normalizes() && k.Hexadecimal() && k.portable(MANIFEST_NAME) == Some(MANIFEST_NAME)
    requires Clean(k, files) && IsTree(files) && Orders(files, listing) && forall p :: p in listing ==> p in files
    requires Orders(WithManifest(k, files, listing), order) && forall p :: p in order ==> p in WithManifest(k, files, listing)
    ensures var package := WithManifest(k, files, listing); var members := Pack(top, package, order, compressed);
      && (Extractable(k, top, members, size) <==> WithinLimits(members, size) && NoTwin(k, files.Keys))
      && (Extractable(k, top, members, size) ==>
            Unpacked(k, members) == package
            && (Valid(k, package) <==>
                  NoTwin(k, Directories(files)) && forall p :: p in files ==> forall i :: 0 <= i < |p| ==> !UnicodeSeparator(p[i])))
  {
    var package := WithManifest(k, files, listing);
    if NoTwin(k, files.Keys) {
      PackageIsTree(k, files, listing);
      ArchiveRoundTrip(k, top, package, order, compressed, size);
      ManifestValidIff(k, files, listing);
      forall p | p in files ensures BreakFree(p) <==> forall i :: 0 <= i < |p| ==> !UnicodeSeparator(p[i]) {
        PortableBreaks(k, p);
      }
    } else {
      var p :| p in files && k.key(p) == k.key(MANIFEST_NAME);
      TwinRefused(k, top, files, listing, order, compressed, size, p);
    }
  }
}
