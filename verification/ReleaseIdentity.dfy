/** What the artifact identity string of release evidence says about the artifacts it lists. */
module ReleaseIdentity {
  import opened Basics
  import opened ReleaseEvidence

  const WIDTH := 71

  /** A digest and its "@" at position i of a text, before a comma or the end: an entry may end there. */
  predicate Cut(text: string, i: nat) {
    && i + WIDTH < |text| && text[i] == '@' && Sha256(text[i + 1..i + 1 + WIDTH])
    && (i + 1 + WIDTH < |text| ==> text[i + 1 + WIDTH] == ',')
  }

  function FirstCut(text: string, from: nat): (first: nat)
    requires from <= |text|
    ensures from <= first <= |text| && (first < |text| ==> Cut(text, first))
    ensures forall k :: from <= k < first ==> !Cut(text, k)
    decreases |text| - from
  {
    if from == |text| || Cut(text, from) then from else FirstCut(text, from + 1)
  }

  /** The entries of a text, read from the left and as short as they can be. */
  function Parse(text: string): seq<NamedDigest>
    decreases |text|
  {
    var i := FirstCut(text, 0);
    if i == |text| then []
    else
      var item := NamedDigest(text[..i], text[i + 1..i + 1 + WIDTH]);
      if i + 1 + WIDTH == |text| then [item] else [item] + Parse(text[i + 2 + WIDTH..])
  }

  predicate HidesAt(name: string, i: nat) { i + 1 + WIDTH < |name| && Cut(name, i) }

  /** The name holds what reads as the end of one entry and the start of another. */
  ghost predicate Hides(name: string) { exists i: nat :: HidesAt(name, i) }

  function FirstHidden(name: string, from: nat): (first: nat)
    requires from <= |name|
    ensures from <= first <= |name| && (first < |name| ==> HidesAt(name, first))
    ensures forall k :: from <= k < first ==> !HidesAt(name, k)
    decreases |name| - from
  {
    if from == |name| || HidesAt(name, from) then from else FirstHidden(name, from + 1)
  }

  function Before(name: string, i: nat): NamedDigest
    requires HidesAt(name, i)
  {
    NamedDigest(name[..i], name[i + 1..i + 1 + WIDTH])
  }

  function After(item: NamedDigest, i: nat): NamedDigest
    requires HidesAt(item.name, i)
  {
    NamedDigest(item.name[i + 2 + WIDTH..], item.digest)
  }

  /** An entry with its name cut wherever it holds a digest followed by a comma. */
  function Split(item: NamedDigest): (parts: seq<NamedDigest>)
    ensures parts != []
    decreases |item.name|
  {
    var i := FirstHidden(item.name, 0);
    if i == |item.name| then [item] else [Before(item.name, i)] + Split(After(item, i))
  }

  function Finest(items: seq<NamedDigest>): seq<NamedDigest> {
    if items == [] then [] else Split(items[0]) + Finest(items[1..])
  }

  predicate Proper(items: seq<NamedDigest>) { forall i :: 0 <= i < |items| ==> Sha256(items[i].digest) }

  ghost predicate Plain(items: seq<NamedDigest>) { forall i :: 0 <= i < |items| ==> !Hides(items[i].name) }

  // ---- Reading the first entry ----

  lemma {:induction false} HexIsUnmarked(s: string, k: nat)
    requires Hexadecimal(s) && k < |s|
    ensures s[k] != '@' && s[k] != ','
  {
    if k > 0 { HexIsUnmarked(s[1..], k - 1); }
  }

  lemma DigestIsUnmarked(d: Digest, k: nat)
    requires Sha256(d) && k < WIDTH
    ensures d[k] != '@' && d[k] != ','
  {
    if k < |ALGORITHM| { assert d[..7][k] == ALGORITHM[k]; } else { HexIsUnmarked(d[7..], k - 7); }
  }

  /** The cuts of a text that starts with an entry: the end of the entry, and the cuts its name hides. */
  lemma CutsOfEntry(item: NamedDigest, text: string, k: nat)
    requires Sha256(item.digest) && k <= |item.name| && Entry(item) <= text
    requires |Entry(item)| < |text| ==> text[|Entry(item)|] == ','
    ensures Cut(text, k) <==> k == |item.name| || HidesAt(item.name, k)
  {
    var n := |item.name|;
    assert text[n] == Entry(item)[n] == '@';
    if k == n {
      assert text[n + 1..n + 1 + WIDTH] == Entry(item)[n + 1..n + 1 + WIDTH] == item.digest;
    } else {
      if Cut(text, k) && n <= k + WIDTH {
        DigestIsUnmarked(text[k + 1..k + 1 + WIDTH], n - k - 1);
      }
      if k + WIDTH < n {
        assert text[k + 1..k + 1 + WIDTH] == item.name[k + 1..k + 1 + WIDTH];
      }
    }
  }

  lemma FirstCutOfEntry(item: NamedDigest, text: string)
    requires Sha256(item.digest) && Entry(item) <= text
    requires |Entry(item)| < |text| ==> text[|Entry(item)|] == ','
    ensures FirstCut(text, 0) == FirstHidden(item.name, 0)
  {
    var cut, hidden := FirstCut(text, 0), FirstHidden(item.name, 0);
    CutsOfEntry(item, text, |item.name|);
    CutsOfEntry(item, text, hidden);
    CutsOfEntry(item, text, cut);
  }

  /** A text and the items it joins: the first, and after a comma the others. */
  predicate Joins(text: string, first: NamedDigest, rest: seq<NamedDigest>) {
    text == if rest == [] then Entry(first) else Entry(first) + "," + Join(rest)
  }

  lemma JoinHead(first: NamedDigest, rest: seq<NamedDigest>)
    ensures Joins(Join([first] + rest), first, rest)
    ensures Proper([first] + rest) <==> Sha256(first.digest) && Proper(rest)
    ensures Finest([first] + rest) == Split(first) + Finest(rest)
  {
    var all := [first] + rest;
    assert all[1..] == rest && all[0] == first;
    assert forall i :: 0 <= i < |rest| ==> all[i + 1] == rest[i];
  }

  lemma EntryCut(item: NamedDigest, i: nat)
    requires HidesAt(item.name, i)
    ensures Entry(item) == Entry(Before(item.name, i)) + "," + Entry(After(item, i))
  {
    assert item.name == Entry(Before(item.name, i)) + "," + After(item, i).name;
  }

  lemma CommasAssociate(a: string, b: string, c: string)
    ensures (a + "," + b) + "," + c == a + "," + (b + "," + c)
  {
  }

  /** Cutting the first item leaves the text as it was. */
  lemma {:induction false} JoinCut(text: string, item: NamedDigest, i: nat, rest: seq<NamedDigest>)
    requires HidesAt(item.name, i) && Joins(text, item, rest)
    ensures Joins(text, Before(item.name, i), [After(item, i)] + rest)
  {
    var first, next := Before(item.name, i), After(item, i);
    EntryCut(item, i);
    JoinHead(next, rest);
    if rest != [] { CommasAssociate(Entry(first), Entry(next), Join(rest)); }
  }

  lemma SplitCut(item: NamedDigest, i: nat)
    requires i == FirstHidden(item.name, 0) < |item.name|
    ensures Split(item) == [Before(item.name, i)] + Split(After(item, i))
  {
  }

  lemma AppendAssociates(a: seq<NamedDigest>, b: seq<NamedDigest>, c: seq<NamedDigest>)
    ensures (a + b) + c == a + (b + c)
  {
  }

  lemma {:induction false} SplitHead(item: NamedDigest, i: nat, rest: seq<NamedDigest>)
    requires i == FirstHidden(item.name, 0) < |item.name|
    ensures Finest([item] + rest) == [Before(item.name, i)] + Finest([After(item, i)] + rest)
  {
    JoinHead(item, rest);
    JoinHead(After(item, i), rest);
    SplitCut(item, i);
    AppendAssociates([Before(item.name, i)], Split(After(item, i)), Finest(rest));
  }

  /** The first entry of a list as it is read, and a list of what is left. */
  lemma Peel(items: seq<NamedDigest>) returns (first: NamedDigest, rest: seq<NamedDigest>)
    requires items != [] && Proper(items)
    ensures Sha256(first.digest) && Proper(rest) && Joins(Join(items), first, rest)
    ensures FirstCut(Join(items), 0) == |first.name| && Finest(items) == [first] + Finest(rest)
  {
    var head, tail := items[0], items[1..];
    assert items == [head] + tail;
    JoinHead(head, tail);
    FirstCutOfEntry(head, Join(items));
    var i := FirstHidden(head.name, 0);
    if i == |head.name| {
      first, rest := head, tail;
    } else {
      first, rest := Before(head.name, i), [After(head, i)] + tail;
      JoinCut(Join(items), head, i, tail);
      SplitHead(head, i, tail);
      JoinHead(After(head, i), tail);
    }
  }

  // ---- Reading a list ----

  lemma {:induction false} ParseStep(text: string, first: NamedDigest, rest: seq<NamedDigest>)
    requires Sha256(first.digest) && FirstCut(text, 0) == |first.name| && Joins(text, first, rest)
    ensures Parse(text) == [first] + (if rest == [] then [] else Parse(Join(rest)))
    ensures |Join(rest)| < |text|
  {
    var i := |first.name|;
    assert text[..i] == first.name && text[i + 1..i + 1 + WIDTH] == first.digest;
    if rest != [] { assert text[i + 2 + WIDTH..] == Join(rest); }
  }

  /** Reading the string of a list yields its finest form. */
  lemma {:induction false} ParseJoin(items: seq<NamedDigest>)
    requires Proper(items)
    ensures Parse(Join(items)) == Finest(items)
    decreases |Join(items)|
  {
    if items == [] {
    } else {
      var first, rest := Peel(items);
      ParseStep(Join(items), first, rest);
      ParseJoin(rest);
    }
  }

  /** The finest form has the same string. */
  lemma {:induction false} JoinFinest(items: seq<NamedDigest>)
    requires Proper(items)
    ensures Join(Finest(items)) == Join(items) && Proper(Finest(items))
    ensures items != [] ==> Finest(items) != []
    decreases |Join(items)|
  {
    if items == [] {
    } else {
      var first, rest := Peel(items);
      ParseStep(Join(items), first, rest);
      JoinFinest(rest);
      JoinHead(first, Finest(rest));
    }
  }

  lemma SplitCounts(item: NamedDigest)
    ensures if Hides(item.name) then |Split(item)| > 1 else Split(item) == [item]
  {
    assert Hides(item.name) <==> FirstHidden(item.name, 0) < |item.name|;
  }

  lemma PlainHead(items: seq<NamedDigest>)
    requires items != []
    ensures Plain(items) <==> !Hides(items[0].name) && Plain(items[1..])
  {
    assert forall i :: 0 < i < |items| ==> items[i] == items[1..][i - 1];
    assert forall i :: 0 <= i < |items[1..]| ==> items[1..][i] == items[i + 1];
  }

  /** Cutting never loses an entry, and gains one exactly when some name hides one. */
  lemma {:induction false} FinestIsLonger(items: seq<NamedDigest>)
    ensures |Finest(items)| >= |items|
    ensures if Plain(items) then Finest(items) == items else |Finest(items)| > |items|
  {
    if items == [] {
    } else {
      PlainHead(items);
      SplitCounts(items[0]);
      FinestIsLonger(items[1..]);
    }
  }

  // ---- What the identity pins ----

  /** Two lists have one identity if and only if they are the same entries once every name is cut at the entries
      it hides. */
  lemma SameIdentityIff(req: Request, a: seq<Subject>, b: seq<Subject>)
    requires Proper(Named(a)) && Proper(Named(b))
    ensures Identity(req, a) == Identity(req, b) <==> Finest(Named(a)) == Finest(Named(b))
  {
    ParseJoin(Named(a));
    ParseJoin(Named(b));
    JoinFinest(Named(a));
    JoinFinest(Named(b));
    var prefix := req.repository + "@" + req.sourceSha + ":";
    assert Identity(req, a)[|prefix|..] == Join(Named(a)) && Identity(req, b)[|prefix|..] == Join(Named(b));
  }

  /** A string pins its list, among the lists with no fewer entries, if and only if no name hides an entry. */
  lemma PinnedIff(a: seq<NamedDigest>)
    requires Proper(a)
    ensures Plain(a) <==> forall b :: Proper(b) && |b| >= |a| && Join(b) == Join(a) ==> b == a
  {
    ParseJoin(a);
    JoinFinest(a);
    FinestIsLonger(a);
    forall b | Plain(a) && Proper(b) && |b| >= |a| && Join(b) == Join(a) ensures b == a {
      ParseJoin(b);
      FinestIsLonger(b);
    }
    if !Plain(a) {
      var b := Finest(a);
      assert Proper(b) && |b| >= |a| && Join(b) == Join(a) && b != a;
    }
  }

  /** Where no file name hides an entry, the identity alone is the release: two verified directories with one
      identity list the same files with the same bytes. */
  lemma IdentityPinsRelease(h: Hashes, a: Release, b: Release, req: Request, requireProtected: bool)
    requires h.Ideal() && Verified(h, a, req, requireProtected) && Verified(h, b, req, requireProtected)
    requires a.evidence.value.identity == b.evidence.value.identity
    requires Plain(Named(a.evidence.value.subjects)) && Plain(Named(b.evidence.value.subjects))
    ensures a.evidence.value.subjects == b.evidence.value.subjects
    ensures forall i :: 0 <= i < |a.evidence.value.subjects| ==>
      var name := a.evidence.value.subjects[i].name;
      name in a.files && name in b.files && a.files[name] == b.files[name]
  {
    var s, t := a.evidence.value.subjects, b.evidence.value.subjects;
    assert Proper(Named(s)) by { assert forall i :: 0 <= i < |s| ==> SubjectOk(h, a, s[i]); }
    assert Proper(Named(t)) by { assert forall i :: 0 <= i < |t| ==> SubjectOk(h, b, t[i]); }
    SameIdentityIff(req, s, t);
    FinestIsLonger(Named(s));
    FinestIsLonger(Named(t));
    assert Named(s) == Named(t);
    forall i | 0 <= i < |s|
      ensures s[i] == t[i] && s[i].name in a.files && s[i].name in b.files && a.files[s[i].name] == b.files[s[i].name]
    {
      assert SubjectOk(h, a, s[i]) && SubjectOk(h, b, t[i]);
      assert Named(s)[i] == Named(t)[i];
      assert h.SameFile(a.files[s[i].name], b.files[s[i].name]);
    }
  }

  /** A directory without attestations: what is built for it verifies, and its identity is of the files in it. */
  lemma PlainBuildVerifies(h: Hashes, r: Release, req: Request, names: seq<string>, created: string)
    requires h.Renders() && h.commitId(req.sourceSha) && h.semver(req.version) && Lists(r, names) && names != []
    requires PROVENANCE_ATTESTATION !in r.files && forall n :: n in r.files ==> n != "" && h.plainName(n)
    ensures (forall n :: n in names ==> n in r.files) && Build(h, r, req, names, created, None).Ok?
    ensures var built := Build(h, r, req, names, created, None).value;
      && Verified(h, built, req, false) && built.files == r.files
      && built.evidence.value.subjects == SubjectsOf(h, r, names)
      && built.evidence.value.identity == Identity(req, SubjectsOf(h, r, names))
  {
    assert forall n :: n in names ==> n in SetOf(names);
    BuildVerifiesIff(h, r, req, names, created, None, false);
  }

  predicate Publishes(h: Hashes, name: string) { name != "" && h.plainName(name) && name !in EXCLUDED }

  /** The name that hides the entry of `first` before `second`. */
  function Hiding(h: Hashes, first: string, bytes: string, second: string): string {
    first + "@" + h.file(bytes) + "," + second
  }

  lemma HidingJoins(h: Hashes, first: string, second: string, x: string, y: string)
    requires Sha256(h.file(x))
    ensures Join([NamedDigest(first, h.file(x)), NamedDigest(second, h.file(y))])
         == Join([NamedDigest(Hiding(h, first, x, second), h.file(y))])
  {
    var item, i := NamedDigest(Hiding(h, first, x, second), h.file(y)), |first|;
    assert item.name[..i] == first;
    assert item.name[i + 1..i + 1 + WIDTH] == h.file(x);
    assert item.name[i + 2 + WIDTH..] == second;
    JoinHead(item, []);
    JoinCut(Join([item]), item, i, []);
    JoinHead(NamedDigest(first, h.file(x)), [NamedDigest(second, h.file(y))]);
  }

  function OneFile(name: string, bytes: string): Release { Release(map[name := bytes], None, None, None) }

  function TwoFiles(first: string, x: string, second: string, y: string): Release {
    Release(map[first := x, second := y], None, None, None)
  }

  lemma OneFileVerifies(h: Hashes, req: Request, name: string, y: string, created: string)
    requires h.Renders() && h.commitId(req.sourceSha) && h.semver(req.version) && Publishes(h, name)
    ensures Lists(OneFile(name, y), [name]) && Build(h, OneFile(name, y), req, [name], created, None).Ok?
    ensures var built := Build(h, OneFile(name, y), req, [name], created, None).value;
      && Verified(h, built, req, false) && Named(built.evidence.value.subjects) == [NamedDigest(name, h.file(y))]
      && built.evidence.value.identity == Identity(req, built.evidence.value.subjects)
  {
    var r := OneFile(name, y);
    assert SetOf([name]) == {name} == r.files.Keys == Publishable(r);
    PlainBuildVerifies(h, r, req, [name], created);
  }

  lemma TwoFilesVerify(h: Hashes, req: Request, first: string, x: string, second: string, y: string, created: string)
    requires h.Renders() && h.commitId(req.sourceSha) && h.semver(req.version) && first != second
    requires Publishes(h, first) && Publishes(h, second)
    ensures Lists(TwoFiles(first, x, second, y), [first, second])
    ensures Build(h, TwoFiles(first, x, second, y), req, [first, second], created, None).Ok?
    ensures var built := Build(h, TwoFiles(first, x, second, y), req, [first, second], created, None).value;
      && Verified(h, built, req, false)
      && Named(built.evidence.value.subjects) == [NamedDigest(first, h.file(x)), NamedDigest(second, h.file(y))]
      && built.evidence.value.identity == Identity(req, built.evidence.value.subjects)
  {
    var r := TwoFiles(first, x, second, y);
    assert SetOf([first, second]) == {first, second} == r.files.Keys == Publishable(r);
    PlainBuildVerifies(h, r, req, [first, second], created);
  }

  /** The failing input: two files, or one file whose name is the entry of the first, a comma and the second name,
      with the bytes of the second. Both directories verify, with one identity. */
  lemma TwoReleasesOneIdentity(h: Hashes, req: Request, first: string, second: string, x: string, y: string, created: string)
    requires h.Renders() && h.commitId(req.sourceSha) && h.semver(req.version) && first != second
    requires Publishes(h, first) && Publishes(h, second) && Publishes(h, Hiding(h, first, x, second))
    ensures exists a, b ::
      && Verified(h, a, req, false) && Verified(h, b, req, false)
      && a.evidence.value.identity == b.evidence.value.identity
      && |a.evidence.value.subjects| == 2 && |b.evidence.value.subjects| == 1
  {
    var hidden := Hiding(h, first, x, second);
    TwoFilesVerify(h, req, first, x, second, y, created);
    OneFileVerifies(h, req, hidden, y, created);
    HidingJoins(h, first, second, x, y);
    var a := Build(h, TwoFiles(first, x, second, y), req, [first, second], created, None).value;
    var b := Build(h, OneFile(hidden, y), req, [hidden], created, None).value;
    assert |Named(a.evidence.value.subjects)| == 2 && |Named(b.evidence.value.subjects)| == 1;
  }
}
