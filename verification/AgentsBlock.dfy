/** Splicing the managed rule block into AGENTS.md (installer.py). */
module AgentsBlock {

  const BEGIN_MARKER := "<!-- ZTAD:BEGIN MANAGED AGENT RULES -->"
  const END_MARKER := "<!-- ZTAD:END MANAGED AGENT RULES -->"

  /** The two markers; the functions below work for any usable pair. */
  datatype Markers = Markers(begin: string, end: string) {
    predicate Usable() {
      Simple(begin) && Simple(end) && begin[0] == end[0] && Diverges()
    }

    predicate Diverges() {
      exists d :: 0 <= d < |begin| && d < |end| && begin[d] != end[d]
    }
  }

  const ZTAD := Markers(BEGIN_MARKER, END_MARKER)

  // ---- Python's text operations ----

  /** The characters `str.isspace` and `str.strip` treat as white space. */
  predicate Space(c: char) {
    '\t' <= c <= '\r' || '\U{1c}' <= c <= ' ' || c == '\U{85}' || c == '\U{a0}' || c == '\U{1680}'
    || '\U{2000}' <= c <= '\U{200a}' || c == '\U{2028}' || c == '\U{2029}' || c == '\U{202f}' || c == '\U{205f}' || c == '\U{3000}'
  }

  function RStrip(s: string): (r: string)
    ensures r <= s && (r != [] ==> !Space(r[|r| - 1]))
  {
    if s != [] && Space(s[|s| - 1]) then RStrip(s[..|s| - 1]) else s
  }

  /** Only white space is stripped. */
  lemma {:induction false} StrippedIsSpace(s: string, i: nat)
    requires |RStrip(s)| <= i < |s|
    ensures Space(s[i])
  {
    if i < |s| - 1 { StrippedIsSpace(s[..|s| - 1], i); }
  }

  function LStrip(s: string): (r: string)
    ensures |r| <= |s| && r == s[|s| - |r|..] && (r != [] ==> !Space(r[0]))
  {
    if s != [] && Space(s[0]) then LStrip(s[1..]) else s
  }

  /** `not s.strip()` */
  predicate BlankText(s: string) {
    forall i :: 0 <= i < |s| ==> Space(s[i])
  }

  predicate At(s: string, m: string, i: int) {
    0 <= i && i + |m| <= |s| && s[i..i + |m|] == m
  }

  predicate Contains(s: string, m: string) {
    exists i :: 0 <= i <= |s| && At(s, m, i)
  }

  lemma AtShift(s: string, m: string, i: int)
    requires s != [] && i > 0
    ensures At(s, m, i) <==> At(s[1..], m, i - 1)
  {
    if i + |m| <= |s| {
      assert s[i..i + |m|] == s[1..][i - 1..i - 1 + |m|];
    }
  }

  /** Where `s.split(m, 1)` splits. */
  function First(s: string, m: string): (i: nat)
    requires Contains(s, m)
    ensures At(s, m, i) && forall j :: 0 <= j < i ==> !At(s, m, j)
  {
    if At(s, m, 0) then 0
    else
      assert s != [] && forall j :: j > 0 ==> (At(s, m, j) <==> At(s[1..], m, j - 1)) by {
        forall j | j > 0 && s != [] ensures At(s, m, j) <==> At(s[1..], m, j - 1) {
          AtShift(s, m, j);
        }
      }
      1 + First(s[1..], m)
  }

  function Head(s: string, m: string): string
    requires Contains(s, m)
  {
    s[..First(s, m)]
  }

  function Tail(s: string, m: string): string
    requires Contains(s, m)
  {
    s[First(s, m) + |m|..]
  }

  // ---- The block functions ----

  /** `Crash`: the only END marker stands before the first BEGIN marker, and the unpacking raises. */
  datatype Extracted = NoBlock | Block(text: string) | Crash

  predicate HasMarkers(m: Markers, s: string) { Contains(s, m.begin) && Contains(s, m.end) }

  /** The END marker follows the first BEGIN marker. */
  predicate WellFormed(m: Markers, s: string) {
    Contains(s, m.begin) && Contains(Tail(s, m.begin), m.end)
  }

  /** Text the block functions do not crash on. */
  predicate Parses(m: Markers, s: string) { HasMarkers(m, s) ==> WellFormed(m, s) }

  function Extract(m: Markers, s: string): Extracted {
    if !HasMarkers(m, s) then NoBlock
    else if !WellFormed(m, s) then Crash
    else Block(m.begin + Head(Tail(s, m.begin), m.end) + m.end)
  }

  function AfterBlock(m: Markers, s: string): string
    requires WellFormed(m, s)
  {
    Tail(Tail(s, m.begin), m.end)
  }

  function Replace(m: Markers, s: string, block: string): string
    requires Parses(m, s)
  {
    if HasMarkers(m, s) then RStrip(Head(s, m.begin)) + "\n\n" + block + AfterBlock(m, s)
    else if !BlankText(s) then RStrip(s) + "\n\n" + block + "\n"
    else block + "\n"
  }

  function Joined(before: string, after: string): string {
    RStrip(before) + (if !BlankText(before) && !BlankText(after) then "\n" else "") + LStrip(after)
  }

  function Remove(m: Markers, s: string): string
    requires Parses(m, s)
  {
    if !HasMarkers(m, s) then s
    else
      var combined := Joined(Head(s, m.begin), AfterBlock(m, s));
      RStrip(combined) + (if !BlankText(combined) then "\n" else "")
  }

  /** _managed_agents_block */
  function BlockOf(m: Markers, rules: string): string { m.begin + "\n" + rules + "\n" + m.end }

  /** The rules carry no END marker of their own: a condition on the distribution. */
  predicate CleanRules(m: Markers, rules: string) { !Contains("\n" + rules + "\n", m.end) }

  // ---- Markers in concatenations ----

  /** A marker whose first character occurs nowhere else in it, without line breaks, and visible at its end. */
  predicate Simple(m: string) {
    && m != [] && !Space(m[|m| - 1])
    && (forall t :: 0 < t < |m| ==> m[t] != m[0])
    && (forall t :: 0 <= t < |m| ==> m[t] != '\n')
  }

  lemma BeginSimple()
    ensures Simple(BEGIN_MARKER)
  {
  }

  lemma EndSimple()
    ensures Simple(END_MARKER)
  {
  }

  lemma MarkersUsable()
    ensures ZTAD.Usable()
  {
    BeginSimple();
    EndSimple();
    assert BEGIN_MARKER[10] != END_MARKER[10];
  }

  lemma Occurrence(s: string, from: nat, to: nat, m: string, i: int)
    requires from <= i && i + |m| <= to <= |s|
    ensures At(s[from..to], m, i - from) <==> At(s, m, i)
    ensures At(s, m, i) ==> Contains(s[from..to], m) && Contains(s, m)
  {
    SliceOfSlice(s, from, to, i - from, i - from + |m|);
  }

  lemma SliceOfSlice<T>(s: seq<T>, from: nat, to: nat, a: nat, b: nat)
    requires a <= b <= to - from && to <= |s|
    ensures s[from..to][a..b] == s[from + a..from + b]
  {
    var x := s[from..to];
    forall k | 0 <= k < b - a ensures x[a..b][k] == s[from + a..from + b][k] {
      assert x[a..b][k] == x[a + k];
    }
  }

  lemma Differs(s: string, m: string, i: nat, k: nat)
    requires k < |m| && i + k < |s| && s[i + k] != m[k]
    ensures !At(s, m, i)
  {
    assert i + |m| <= |s| ==> s[i..i + |m|][k] == s[i + k];
  }

  /** No occurrence inside a part that is free of the marker. */
  lemma FreePart(s: string, from: nat, to: nat, m: string, i: int)
    requires from <= i && i + |m| <= to <= |s| && !Contains(s[from..to], m)
    ensures !At(s, m, i)
  {
    Occurrence(s, from, to, m, i);
  }

  lemma PartFree(s: string, from: nat, to: nat, m: string)
    requires from <= to <= |s| && !Contains(s, m)
    ensures !Contains(s[from..to], m)
  {
    forall i | 0 <= i <= to - from ensures !At(s[from..to], m, i) {
      if i + |m| <= to - from {
        Occurrence(s, from, to, m, from + i);
      }
    }
  }

  /** No occurrence of a simple marker straddles a character like its first one. */
  lemma NoStraddle(s: string, m: string, i: nat, at: nat)
    requires Simple(m) && i < at < i + |m| && at < |s| && s[at] == m[0]
    ensures !At(s, m, i)
  {
    Differs(s, m, i, at - i);
  }

  /** Where nothing overlaps, a marker starts where it was put. */
  lemma {:induction false} FirstAfterPrefix(before: string, m: string, after: string)
    requires Simple(m) && !Contains(before, m)
    ensures Contains(before + m + after, m) && First(before + m + after, m) == |before|
    ensures Head(before + m + after, m) == before && Tail(before + m + after, m) == after
  {
    var s := before + m + after;
    assert At(s, m, |before|) && s[0..|before|] == before;
    forall j | 0 <= j < |before| ensures !At(s, m, j) {
      if j + |m| <= |before| {
        FreePart(s, 0, |before|, m, j);
      } else {
        NoStraddle(s, m, j, |before|);
      }
    }
  }

  lemma HeadFree(s: string, m: string)
    requires Contains(s, m) && m != []
    ensures !Contains(Head(s, m), m)
    ensures s == Head(s, m) + m + Tail(s, m)
  {
    var n := First(s, m);
    assert s[..n] == s[0..n];
    forall i | 0 <= i <= n ensures !At(s[..n], m, i) {
      if i + |m| <= n {
        Occurrence(s, 0, n, m, i);
      }
    }
  }

  lemma {:induction false} StrippedFree(s: string, m: string)
    requires Simple(m) && !Contains(s, m)
    ensures !Contains(RStrip(s) + "\n\n", m)
  {
    var r := RStrip(s);
    var t := r + "\n\n";
    assert t[0..|r|] == s[0..|r|];
    PartFree(s, 0, |r|, m);
    forall i | 0 <= i <= |t| ensures !At(t, m, i) {
      if i + |m| <= |r| {
        FreePart(t, 0, |r|, m, i);
      } else if i + |m| <= |t| {
        Differs(t, m, i, |m| - 1);
      }
    }
  }

  /** Stripping white space keeps every marker. */
  lemma {:induction false} StripKeeps(s: string, m: string, i: int)
    requires Simple(m) && At(s, m, i)
    ensures At(RStrip(s), m, i) && !BlankText(s)
  {
    assert s[i..i + |m|][|m| - 1] == s[i + |m| - 1];
    if |RStrip(s)| < i + |m| { StrippedIsSpace(s, i + |m| - 1); }
    Occurrence(s, 0, |RStrip(s)|, m, i);
    assert s[0..|RStrip(s)|] == RStrip(s);
  }

  /** Markers do not arise at the seams of text, BEGIN marker and block body. */
  lemma NoEndBefore(m: Markers, r: string, body: string)
    requires m.Usable() && !Contains(r, m.end) && !Contains(body, m.end)
    ensures !Contains(r + m.begin + body, m.end)
  {
    var u := r + m.begin + body;
    var n := |r| + |m.begin|;
    assert u[0..|r|] == r && u[n..|u|] == body;
    forall i | 0 <= i <= |u| ensures !At(u, m.end, i) {
      if i + |m.end| <= |r| {
        FreePart(u, 0, |r|, m.end, i);
      } else if i < |r| {
        NoStraddle(u, m.end, i, |r|);
      } else if i < n {
        NoEndInBegin(m, r, body, i);
      } else if i + |m.end| <= |u| {
        FreePart(u, n, |u|, m.end, i);
      }
    }
  }

  lemma NoEndInBegin(m: Markers, r: string, body: string, i: nat)
    requires m.Usable() && |r| <= i < |r| + |m.begin|
    ensures !At(r + m.begin + body, m.end, i)
  {
    if i > |r| {
      Differs(r + m.begin + body, m.end, i, 0);
    } else {
      var d :| 0 <= d < |m.begin| && d < |m.end| && m.begin[d] != m.end[d];
      Differs(r + m.begin + body, m.end, i, d);
    }
  }

  // ---- Replacing and extracting ----

  /** Where the block lands, and what stands around it. */
  function TextBefore(m: Markers, s: string): string
    requires Parses(m, s)
  {
    if HasMarkers(m, s) then RStrip(Head(s, m.begin)) + "\n\n" else if !BlankText(s) then RStrip(s) + "\n\n" else ""
  }

  function TextAfter(m: Markers, s: string): string
    requires Parses(m, s)
  {
    if HasMarkers(m, s) then AfterBlock(m, s) else "\n"
  }

  /** A BEGIN marker that no END marker follows. */
  predicate StrayBegin(m: Markers, s: string) { Contains(s, m.begin) && !Contains(s, m.end) }

  lemma TextBeforeFree(m: Markers, s: string)
    requires m.Usable() && Parses(m, s) && !StrayBegin(m, s)
    ensures !Contains(TextBefore(m, s), m.begin)
  {
    if HasMarkers(m, s) {
      HeadFree(s, m.begin);
      StrippedFree(Head(s, m.begin), m.begin);
    } else {
      StrippedFree(s, m.begin);
    }
  }

  lemma WellFormedHasMarkers(m: Markers, s: string)
    requires WellFormed(m, s)
    ensures HasMarkers(m, s)
  {
    var n, rest := First(s, m.begin) + |m.begin|, Tail(s, m.begin);
    var i :| 0 <= i <= |rest| && At(rest, m.end, i);
    assert rest == s[n..|s|];
    Occurrence(s, n, |s|, m.end, n + i);
  }

  lemma Regroup(before: string, begin: string, body: string, end: string, after: string)
    ensures before + (begin + body + end) + after == before + begin + (body + end + after)
  {
  }

  /** What extraction sees when the block stands behind text without a BEGIN marker. */
  lemma ExtractBehind(m: Markers, before: string, rules: string, after: string)
    requires m.Usable() && !Contains(before, m.begin) && CleanRules(m, rules)
    ensures var s := before + BlockOf(m, rules) + after;
      WellFormed(m, s) && HasMarkers(m, s) && Extract(m, s) == Block(BlockOf(m, rules))
      && Head(s, m.begin) == before && AfterBlock(m, s) == after
  {
    var body := "\n" + rules + "\n";
    BlockShape(m, rules);
    Regroup(before, m.begin, body, m.end, after);
    FirstAfterPrefix(before, m.begin, body + m.end + after);
    FirstAfterPrefix(body, m.end, after);
    WellFormedHasMarkers(m, before + BlockOf(m, rules) + after);
  }

  lemma BlockShape(m: Markers, rules: string)
    ensures BlockOf(m, rules) == m.begin + ("\n" + rules + "\n") + m.end
  {
  }

  lemma ReplaceShape(m: Markers, s: string, block: string)
    requires Parses(m, s)
    ensures Replace(m, s, block) == TextBefore(m, s) + block + TextAfter(m, s)
  {
  }

  lemma ReplacedBlock(m: Markers, s: string, rules: string)
    requires m.Usable() && CleanRules(m, rules) && Parses(m, s) && !StrayBegin(m, s)
    ensures var t := Replace(m, s, BlockOf(m, rules));
      && t == TextBefore(m, s) + BlockOf(m, rules) + TextAfter(m, s)
      && HasMarkers(m, t) && WellFormed(m, t) && Extract(m, t) == Block(BlockOf(m, rules))
      && Head(t, m.begin) == TextBefore(m, s) && AfterBlock(m, t) == TextAfter(m, s)
  {
    var before, after := TextBefore(m, s), TextAfter(m, s);
    ReplaceShape(m, s, BlockOf(m, rules));
    TextBeforeFree(m, s);
    ExtractBehind(m, before, rules, after);
  }

  /** The END marker of an appended block is the first one in the text. */
  lemma FirstEnd(m: Markers, r: string, rules: string)
    requires m.Usable() && CleanRules(m, rules) && !Contains(r, m.end)
    ensures var t := r + BlockOf(m, rules) + "\n";
      Contains(t, m.end) && First(t, m.end) == |r| + |BlockOf(m, rules)| - |m.end|
  {
    var body := "\n" + rules + "\n";
    BlockShape(m, rules);
    NoEndBefore(m, r, body);
    FirstAfterPrefix(r + m.begin + body, m.end, "\n");
    RegroupLeft(r, m.begin, body, m.end);
  }

  lemma RegroupLeft(r: string, begin: string, body: string, end: string)
    ensures r + (begin + body + end) + "\n" == (r + begin + body) + end + "\n"
  {
  }

  lemma {:induction false} StrippedPrefix(s: string, m: string, rest: string)
    requires Simple(m) && Contains(s, m)
    ensures !BlankText(s) && Contains(RStrip(s) + rest, m) && First(RStrip(s) + rest, m) + |m| <= |RStrip(s)|
  {
    var i := First(s, m);
    StripKeeps(s, m, i);
    var t := RStrip(s) + rest;
    assert t[0..|RStrip(s)|] == RStrip(s);
    Occurrence(t, 0, |RStrip(s)|, m, i);
  }

  /** Between a BEGIN marker and the first END marker lies the extracted block. */
  lemma {:induction false} ExtractedLength(m: Markers, t: string)
    requires WellFormed(m, t) && HasMarkers(m, t)
    ensures Extract(m, t).Block? && First(t, m.begin) + |Extract(m, t).text| >= First(t, m.end) + |m.end|
  {
    var n, rest := First(t, m.begin) + |m.begin|, Tail(t, m.begin);
    var j := First(rest, m.end);
    assert rest == t[n..|t|];
    Occurrence(t, n, |t|, m.end, n + j);
  }

  /** A stray BEGIN marker captures everything up to the END of the appended block. */
  lemma StrayBeginCaptures(m: Markers, s: string, rules: string)
    requires m.Usable() && CleanRules(m, rules) && StrayBegin(m, s)
    ensures var e := Extract(m, Replace(m, s, BlockOf(m, rules))); e.Block? && e.text != BlockOf(m, rules)
  {
    var r, b := RStrip(s) + "\n\n", BlockOf(m, rules);
    var t := r + b + "\n";
    assert t == RStrip(s) + ("\n\n" + b + "\n");
    StrippedPrefix(s, m.begin, "\n\n" + b + "\n");
    StrippedFree(s, m.end);
    FirstEnd(m, r, rules);
    EndFollows(m, t);
    ExtractedLength(m, t);
  }

  lemma {:induction false} EndFollows(m: Markers, t: string)
    requires Contains(t, m.begin) && Contains(t, m.end) && First(t, m.begin) + |m.begin| <= First(t, m.end)
    ensures WellFormed(m, t)
  {
    var n, e := First(t, m.begin) + |m.begin|, First(t, m.end);
    var rest := t[n..|t|];
    assert rest == Tail(t, m.begin);
    assert Contains(rest, m.end) by { Occurrence(t, n, |t|, m.end, e); }
  }

  /** After a merge or an update the block extracts again, unless the text has a BEGIN but no END marker. */
  lemma ExtractAfterReplace(m: Markers, s: string, rules: string)
    requires m.Usable() && CleanRules(m, rules) && Extract(m, s) != Crash
    ensures Extract(m, Replace(m, s, BlockOf(m, rules))) == Block(BlockOf(m, rules)) <==> !StrayBegin(m, s)
  {
    if StrayBegin(m, s) {
      StrayBeginCaptures(m, s, rules);
    } else {
      ReplacedBlock(m, s, rules);
    }
  }

  // ---- Replacing again ----

  lemma {:induction false} StripAppend(s: string, c: char)
    requires Space(c)
    ensures RStrip(s + [c]) == RStrip(s)
  {
    assert (s + [c])[..|s|] == s;
  }

  lemma {:induction false} StripIdempotent(s: string)
    ensures RStrip(RStrip(s)) == RStrip(s) && (BlankText(s) <==> RStrip(s) == "")
  {
    if RStrip(s) == "" {
      forall i | 0 <= i < |s| ensures Space(s[i]) { StrippedIsSpace(s, i); }
    } else {
      assert s[|RStrip(s)| - 1] == RStrip(s)[|RStrip(s)| - 1];
    }
  }

  lemma {:induction false} StripTwice(s: string)
    ensures RStrip(RStrip(s) + "\n\n") == RStrip(s)
    ensures BlankText(s) <==> RStrip(s) == ""
  {
    StripIdempotent(s);
    var r := RStrip(s);
    assert r + "\n\n" == (r + ['\n']) + ['\n'];
    StripAppend(r + ['\n'], '\n');
    StripAppend(r, '\n');
  }

  lemma ReplaceAgain(m: Markers, s: string, rules: string)
    requires m.Usable() && CleanRules(m, rules) && Parses(m, s) && !StrayBegin(m, s)
    ensures var t := Replace(m, s, BlockOf(m, rules));
      && Parses(m, t) && !StrayBegin(m, t)
      && Replace(m, t, BlockOf(m, rules)) == RStrip(TextBefore(m, s)) + "\n\n" + BlockOf(m, rules) + TextAfter(m, s)
  {
    ReplacedBlock(m, s, rules);
  }

  /** One replacement is a fixed point exactly when the text was not blank; two always are. */
  lemma ReplaceFixedPoint(m: Markers, s: string, rules: string)
    requires m.Usable() && CleanRules(m, rules) && Parses(m, s) && !StrayBegin(m, s)
    ensures var b := BlockOf(m, rules); var once := Replace(m, s, b);
      && Parses(m, once) && (Replace(m, once, b) == once <==> !BlankText(s))
      && Parses(m, Replace(m, once, b)) && Replace(m, Replace(m, once, b), b) == Replace(m, once, b)
  {
    var b := BlockOf(m, rules);
    ReplacedBlock(m, s, rules);
    ReplaceAgain(m, s, rules);
    var once := Replace(m, s, b);
    var twice := Replace(m, once, b);
    ReplacedBlock(m, once, rules);
    ReplaceAgain(m, once, rules);
    StripTwice(if HasMarkers(m, s) then Head(s, m.begin) else s);
    StripTwice("");
    if HasMarkers(m, s) {
      StripKeeps(s, m.begin, First(s, m.begin));
    }
    StripTwice(TextBefore(m, s));
    if BlankText(s) {
      assert |twice| == |once| + 2;
    }
  }

  // ---- Removing ----

  lemma StripBreak(c: char)
    requires Space(c)
    ensures LStrip([c]) == "" && BlankText([c])
  {
  }

  /** Removing the block just merged into text without markers gives back the text, right-trimmed. */
  lemma {:induction false} RemoveAfterMerge(m: Markers, s: string, rules: string)
    requires m.Usable() && CleanRules(m, rules) && !Contains(s, m.begin)
    ensures var t := Replace(m, s, BlockOf(m, rules));
      Parses(m, t) && Remove(m, t) == if BlankText(s) then "" else RStrip(s) + "\n"
  {
    ReplacedBlock(m, s, rules);
    JoinedWithBreak(TextBefore(m, s));
    StripTwice(s);
    StripTwice("");
    StripIdempotent(s);
    StripIdempotent(RStrip(s));
  }

  lemma {:induction false} JoinedWithBlank(before: string, after: string)
    requires BlankText(after) && LStrip(after) == ""
    ensures Joined(before, after) == RStrip(before)
  {
  }

  lemma {:induction false} JoinedWithBreak(before: string)
    ensures Joined(before, "\n") == RStrip(before)
  {
    StripBreak('\n');
    JoinedWithBlank(before, "\n");
  }

  /** An update rewrites the block and the white space before it, and nothing else. */
  lemma TextAroundSurvives(m: Markers, s: string, rules: string)
    requires m.Usable() && CleanRules(m, rules) && HasMarkers(m, s) && WellFormed(m, s)
    ensures s == Head(s, m.begin) + Extract(m, s).text + AfterBlock(m, s)
    ensures var t := Replace(m, s, BlockOf(m, rules));
      WellFormed(m, t) && AfterBlock(m, t) == AfterBlock(m, s) && RStrip(Head(t, m.begin)) == RStrip(Head(s, m.begin))
  {
    ReplacedBlock(m, s, rules);
    StripTwice(Head(s, m.begin));
    HeadFree(s, m.begin);
    HeadFree(Tail(s, m.begin), m.end);
    Regroup(Head(s, m.begin), m.begin, Head(Tail(s, m.begin), m.end), m.end, AfterBlock(m, s));
  }

  // ---- What is not white space ----

  /** The text without its white space. */
  function Visible(s: string): string {
    if s == "" then "" else Visible(s[..|s| - 1]) + (if Space(s[|s| - 1]) then "" else [s[|s| - 1]])
  }

  lemma {:induction false} VisibleConcat(s: string, t: string)
    ensures Visible(s + t) == Visible(s) + Visible(t)
    decreases |t|
  {
    if t == "" {
      assert s + t == s;
    } else {
      assert (s + t)[..|s + t| - 1] == s + t[..|t| - 1];
      VisibleConcat(s, t[..|t| - 1]);
    }
  }

  lemma {:induction false} BlankIsInvisible(s: string)
    requires BlankText(s)
    ensures Visible(s) == ""
  {
    if s != "" {
      BlankIsInvisible(s[..|s| - 1]);
    }
  }

  lemma {:induction false} RStripIsInvisible(s: string)
    ensures Visible(RStrip(s)) == Visible(s)
  {
    var r := RStrip(s);
    forall i | |r| <= i < |s| ensures Space(s[i]) { StrippedIsSpace(s, i); }
    BlankIsInvisible(s[|r|..]);
    VisibleConcat(r, s[|r|..]);
    assert s == r + s[|r|..];
  }

  lemma {:induction false} FirstIsInvisible(s: string)
    requires s != "" && Space(s[0])
    ensures Visible(s) == Visible(s[1..])
  {
    BlankIsInvisible(s[..1]);
    VisibleConcat(s[..1], s[1..]);
    assert s == s[..1] + s[1..];
  }

  lemma {:induction false} LStripIsInvisible(s: string)
    ensures Visible(LStrip(s)) == Visible(s)
  {
    if s != "" && Space(s[0]) {
      FirstIsInvisible(s);
      LStripIsInvisible(s[1..]);
    }
  }

  /** Removing a block takes out the block and white space only. */
  lemma {:induction false} RemoveKeepsVisible(m: Markers, s: string)
    requires HasMarkers(m, s) && WellFormed(m, s)
    ensures Visible(Remove(m, s)) == Visible(Head(s, m.begin)) + Visible(AfterBlock(m, s))
  {
    var before, after := Head(s, m.begin), AfterBlock(m, s);
    var combined := Joined(before, after);
    JoinedVisible(before, after);
    RStripIsInvisible(combined);
    BreakAppended(RStrip(combined), !BlankText(combined));
  }

  lemma BreakAppended(s: string, more: bool)
    ensures Visible(s + (if more then "\n" else "")) == Visible(s)
  {
    BlankIsInvisible(if more then "\n" else "");
    VisibleConcat(s, if more then "\n" else "");
  }

  lemma {:induction false} JoinedVisible(before: string, after: string)
    ensures Visible(Joined(before, after)) == Visible(before) + Visible(after)
  {
    var more := !BlankText(before) && !BlankText(after);
    RStripIsInvisible(before);
    LStripIsInvisible(after);
    BreakAppended(RStrip(before), more);
    VisibleConcat(RStrip(before) + (if more then "\n" else ""), LStrip(after));
  }
}
