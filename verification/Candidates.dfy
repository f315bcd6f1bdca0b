/** Names for conflict candidates and the unbounded search for a usable one (installer.py). */
module Candidates {
  import opened Basics

  /** What stands at a path: bytes, or something that is not a regular file. */
  datatype Node = File(data: string) | Directory

  type Tree = map<string, Node>

  type Hash = string -> Digest

  /** SHA-256 as the installer relies on it. */
  ghost predicate Injective(h: Hash) {
    forall a, b :: h(a) == h(b) ==> a == b
  }

  // ---- Names ----

  function Digit(n: nat): char
    requires n < 10
  {
    "0123456789"[n]
  }

  predicate IsDigit(c: char) { '0' <= c <= '9' }

  /** `str(n)` */
  function Decimal(n: nat): (s: string)
    ensures s != [] && forall i :: 0 <= i < |s| ==> IsDigit(s[i])
  {
    if n < 10 then [Digit(n)] else Decimal(n / 10) + [Digit(n % 10)]
  }

  /** The number a row of digits stands for. */
  function NumberOf(s: string): nat
    requires forall i :: 0 <= i < |s| ==> IsDigit(s[i])
  {
    if s == [] then 0
    else
      assert IsDigit(s[|s| - 1]);
      10 * NumberOf(s[..|s| - 1]) + (s[|s| - 1] - '0') as nat
  }

  /** It is written in decimal, without leading zeros. */
  lemma {:induction false} DecimalReads(n: nat)
    ensures NumberOf(Decimal(n)) == n && (n > 0 ==> Decimal(n)[0] != '0')
  {
    if n >= 10 {
      DecimalReads(n / 10);
      assert Decimal(n)[..|Decimal(n)| - 1] == Decimal(n / 10);
    }
    assert Decimal(n)[|Decimal(n)| - 1] == Digit(n % 10);
    DigitReads(n % 10);
    if n < 10 {
      assert Decimal(n)[..0] == [];
    }
  }

  lemma DigitReads(n: nat)
    requires n < 10
    ensures (Digit(n) - '0') as nat == n
  {
  }

  lemma DecimalInjective(a: nat, b: nat)
    requires Decimal(a) == Decimal(b)
    ensures a == b
  {
    DecimalReads(a);
    DecimalReads(b);
  }

  const SUFFIX := ".ztad.new"

  /** The k-th candidate for a path: `.ztad.new`, then `.ztad.new.1` and so on. */
  function Candidate(path: string, k: nat): string {
    if k == 0 then path + SUFFIX else path + SUFFIX + "." + Decimal(k)
  }

  /** The names a conflict may take: the path with `.ztad.new`, and from the second on a dot and its number. */
  lemma CandidateIs(path: string, k: nat)
    ensures Candidate(path, 0) == path + ".ztad.new"
    ensures k > 0 ==> exists s :: Candidate(path, k) == path + ".ztad.new." + s && (forall i :: 0 <= i < |s| ==> IsDigit(s[i])) && NumberOf(s) == k
  {
    DecimalReads(k);
    if k > 0 {
      assert Candidate(path, k) == path + ".ztad.new." + Decimal(k);
    }
  }

  lemma LastOf(a: string, b: string)
    requires b != []
    ensures (a + b)[|a + b| - 1] == b[|b| - 1]
  {
  }

  lemma DotBeforeDigits(a: string, x: string)
    requires forall i :: 0 <= i < |x| ==> IsDigit(x[i])
    ensures var s := a + "." + x; s[|a|] == '.' && forall i :: |a| < i < |s| ==> s[i] != '.'
  {
  }

  /** Text that ends in a dot and digits splits at that dot in one way only. */
  lemma DottedInjective(a: string, x: string, b: string, y: string)
    requires a + "." + x == b + "." + y
    requires (forall i :: 0 <= i < |x| ==> IsDigit(x[i])) && forall i :: 0 <= i < |y| ==> IsDigit(y[i])
    ensures a == b && x == y
  {
    DotBeforeDigits(a, x);
    DotBeforeDigits(b, y);
    var s := a + "." + x;
    assert |a| == |b|;
    assert a == s[..|a|] && b == s[..|b|];
    assert x == s[|a| + 1..] && y == s[|b| + 1..];
  }

  /** Different paths never share a candidate, and the candidates of one path are all different. */
  lemma CandidateInjective(p: string, i: nat, q: string, j: nat)
    requires Candidate(p, i) == Candidate(q, j)
    ensures p == q && i == j
  {
    LastOf(p, SUFFIX);
    LastOf(q, SUFFIX);
    LastOf(p + SUFFIX + ".", Decimal(i));
    LastOf(q + SUFFIX + ".", Decimal(j));
    if i > 0 && j > 0 {
      DottedInjective(p + SUFFIX, Decimal(i), q + SUFFIX, Decimal(j));
      DecimalInjective(i, j);
    }
    assert p == (p + SUFFIX)[..|p|] && q == (q + SUFFIX)[..|q|];
  }

  // ---- The search ----

  /** A naming scheme for candidates: `Candidate`, or any other that never repeats a name. */
  type Names = (string, nat) -> string

  predicate SameName(name: Names, p: string, i: nat, q: string, j: nat) { name(p, i) == name(q, j) }

  ghost predicate NeverRepeats(name: Names) {
    forall p, i, q, j :: SameName(name, p, i, q, j) ==> p == q && i == j
  }

  lemma CandidateNeverRepeats()
    ensures NeverRepeats((p: string, i: nat) => Candidate(p, i))
  {
    var name: Names := (p: string, i: nat) => Candidate(p, i);
    forall p, i, q, j | SameName(name, p, i, q, j) ensures p == q && i == j {
      CandidateInjective(p, i, q, j);
    }
  }

  predicate HoldsSame(h: Hash, tree: Tree, path: string, data: string) {
    path in tree && tree[path].File? && h(tree[path].data) == h(data)
  }

  /** The search passes over this name: something else is there. */
  predicate Taken(h: Hash, tree: Tree, path: string, data: string) {
    path in tree && !HoldsSame(h, tree, path, data)
  }

  ghost predicate Passed(h: Hash, name: Names, tree: Tree, path: string, data: string, k: nat) {
    forall j :: 0 <= j < k ==> Taken(h, tree, name(path, j), data)
  }

  /** The search stops at `k`. */
  ghost predicate Found(h: Hash, name: Names, tree: Tree, path: string, data: string, k: nat) {
    Passed(h, name, tree, path, data, k) && !Taken(h, tree, name(path, k), data)
  }

  /** The paths of the tree that the first `k` turns have not seen. */
  ghost function Unseen(name: Names, tree: Tree, path: string, k: nat): set<string> {
    tree.Keys - set j | 0 <= j < k :: name(path, j)
  }

  ghost function UnseenCount(name: Names, tree: Tree, path: string, k: nat): nat { |Unseen(name, tree, path, k)| }

  /** Every turn that goes on has used up one path of a finite tree. */
  lemma TurnUsesPath(h: Hash, name: Names, tree: Tree, path: string, data: string, k: nat)
    requires NeverRepeats(name) && Passed(h, name, tree, path, data, k) && Taken(h, tree, name(path, k), data)
    ensures Passed(h, name, tree, path, data, k + 1)
    ensures UnseenCount(name, tree, path, k + 1) < UnseenCount(name, tree, path, k)
  {
    var c := name(path, k);
    if c !in Unseen(name, tree, path, k) {
      var j :| 0 <= j < k && name(path, j) == c;
      assert SameName(name, path, j, path, k);
    }
    assert Unseen(name, tree, path, k + 1) == Unseen(name, tree, path, k) - {c};
  }

  /** In every tree the search stops somewhere. */
  lemma {:induction false} SearchStops(h: Hash, name: Names, tree: Tree, path: string, data: string, k: nat) returns (r: nat)
    requires NeverRepeats(name) && Passed(h, name, tree, path, data, k)
    ensures Found(h, name, tree, path, data, r)
    decreases UnseenCount(name, tree, path, k)
  {
    r := k;
    if Taken(h, tree, name(path, k), data) {
      TurnUsesPath(h, name, tree, path, data, k);
      r := SearchStops(h, name, tree, path, data, k + 1);
    }
  }

  /** Where the search stops. */
  ghost function Search(h: Hash, name: Names, tree: Tree, path: string, data: string): nat {
    if r: nat :| Found(h, name, tree, path, data, r) then r else 0
  }

  lemma SearchFound(h: Hash, name: Names, tree: Tree, path: string, data: string)
    requires NeverRepeats(name)
    ensures Found(h, name, tree, path, data, Search(h, name, tree, path, data))
  {
    var r := SearchStops(h, name, tree, path, data, 0);
  }

  lemma FoundIsSearch(h: Hash, name: Names, tree: Tree, path: string, data: string, k: nat)
    requires Found(h, name, tree, path, data, k)
    ensures k == Search(h, name, tree, path, data)
  {
  }

  /** _candidate_relative */
  method CandidateRelative(h: Hash, name: Names, tree: Tree, path: string, data: string) returns (candidate: string, same: bool)
    requires NeverRepeats(name)
    ensures candidate == name(path, Search(h, name, tree, path, data))
    ensures same <==> candidate in tree
    ensures same ==> HoldsSame(h, tree, candidate, data)
  {
    var index := 0;
    candidate := name(path, index);
    while true
      invariant candidate == name(path, index) && Passed(h, name, tree, path, data, index)
      decreases UnseenCount(name, tree, path, index)
    {
      if candidate !in tree {
        FoundIsSearch(h, name, tree, path, data, index);
        return candidate, false;
      }
      if HoldsSame(h, tree, candidate, data) {
        FoundIsSearch(h, name, tree, path, data, index);
        return candidate, true;
      }
      TurnUsesPath(h, name, tree, path, data, index);
      index := index + 1;
      candidate := name(path, index);
    }
  }
}
