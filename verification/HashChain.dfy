/** Append-only hash chains, shared by the lifecycle ledger and the audit ledger. */
module HashChain {

  import opened Basics

  const GENESIS_HASH: Digest := "sha256:0000000000000000000000000000000000000000000000000000000000000000"

  /** One row: `digest` commits to the three fields before it, `seal` is derived from `digest`. */
  datatype Link<T, S> = Link(sequence: int, previous: Digest, body: T, digest: Digest, seal: S)

  datatype Hasher<!T, S> = Hasher(hash: (int, Digest, T) -> Digest, seal: Digest -> S)

  function Head<T, S>(chain: seq<Link<T, S>>): Digest {
    if chain == [] then GENESIS_HASH else chain[|chain| - 1].digest
  }

  /** The row that `_append_event_tx` and `append_record` insert. */
  function NextLink<T, S>(h: Hasher<T, S>, chain: seq<Link<T, S>>, body: T): Link<T, S> {
    var digest := h.hash(|chain| + 1, Head(chain), body);
    Link(|chain| + 1, Head(chain), body, digest, h.seal(digest))
  }

  /** What anyone can check about a row without the sealing key. */
  ghost predicate HashedAt<T, S>(h: Hasher<T, S>, chain: seq<Link<T, S>>, i: nat)
    requires i < |chain|
  {
    && chain[i].sequence == i + 1
    && chain[i].previous == Head(chain[..i])
    && chain[i].digest == h.hash(chain[i].sequence, chain[i].previous, chain[i].body)
  }

  ghost predicate LinkedAt<T, S>(h: Hasher<T, S>, chain: seq<Link<T, S>>, i: nat)
    requires i < |chain|
  {
    HashedAt(h, chain, i) && chain[i].seal == h.seal(chain[i].digest)
  }

  /** Numbered from one, each row naming its predecessor's digest, each digest and seal recomputable. */
  ghost predicate Linked<T, S>(h: Hasher<T, S>, chain: seq<Link<T, S>>) {
    forall i :: 0 <= i < |chain| ==> LinkedAt(h, chain, i)
  }

  predicate SameDigest<T, S>(h: Hasher<T, S>, n: int, p: Digest, b: T, n': int, p': Digest, b': T) {
    h.hash(n, p, b) == h.hash(n', p', b')
  }

  /** The idealised hash: no two materials collide, and none hashes to the genesis value. */
  ghost predicate Ideal<T(!new), S>(h: Hasher<T, S>) {
    && (forall n, p, b, n', p', b' :: SameDigest(h, n, p, b, n', p', b') ==> n == n' && p == p' && b == b')
    && (forall n, p, b :: h.hash(n, p, b) != GENESIS_HASH)
  }

  lemma PrefixLinked<T, S>(h: Hasher<T, S>, chain: seq<Link<T, S>>, n: nat)
    requires Linked(h, chain) && n <= |chain|
    ensures Linked(h, chain[..n])
  {
    forall i | 0 <= i < n ensures LinkedAt(h, chain[..n], i) {
      assert LinkedAt(h, chain, i);
      assert chain[..n][..i] == chain[..i];
    }
  }

  /** A row keeps the chain linked exactly when it is the row the store would have written. */
  lemma AppendLinked<T, S>(h: Hasher<T, S>, chain: seq<Link<T, S>>, link: Link<T, S>)
    ensures Linked(h, chain + [link]) <==> Linked(h, chain) && link == NextLink(h, chain, link.body)
  {
    var longer := chain + [link];
    assert longer[..|chain|] == chain;
    if Linked(h, longer) {
      assert LinkedAt(h, longer, |chain|);
      PrefixLinked(h, longer, |chain|);
    }
    if Linked(h, chain) && link == NextLink(h, chain, link.body) {
      forall i | 0 <= i < |longer| ensures LinkedAt(h, longer, i) {
        if i < |chain| {
          assert LinkedAt(h, chain, i);
          assert longer[..i] == chain[..i];
        }
      }
    }
  }

  /** Two verified chains with one head are the same chain, row for row. */
  lemma {:induction false} HeadDeterminesChain<T(!new), S>(h: Hasher<T, S>, a: seq<Link<T, S>>, b: seq<Link<T, S>>)
    requires Ideal(h) && Linked(h, a) && Linked(h, b) && Head(a) == Head(b)
    ensures a == b
    decreases |a|
  {
    if a != [] {
      assert LinkedAt(h, a, |a| - 1);
    }
    if b != [] {
      assert LinkedAt(h, b, |b| - 1);
    }
    if a != [] && b != [] {
      var n := |a| - 1;
      assert SameDigest(h, a[n].sequence, a[n].previous, a[n].body, b[|b| - 1].sequence, b[|b| - 1].previous, b[|b| - 1].body);
      PrefixLinked(h, a, n);
      PrefixLinked(h, b, n);
      HeadDeterminesChain(h, a[..n], b[..n]);
      assert a == a[..n] + [a[n]] && b == b[..n] + [b[n]];
    }
  }

  /** Every edit, reorder, insertion or truncation moves the head or fails verification. */
  lemma TamperingIsVisible<T(!new), S>(h: Hasher<T, S>, chain: seq<Link<T, S>>, altered: seq<Link<T, S>>)
    requires Ideal(h) && Linked(h, chain) && altered != chain
    ensures !Linked(h, altered) || Head(altered) != Head(chain)
  {
    if Linked(h, altered) && Head(altered) == Head(chain) {
      HeadDeterminesChain(h, chain, altered);
    }
  }
}
