/** The audit ledger: a second hash chain, with idempotent appends and external checkpoints (ledger.py). */
module AuditLedgers {
  import opened Basics
  import opened HashChain
  import opened Runs

  datatype Entry = Entry(createdAt: string, taskId: Option<string>, key: string, payload: string)

  type Row = Link<Entry, ()>

  /** The entries, and the AUTOINCREMENT counter of the table: the largest sequence ever handed out. */
  datatype Table = Table(rows: seq<Row>, counter: int)

  datatype Checkpoint = Checkpoint(sequence: int, head: Digest)

  datatype Append = Append(payload: string, key: Option<string>, taskId: Option<string>, now: string)

  datatype AppendResult = Stored(row: Row) | Existing(row: Row) | Refused(failure: Failure)

  datatype LedgerError = SequenceGap | PreviousHashMismatch | RecordHashMismatch | CheckpointMismatch

  datatype Hashing = Hashing(rowHash: (int, Digest, Entry) -> Digest, payloadHash: string -> string) {
    function Hasher(): Hasher<Entry, ()> { HashChain.Hasher(rowHash, d => ()) }
  }

  function KeyFor(h: Hashing, a: Append): string {
    if Blank(a.key) then h.payloadHash(a.payload) else a.key.value
  }

  predicate HasKey(rows: seq<Row>, key: string) {
    exists i :: 0 <= i < |rows| && rows[i].body.key == key
  }

  /** The first row with a key; the UNIQUE column makes it the only one. */
  function RowWithKey(rows: seq<Row>, key: string): (r: Row)
    requires HasKey(rows, key)
    ensures r in rows && r.body.key == key
  {
    if rows[0].body.key == key then rows[0]
    else
      assert HasKey(rows[1..], key) by {
        var i :| 0 <= i < |rows| && rows[i].body.key == key;
        assert rows[1..][i - 1].body.key == key;
      }
      RowWithKey(rows[1..], key)
  }

  predicate HasDigest(rows: seq<Row>, digest: Digest) {
    exists i :: 0 <= i < |rows| && rows[i].digest == digest
  }

  /** The row an append writes under its key. */
  function NewRow(h: Hashing, t: Table, a: Append): Row {
    var entry := Entry(a.now, a.taskId, KeyFor(h, a), a.payload);
    Link(t.counter + 1, Head(t.rows), entry, h.rowHash(t.counter + 1, Head(t.rows), entry), ())
  }

  function AppendOutcome(h: Hashing, t: Table, a: Append): AppendResult {
    if HasKey(t.rows, KeyFor(h, a)) then Existing(RowWithKey(t.rows, KeyFor(h, a)))
    else if HasDigest(t.rows, NewRow(h, t, a).digest) then Refused(IntegrityError)
    else Stored(NewRow(h, t, a))
  }

  function After(h: Hashing, t: Table, a: Append): Table {
    var outcome := AppendOutcome(h, t, a);
    if outcome.Stored? then Table(t.rows + [outcome.row], t.counter + 1) else t
  }

  const EMPTY := Table([], 0)

  function CheckpointOf(rows: seq<Row>): Checkpoint {
    Checkpoint(if rows == [] then 0 else rows[|rows| - 1].sequence, Head(rows))
  }

  predicate Matches(rows: seq<Row>, c: Checkpoint) {
    c.sequence == |rows| && c.head == Head(rows)
  }

  class AuditLedger {
    const hashing: Hashing
    var rows: seq<Row>
    var counter: int

    function Contents(): Table
      reads this
    {
      Table(rows, counter)
    }

    constructor (hashing: Hashing)
      ensures this.hashing == hashing && Contents() == EMPTY
    {
      this.hashing := hashing;
      rows, counter := [], 0;
    }

    method AppendRecord(a: Append) returns (r: AppendResult)
      modifies this
      ensures r == AppendOutcome(hashing, old(Contents()), a)
      ensures Contents() == After(hashing, old(Contents()), a)
    {
      var key := KeyFor(hashing, a);
      if HasKey(rows, key) {
        return Existing(RowWithKey(rows, key));
      }
      var entry := Entry(a.now, a.taskId, key, a.payload);
      var sequence, previous := counter + 1, if rows == [] then GENESIS_HASH else rows[|rows| - 1].digest;
      var digest := hashing.rowHash(sequence, previous, entry);
      if HasDigest(rows, digest) {
        return Refused(IntegrityError);
      }
      var row: Row := Link(sequence, previous, entry, digest, ());
      rows, counter := rows + [row], sequence;
      return Stored(row);
    }

    method CreateCheckpoint() returns (c: Checkpoint)
      ensures c == CheckpointOf(rows)
    {
      return Checkpoint(if rows == [] then 0 else rows[|rows| - 1].sequence, Head(rows));
    }

    method VerifyLedger(checkpoint: Option<Checkpoint>) returns (errors: seq<LedgerError>, count: nat, head: Digest)
      ensures errors == [] <==>
        && Linked(hashing.Hasher(), rows)
        && (checkpoint.Some? ==> checkpoint.value.sequence == |rows| && checkpoint.value.head == Head(rows))
      ensures count == |rows| && head == Head(rows)
    {
      errors := [];
      var previousHash, expectedSequence := GENESIS_HASH, 1;
      for i := 0 to |rows|
        invariant previousHash == Head(rows[..i])
        invariant errors == [] <==> Linked(hashing.Hasher(), rows[..i])
        invariant errors == [] ==> expectedSequence == i + 1
      {
        var row := rows[i];
        var found := [];
        if row.sequence != expectedSequence { found := found + [SequenceGap]; }
        if row.previous != previousHash { found := found + [PreviousHashMismatch]; }
        if row.digest != hashing.rowHash(row.sequence, row.previous, row.body) { found := found + [RecordHashMismatch]; }
        assert rows[..i + 1] == rows[..i] + [row];
        AppendLinked(hashing.Hasher(), rows[..i], row);
        assert row.seal == ();
        assert found == [] && errors == [] <==> Linked(hashing.Hasher(), rows[..i]) && row == NextLink(hashing.Hasher(), rows[..i], row.body);
        assert errors + found == [] <==> errors == [] && found == [];
        errors := errors + found;
        previousHash, expectedSequence := row.digest, row.sequence + 1;
      }
      assert rows[..|rows|] == rows;
      count, head := |rows|, previousHash;
      if checkpoint.Some? && !(checkpoint.value.sequence == count && checkpoint.value.head == head) {
        errors := errors + [CheckpointMismatch];
      }
    }
  }

  // ---- What an append stores ----

  /** The key of a row: the one given with the append, or else the hash of its payload. */
  function KeyGiven(h: Hashing, a: Append): string {
    match a.key
    case Some(key) => if key != "" then key else h.payloadHash(a.payload)
    case None => h.payloadHash(a.payload)
  }

  /** The row: the next number of the table, the digest of the last row, and the append as it was given. */
  predicate Stores(h: Hashing, t: Table, a: Append, row: Row) {
    && row.sequence == t.counter + 1
    && row.previous == (if t.rows == [] then GENESIS_HASH else t.rows[|t.rows| - 1].digest)
    && row.body == Entry(a.now, a.taskId, KeyGiven(h, a), a.payload)
    && row.digest == h.rowHash(row.sequence, row.previous, row.body)
  }

  /** An append is answered with the row that has its key, if one has; refused, if its digest is taken; and otherwise stored
      under its key, at the end, and counted. */
  lemma AppendExactly(h: Hashing, t: Table, a: Append)
    ensures var outcome := AppendOutcome(h, t, a); var after := After(h, t, a);
      match outcome
      case Existing(row) => row in t.rows && row.body.key == KeyGiven(h, a) && after == t
      case Refused(failure) =>
        && failure == IntegrityError && after == t && (forall i :: 0 <= i < |t.rows| ==> t.rows[i].body.key != KeyGiven(h, a))
        && exists row, i :: Stores(h, t, a, row) && 0 <= i < |t.rows| && t.rows[i].digest == row.digest
      case Stored(row) =>
        && Stores(h, t, a, row) && after == Table(t.rows + [row], t.counter + 1)
        && forall i :: 0 <= i < |t.rows| ==> t.rows[i].body.key != KeyGiven(h, a) && t.rows[i].digest != row.digest
  {
    assert KeyFor(h, a) == KeyGiven(h, a);
    var row := NewRow(h, t, a);
    assert Stores(h, t, a, row);
    if AppendOutcome(h, t, a).Refused? {
      var i :| 0 <= i < |t.rows| && t.rows[i].digest == row.digest;
      assert Stores(h, t, a, row) && t.rows[i].digest == row.digest;
    }
  }

  // ---- Runs of appends ----

  predicate KeysDistinct(rows: seq<Row>) {
    forall i, j :: 0 <= i < j < |rows| ==> rows[i].body.key != rows[j].body.key
  }

  ghost predicate Sound(h: Hashing, t: Table) {
    Linked(h.Hasher(), t.rows) && t.counter == |t.rows| && KeysDistinct(t.rows)
  }

  lemma AppendKeepsSound(h: Hashing, t: Table, a: Append)
    requires Sound(h, t)
    ensures Sound(h, After(h, t, a))
  {
    if AppendOutcome(h, t, a).Stored? {
      AppendLinked(h.Hasher(), t.rows, NewRow(h, t, a));
    }
  }

  ghost function Appending(h: Hashing): (Table, Append) -> Table { (t, a) => After(h, t, a) }

  /** Whatever writers append in whatever order, the ledger verifies and no key is stored twice. */
  lemma {:induction false} RunVerifies(h: Hashing, appends: seq<Append>)
    ensures Sound(h, RunOf(Appending(h), EMPTY, appends))
  {
    forall t: Table, a: Append | Sound(h, t) ensures Sound(h, After(h, t, a)) {
      AppendKeepsSound(h, t, a);
    }
    InvariantAlong(Appending(h), a => true, t => Sound(h, t), EMPTY, appends);
  }

  lemma {:induction false} OnlyRowWithKey(rows: seq<Row>, i: nat)
    requires KeysDistinct(rows) && i < |rows|
    ensures HasKey(rows, rows[i].body.key) && RowWithKey(rows, rows[i].body.key) == rows[i]
  {
  }

  predicate Extends(t: Table, u: Table) { t.rows <= u.rows }

  lemma {:induction false} RunExtends(h: Hashing, t: Table, appends: seq<Append>)
    requires Sound(h, t)
    ensures Extends(t, RunOf(Appending(h), t, appends)) && Sound(h, RunOf(Appending(h), t, appends))
  {
    forall t: Table, a: Append | Sound(h, t) ensures Sound(h, After(h, t, a)) && Extends(t, After(h, t, a)) {
      AppendKeepsSound(h, t, a);
    }
    RelatedAlong(Appending(h), a => true, t => Sound(h, t), (t, u) => Extends(t, u), t, appends);
    InvariantAlong(Appending(h), a => true, t => Sound(h, t), t, appends);
  }

  /** A stored append is idempotent for ever: a retry under its key returns the first row and changes nothing,
      whatever was appended in between, and even if the retry carries another payload. */
  lemma {:induction false} RetryReturnsFirst(h: Hashing, t: Table, a: Append, between: seq<Append>, retry: Append)
    requires Sound(h, t) && AppendOutcome(h, t, a).Stored? && KeyFor(h, retry) == KeyFor(h, a)
    ensures var later := RunOf(Appending(h), After(h, t, a), between);
      AppendOutcome(h, later, retry) == Existing(NewRow(h, t, a)) && After(h, later, retry) == later
  {
    AppendKeepsSound(h, t, a);
    RunExtends(h, After(h, t, a), between);
    OnlyRowWithKey(RunOf(Appending(h), After(h, t, a), between).rows, |t.rows|);
  }

  ghost predicate PayloadHashInjective(h: Hashing) {
    forall p, q :: h.payloadHash(p) == h.payloadHash(q) ==> p == q
  }

  /** With keys left to the payload hash, a retry that finds a row finds its own payload. */
  lemma DefaultKeysAreExact(h: Hashing, t: Table, retry: Append)
    requires PayloadHashInjective(h) && Blank(retry.key) && AppendOutcome(h, t, retry).Existing?
    requires forall i :: 0 <= i < |t.rows| ==> t.rows[i].body.key == h.payloadHash(t.rows[i].body.payload)
    ensures AppendOutcome(h, t, retry).row.body.payload == retry.payload
  {
    var r := RowWithKey(t.rows, KeyFor(h, retry));
    var i :| 0 <= i < |t.rows| && t.rows[i] == r;
  }

  // ---- Truncation and checkpoints ----

  /** A ledger verifies against a checkpoint if and only if it is the ledger the checkpoint was taken of. */
  lemma CheckpointPinsLedger(h: Hashing, rows: seq<Row>, altered: seq<Row>)
    requires Ideal(h.Hasher()) && Linked(h.Hasher(), rows)
    ensures Linked(h.Hasher(), altered) && Matches(altered, CheckpointOf(rows)) <==> altered == rows
  {
    if rows != [] {
      assert LinkedAt(h.Hasher(), rows, |rows| - 1);
    }
    if Linked(h.Hasher(), altered) && Matches(altered, CheckpointOf(rows)) {
      HeadDeterminesChain(h.Hasher(), rows, altered);
    }
  }

  /** The tail of the table is deleted behind the toolkit's back; the AUTOINCREMENT counter stays. */
  function Truncated(t: Table, n: nat): Table
    requires n <= |t.rows|
  {
    Table(t.rows[..n], t.counter)
  }

  /** Without a checkpoint a truncated ledger verifies, until the next row is stored: its number leaves a gap. */
  lemma TruncationShowsOnAppend(h: Hashing, t: Table, n: nat, a: Append)
    requires Sound(h, t) && n < |t.rows|
    ensures Linked(h.Hasher(), Truncated(t, n).rows) && !Matches(Truncated(t, n).rows, CheckpointOf(t.rows))
    ensures AppendOutcome(h, Truncated(t, n), a).Stored? <==> !Linked(h.Hasher(), After(h, Truncated(t, n), a).rows)
  {
    PrefixLinked(h.Hasher(), t.rows, n);
    assert LinkedAt(h.Hasher(), t.rows, |t.rows| - 1);
    var cut := Truncated(t, n);
    if AppendOutcome(h, cut, a).Stored? {
      AppendLinked(h.Hasher(), cut.rows, NewRow(h, cut, a));
    }
  }
}
