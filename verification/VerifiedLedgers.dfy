/** What a verified ledger proves by itself, whoever wrote it. */
module VerifiedLedgers {
  import opened Records
  import opened HashChain
  import opened Events
  import opened Guards
  import opened ChainVerification

  // ---- Case histories ----

  /** Each event of the case verifies after the earlier ones. */
  predicate CaseVerified(env: Environment, history: seq<Event>) {
    forall i :: 0 <= i < |history| ==> CaseVerifiedAt(env, history, i)
  }

  predicate CaseVerifiedAt(env: Environment, history: seq<Event>, i: nat)
    requires i < |history|
  {
    BodyOk(env, history[..i], history[i].body)
  }

  lemma CaseVerifiedAppend(env: Environment, history: seq<Event>, e: Event)
    requires CaseVerified(env, history) && BodyOk(env, history, e.body)
    ensures CaseVerified(env, history + [e])
  {
    var longer := history + [e];
    forall i | 0 <= i < |longer| ensures CaseVerifiedAt(env, longer, i) {
      if i < |history| {
        assert CaseVerifiedAt(env, history, i);
        assert longer[..i] == history[..i];
      } else {
        assert longer[..i] == history;
      }
    }
  }

  lemma {:induction false} HistoriesVerify(env: Environment, events: seq<Event>, caseId: string)
    requires EventsOk(env, events)
    ensures CaseVerified(env, History(events, caseId))
  {
    if events != [] {
      var n := |events| - 1;
      assert events == events[..n] + [events[n]];
      EventsOkAppend(env, events[..n], events[n]);
      HistoriesVerify(env, events[..n], caseId);
      if events[n].body.caseId == caseId {
        CaseVerifiedAppend(env, History(events[..n], caseId), events[n]);
      }
    }
  }

  // ---- Subject epochs ----

  function MaterialAt(history: seq<Event>, i: nat): Material
    requires i < |history|
  {
    history[i].body.subject.material
  }

  /** How many of the first `n` events changed the material subject. */
  function MaterialMutations(history: seq<Event>, n: nat): nat
    requires n <= |history|
  {
    if n <= 1 then 0
    else MaterialMutations(history, n - 1) + (if MaterialAt(history, n - 1) != MaterialAt(history, n - 2) then 1 else 0)
  }

  lemma EpochBetween(env: Environment, prev: Body, b: Body)
    requires SelfConsistent(env, prev) && SelfConsistent(env, b) && EpochStepOk(env, prev.state, b.state)
    ensures b.epoch == prev.epoch + (if b.subject.material != prev.subject.material then 1 else 0)
  {
  }

  lemma EpochStep(env: Environment, history: seq<Event>, i: nat)
    requires CaseVerified(env, history) && 0 < i < |history|
    ensures history[i].body.epoch
         == history[i - 1].body.epoch + (if MaterialAt(history, i) != MaterialAt(history, i - 1) then 1 else 0)
  {
    assert CaseVerifiedAt(env, history, i - 1);
    assert CaseVerifiedAt(env, history, i);
    assert Last(history[..i]) == history[i - 1];
    EpochBetween(env, history[i - 1].body, history[i].body);
  }

  /** The epoch of an event is the first epoch plus the number of material mutations so far. */
  lemma {:induction false} EpochCountsMutations(env: Environment, history: seq<Event>, i: nat)
    requires CaseVerified(env, history) && i < |history|
    ensures history[i].body.epoch == history[0].body.epoch + MaterialMutations(history, i + 1)
  {
    if i > 0 {
      EpochStep(env, history, i);
      EpochCountsMutations(env, history, i - 1);
    }
  }

  /** Within a case, one epoch names one material subject. */
  lemma {:induction false} EpochDeterminesSubject(env: Environment, history: seq<Event>, i: nat, j: nat)
    requires CaseVerified(env, history) && i <= j < |history|
    ensures history[i].body.epoch <= history[j].body.epoch
    ensures history[i].body.epoch == history[j].body.epoch ==> MaterialAt(history, i) == MaterialAt(history, j)
  {
    if i < j {
      EpochStep(env, history, j);
      EpochDeterminesSubject(env, history, i, j - 1);
    }
  }

  // ---- Single use of authorizations ----

  lemma {:induction false} EarlierIsShorter(events: seq<Event>, i: nat, j: nat)
    requires i < j <= |events|
    ensures |History(events[..i], events[i].body.caseId)| < |History(events[..j], events[i].body.caseId)|
    decreases j
  {
    var c := events[i].body.caseId;
    assert events[..j] == events[..j - 1] + [events[j - 1]];
    HistoryAppend(events[..j - 1], events[j - 1], c);
    if i < j - 1 {
      EarlierIsShorter(events, i, j - 1);
    }
  }

  lemma AuthorizedClaim(env: Environment, events: seq<Event>, i: nat)
    requires EventsOk(env, events) && i < |events| && events[i].body.authorization.Some?
    ensures var claim := events[i].body.authorization.value.claim;
      claim.caseId == events[i].body.caseId && claim.expectedVersion == |History(events[..i], events[i].body.caseId)|
  {
    assert EventOk(env, events, i);
  }

  /** In a verified ledger no authorization appears in two events. */
  lemma AuthorizationUsedOnce(env: Environment, events: seq<Event>, i: nat, j: nat)
    requires EventsOk(env, events) && i < |events| && j < |events|
    requires events[i].body.authorization.Some? && events[i].body.authorization == events[j].body.authorization
    ensures i == j
  {
    AuthorizedClaim(env, events, i);
    AuthorizedClaim(env, events, j);
    if i < j {
      EarlierIsShorter(events, i, j);
    } else if j < i {
      EarlierIsShorter(events, j, i);
    }
  }

  // ---- Tamper evidence ----

  /** Two verified ledgers with one head hash hold the same events, and the same state for every case. */
  lemma VerifiedHeadDeterminesLedger(env: Environment, a: Ledger, b: Ledger)
    requires env.IdealHash() && ChainValid(env, a) && ChainValid(env, b)
    requires Head(a.events) == Head(b.events)
    ensures a.events == b.events
    ensures forall c :: c in a.cases && c in b.cases ==>
      a.cases[c].state == b.cases[c].state && a.cases[c].currentHash == b.cases[c].currentHash
  {
    IdealHasher(env);
    HeadDeterminesChain(env.Hasher(), a.events, b.events);
    forall c | c in a.cases && c in b.cases
      ensures a.cases[c].state == b.cases[c].state && a.cases[c].currentHash == b.cases[c].currentHash
    {
      assert RowOk(env, History(a.events, c), a.cases[c]) && RowOk(env, History(b.events, c), b.cases[c]);
      assert env.SameHash(RecordValue(a.cases[c].state), RecordValue(b.cases[c].state));
    }
  }
}
