/** Runs of a state machine, and the three ways of reasoning over all of them. */
module Runs {

  /** Where a sequence of actions leads. */
  ghost function RunOf<S, A>(step: (S, A) -> S, s: S, actions: seq<A>): S
    decreases |actions|
  {
    if actions == [] then s else RunOf(step, step(s, actions[0]), actions[1..])
  }

  ghost predicate All<A>(ok: A -> bool, actions: seq<A>) {
    forall i :: 0 <= i < |actions| ==> ok(actions[i])
  }

  /** Every action of the run satisfies `good` in the state it happens in. */
  ghost predicate AllAlong<S, A>(step: (S, A) -> S, good: (S, A) -> bool, s: S, actions: seq<A>)
    decreases |actions|
  {
    actions == [] || (good(s, actions[0]) && AllAlong(step, good, step(s, actions[0]), actions[1..]))
  }

  ghost predicate Keeps<S(!new), A(!new)>(step: (S, A) -> S, ok: A -> bool, inv: S -> bool) {
    forall s, a :: inv(s) && ok(a) ==> inv(step(s, a))
  }

  ghost predicate Moves<S(!new), A(!new)>(step: (S, A) -> S, ok: A -> bool, inv: S -> bool, rel: (S, S) -> bool) {
    forall s, a :: inv(s) && ok(a) ==> rel(s, step(s, a))
  }

  ghost predicate Preorder<S(!new)>(rel: (S, S) -> bool) {
    (forall s :: rel(s, s)) && (forall s, t, u :: rel(s, t) && rel(t, u) ==> rel(s, u))
  }

  lemma {:induction false} InvariantAlong<S(!new), A(!new)>(step: (S, A) -> S, ok: A -> bool, inv: S -> bool, s: S, actions: seq<A>)
    requires Keeps(step, ok, inv) && inv(s) && All(ok, actions)
    ensures inv(RunOf(step, s, actions))
    decreases |actions|
  {
    if actions != [] {
      InvariantAlong(step, ok, inv, step(s, actions[0]), actions[1..]);
    }
  }

  /** An invariant that only good steps keep holds after a run of good steps. */
  lemma {:induction false} InvariantAlongGood<S(!new), A(!new)>(
      step: (S, A) -> S, good: (S, A) -> bool, inv: S -> bool, s: S, actions: seq<A>)
    requires (forall s, a :: inv(s) && good(s, a) ==> inv(step(s, a))) && inv(s) && AllAlong(step, good, s, actions)
    ensures inv(RunOf(step, s, actions))
    decreases |actions|
  {
    if actions != [] {
      InvariantAlongGood(step, good, inv, step(s, actions[0]), actions[1..]);
    }
  }

  lemma {:induction false} RunConcat<S, A>(step: (S, A) -> S, s: S, before: seq<A>, after: seq<A>)
    ensures RunOf(step, s, before + after) == RunOf(step, RunOf(step, s, before), after)
    decreases |before|
  {
    if before == [] {
      assert before + after == after;
    } else {
      assert (before + after)[1..] == before[1..] + after;
      RunConcat(step, step(s, before[0]), before[1..], after);
    }
  }

  lemma {:induction false} WeakerAlong<S(!new), A(!new)>(
      step: (S, A) -> S, good: (S, A) -> bool, fair: (S, A) -> bool, s: S, actions: seq<A>)
    requires (forall s, a :: good(s, a) ==> fair(s, a)) && AllAlong(step, good, s, actions)
    ensures AllAlong(step, fair, s, actions)
    decreases |actions|
  {
    if actions != [] {
      WeakerAlong(step, good, fair, step(s, actions[0]), actions[1..]);
    }
  }

  /** A preorder every step respects relates the two ends of every run. */
  lemma {:induction false} RelatedAlong<S(!new), A(!new)>(
      step: (S, A) -> S, ok: A -> bool, inv: S -> bool, rel: (S, S) -> bool, s: S, actions: seq<A>)
    requires Keeps(step, ok, inv) && Moves(step, ok, inv, rel) && Preorder(rel)
    requires inv(s) && All(ok, actions)
    ensures rel(s, RunOf(step, s, actions))
    decreases |actions|
  {
    if actions != [] {
      var next := step(s, actions[0]);
      assert rel(s, next);
      RelatedAlong(step, ok, inv, rel, next, actions[1..]);
    }
  }

  /** A property that each step carries over exactly when the step is good survives exactly the good runs. */
  lemma {:induction false} SurvivesIff<S(!new), A(!new)>(
      step: (S, A) -> S, ok: A -> bool, inv: S -> bool, good: (S, A) -> bool, holds: S -> bool, s: S, actions: seq<A>)
    requires Keeps(step, ok, inv)
    requires forall s, a :: inv(s) && ok(a) ==> (holds(step(s, a)) <==> holds(s) && good(s, a))
    requires inv(s) && All(ok, actions)
    ensures holds(RunOf(step, s, actions)) <==> holds(s) && AllAlong(step, good, s, actions)
    decreases |actions|
  {
    if actions != [] {
      SurvivesIff(step, ok, inv, good, holds, step(s, actions[0]), actions[1..]);
    }
  }

  /** The same, for runs whose every step is allowed in the state it happens in. */
  lemma {:induction false} SurvivesIffAlong<S(!new), A(!new)>(
      step: (S, A) -> S, ok: (S, A) -> bool, inv: S -> bool, good: (S, A) -> bool, holds: S -> bool, s: S, actions: seq<A>)
    requires forall s, a :: inv(s) && ok(s, a) ==> inv(step(s, a))
    requires forall s, a :: inv(s) && ok(s, a) ==> (holds(step(s, a)) <==> holds(s) && good(s, a))
    requires inv(s) && AllAlong(step, ok, s, actions)
    ensures holds(RunOf(step, s, actions)) <==> holds(s) && AllAlong(step, good, s, actions)
    decreases |actions|
  {
    if actions != [] {
      SurvivesIffAlong(step, ok, inv, good, holds, step(s, actions[0]), actions[1..]);
    }
  }

  /** The property holds in every state of the run. */
  ghost predicate Throughout<S, A>(step: (S, A) -> S, holds: S -> bool, s: S, actions: seq<A>)
    decreases |actions|
  {
    holds(s) && (actions == [] || Throughout(step, holds, step(s, actions[0]), actions[1..]))
  }

  /** A property that each step, from where it holds, keeps exactly when the step is good is never lost exactly in
      the good runs. */
  lemma {:induction false} ThroughoutIff<S(!new), A(!new)>(
      step: (S, A) -> S, good: (S, A) -> bool, holds: S -> bool, s: S, actions: seq<A>)
    requires forall s, a :: holds(s) ==> (holds(step(s, a)) <==> good(s, a))
    requires holds(s)
    ensures Throughout(step, holds, s, actions) <==> AllAlong(step, good, s, actions)
    decreases |actions|
  {
    if actions != [] && good(s, actions[0]) {
      ThroughoutIff(step, good, holds, step(s, actions[0]), actions[1..]);
    }
  }

  // ---- Growing histories ----

  ghost predicate EveryPrefix<T>(p: seq<T> -> bool, s: seq<T>) {
    forall n :: 0 <= n <= |s| ==> p(s[..n])
  }

  lemma PrefixItself<T>(p: seq<T> -> bool, s: seq<T>)
    requires EveryPrefix(p, s)
    ensures p(s)
  {
    assert s[..|s|] == s;
  }

  lemma PrefixAppend<T>(p: seq<T> -> bool, s: seq<T>, x: T)
    ensures EveryPrefix(p, s + [x]) <==> EveryPrefix(p, s) && p(s + [x])
  {
    var longer := s + [x];
    assert longer[..|longer|] == longer;
    assert forall n :: 0 <= n <= |s| ==> longer[..n] == s[..n];
  }
}
