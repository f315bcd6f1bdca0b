/** What every mesh plan guarantees: no cycles, no way round the checks, one index under everything. */
module MeshTheorems {
  import opened Basics
  import opened MeshRuntime
  import opened MeshPlan
  import opened MeshGraph

  // ---- Building in stages ----

  lemma HasKeyConcat(a: seq<Node>, b: seq<Node>, k: Key)
    ensures HasKey(a + b, k) <==> HasKey(a, k) || HasKey(b, k)
  {
    if i :| 0 <= i < |a| && a[i].key == k {
      assert (a + b)[i].key == k;
    }
    if i :| 0 <= i < |b| && b[i].key == k {
      assert (a + b)[|a| + i].key == k;
    }
  }

  /** The new nodes are new, different from each other, and depend on nodes that are already there. */
  predicate Follows(nodes: seq<Node>, more: seq<Node>) {
    && DistinctKeys(more)
    && (forall i :: 0 <= i < |more| ==> !HasKey(nodes, more[i].key))
    && (forall i, k :: 0 <= i < |more| && k in more[i].dependencies ==> HasKey(nodes, k))
  }

  lemma StageLayered(nodes: seq<Node>, more: seq<Node>)
    requires Layered(nodes) && Follows(nodes, more)
    ensures Layered(nodes + more)
  {
    var all := nodes + more;
    forall i, j | 0 <= i < j < |all| ensures all[i].key != all[j].key {
      if i < |nodes| <= j {
        assert !HasKey(nodes, more[j - |nodes|].key);
      }
    }
    forall i | 0 <= i < |all| ensures DependsOnEarlier(all, i) {
      if i < |nodes| {
        assert all[..i] == nodes[..i];
        assert DependsOnEarlier(nodes, i);
      } else {
        forall k | k in all[i].dependencies ensures HasKey(all[..i], k) {
          assert k in more[i - |nodes|].dependencies;
          assert all[..i] == nodes + more[..i - |nodes|];
          HasKeyConcat(nodes, more[..i - |nodes|], k);
        }
      }
    }
  }

  /** The keys of a list of nodes, in order. */
  function KeysOf(nodes: seq<Node>): seq<Key> { seq(|nodes|, i requires 0 <= i < |nodes| => nodes[i].key) }

  lemma KeysDecide(nodes: seq<Node>, k: Key)
    ensures HasKey(nodes, k) <==> k in KeysOf(nodes)
  {
    if k in KeysOf(nodes) {
      var i :| 0 <= i < |nodes| && KeysOf(nodes)[i] == k;
    }
    if HasKey(nodes, k) {
      var i :| 0 <= i < |nodes| && nodes[i].key == k;
      assert KeysOf(nodes)[i] == k;
    }
  }

  predicate FreshKeys(known: seq<Key>, keys: seq<Key>) {
    Distinct(keys) && forall k :: k in keys ==> k !in known
  }

  predicate Known(known: seq<Key>, keys: seq<Key>) { forall k :: k in keys ==> k in known }

  /** A stage of fresh keys with known dependencies keeps the list layered and extends its keys. */
  lemma AddStage(nodes: seq<Node>, known: seq<Key>, keys: seq<Key>, scopes: Group, dependencies: seq<Key>)
    requires Layered(nodes) && known == KeysOf(nodes) && FreshKeys(known, keys) && Known(known, dependencies)
    ensures Layered(nodes + Stage(keys, scopes, dependencies))
    ensures KeysOf(nodes + Stage(keys, scopes, dependencies)) == known + keys
  {
    var more := Stage(keys, scopes, dependencies);
    forall k { KeysDecide(nodes, k); }
    StageLayered(nodes, more);
  }

  lemma AddWriters(nodes: seq<Node>, known: seq<Key>, groups: seq<Group>, dependencies: seq<Key>)
    requires Layered(nodes) && known == KeysOf(nodes) && FreshKeys(known, ImplementKeys(|groups|)) && Known(known, dependencies)
    ensures Layered(nodes + Writers(groups, dependencies))
    ensures KeysOf(nodes + Writers(groups, dependencies)) == known + ImplementKeys(|groups|)
  {
    var more := Writers(groups, dependencies);
    assert forall i :: 0 <= i < |more| ==> more[i].key == ImplementKeys(|groups|)[i];
    forall k { KeysDecide(nodes, k); }
    StageLayered(nodes, more);
  }

  lemma AddIntegrateAndCheck(nodes: seq<Node>, known: seq<Key>, groups: seq<Group>)
    requires Layered(nodes) && known == KeysOf(nodes) && Known(known, ImplementKeys(|groups|))
    requires Integrate !in known && Checks !in known
    ensures Layered(nodes + IntegrateAndCheck(groups))
    ensures KeysOf(nodes + IntegrateAndCheck(groups)) == known + [Integrate, Checks]
  {
    var all := AllScopes(groups);
    AddStage(nodes, known, [Integrate], all, ImplementKeys(|groups|));
    var next := nodes + Stage([Integrate], all, ImplementKeys(|groups|));
    AddStage(next, known + [Integrate], [Checks], all, [Integrate]);
    assert nodes + IntegrateAndCheck(groups) == next + Stage([Checks], all, [Integrate]);
  }

  // ---- Every plan is layered ----

  lemma FastLayered(groups: seq<Group>)
    ensures Layered(FastNodes(groups))
  {
    var all := AllScopes(groups);
    var impl := ImplementKeys(|groups|);
    AddStage([], [], [RepositoryIndex], all, []);
    var n0 := [] + Stage([RepositoryIndex], all, []);
    AddWriters(n0, [] + [RepositoryIndex], groups, [RepositoryIndex]);
    var n1 := n0 + Writers(groups, [RepositoryIndex]);
    AddIntegrateAndCheck(n1, [] + [RepositoryIndex] + impl, groups);
    var n2 := n1 + IntegrateAndCheck(groups);
    AddStage(n2, [] + [RepositoryIndex] + impl + [Integrate, Checks], [FinalGuard], all, [Integrate, Checks]);
    assert FastNodes(groups) == n2 + Stage([FinalGuard], all, [Integrate, Checks]);
  }

  lemma BoundedStart(all: Group)
    ensures var nodes := Stage([RepositoryIndex], all, []) + Stage([ScoutFocused], all, [RepositoryIndex]);
      Layered(nodes) && KeysOf(nodes) == [RepositoryIndex, ScoutFocused]
  {
    AddStage([], [], [RepositoryIndex], all, []);
    var first := Stage([RepositoryIndex], all, []);
    assert [] + first == first && [] + [RepositoryIndex] == [RepositoryIndex];
    AddStage(first, [RepositoryIndex], [ScoutFocused], all, [RepositoryIndex]);
    assert [RepositoryIndex] + [ScoutFocused] == [RepositoryIndex, ScoutFocused];
  }

  lemma BoundedLayered(groups: seq<Group>, reviews: nat)
    ensures Layered(BoundedNodes(groups, reviews))
  {
    var all := AllScopes(groups);
    var k0, impl := [RepositoryIndex, ScoutFocused], ImplementKeys(|groups|);
    BoundedStart(all);
    var n1 := Stage([RepositoryIndex], all, []) + Stage([ScoutFocused], all, [RepositoryIndex]);
    AddWriters(n1, k0, groups, [ScoutFocused]);
    var n2 := n1 + Writers(groups, [ScoutFocused]);
    AddIntegrateAndCheck(n2, k0 + impl, groups);
    var n3 := n2 + IntegrateAndCheck(groups);
    AddStage(n3, k0 + impl + [Integrate, Checks], FocusedKeys(reviews), all, [Integrate, Checks]);
    assert BoundedNodes(groups, reviews) == n3 + Stage(FocusedKeys(reviews), all, [Integrate, Checks]);
  }

  function PreparationKeys(scouts: seq<Dimension>, candidates: nat): seq<Key> {
    [RepositoryIndex] + ScoutKeys(scouts) + CandidateKeys(candidates) + [PlanAdjudicator] + [TestOracle]
  }

  lemma ScoutingLayered(all: Group, s: seq<Key>, p: seq<Key>)
    requires FreshKeys([RepositoryIndex], s) && FreshKeys([RepositoryIndex] + s, p)
    ensures var nodes := Stage([RepositoryIndex], all, []) + Stage(s, all, [RepositoryIndex]) + Stage(p, all, s);
      Layered(nodes) && KeysOf(nodes) == [RepositoryIndex] + s + p
  {
    var n0 := Stage([RepositoryIndex], all, []);
    AddStage([], [], [RepositoryIndex], all, []);
    assert [] + n0 == n0 && [] + [RepositoryIndex] == [RepositoryIndex];
    AddStage(n0, [RepositoryIndex], s, all, [RepositoryIndex]);
    AddStage(n0 + Stage(s, all, [RepositoryIndex]), [RepositoryIndex] + s, p, all, s);
  }

  lemma PreparationLayered(groups: seq<Group>, scouts: seq<Dimension>, candidates: nat)
    requires Distinct(scouts)
    ensures Layered(Preparation(groups, scouts, candidates))
    ensures KeysOf(Preparation(groups, scouts, candidates)) == PreparationKeys(scouts, candidates)
  {
    var all := AllScopes(groups);
    var s, p := ScoutKeys(scouts), CandidateKeys(candidates);
    ScoutingLayered(all, s, p);
    var n2 := Stage([RepositoryIndex], all, []) + Stage(s, all, [RepositoryIndex]) + Stage(p, all, s);
    AddStage(n2, [RepositoryIndex] + s + p, [PlanAdjudicator], all, p);
    var n3 := n2 + Stage([PlanAdjudicator], all, p);
    AddStage(n3, [RepositoryIndex] + s + p + [PlanAdjudicator], [TestOracle], all, [PlanAdjudicator]);
  }

  /** The stages after the checks. */
  lemma JudgementLayered(groups: seq<Group>, reviews: seq<Dimension>, nodes: seq<Node>, known: seq<Key>)
    requires Distinct(reviews) && Layered(nodes) && known == KeysOf(nodes)
    requires Integrate in known && Checks in known
    requires forall k :: k in known ==> !k.Review? && !k.Supervisor? && !k.ReleaseAdvisor?
    ensures var all := AllScopes(groups);
      Layered(nodes + Stage(ReviewKeys(reviews), all, [Integrate, Checks])
              + Stage([Supervisor], all, [Integrate, Checks] + ReviewKeys(reviews))
              + Stage([ReleaseAdvisor], all, [Integrate, Checks, Supervisor]))
  {
    var all, rev := AllScopes(groups), ReviewKeys(reviews);
    AddStage(nodes, known, rev, all, [Integrate, Checks]);
    var n1 := nodes + Stage(rev, all, [Integrate, Checks]);
    AddStage(n1, known + rev, [Supervisor], all, [Integrate, Checks] + rev);
    var n2 := n1 + Stage([Supervisor], all, [Integrate, Checks] + rev);
    AddStage(n2, known + rev + [Supervisor], [ReleaseAdvisor], all, [Integrate, Checks, Supervisor]);
  }

  lemma PreparationKeysAre(scouts: seq<Dimension>, candidates: nat)
    ensures forall k :: k in PreparationKeys(scouts, candidates) ==>
      k.RepositoryIndex? || k.Scout? || k.PlanCandidate? || k.PlanAdjudicator? || k.TestOracle?
    ensures Known(PreparationKeys(scouts, candidates), [PlanAdjudicator, TestOracle])
  {
  }

  lemma CoreLayered(groups: seq<Group>, nodes: seq<Node>, known: seq<Key>, dependencies: seq<Key>)
    requires Layered(nodes) && known == KeysOf(nodes) && Known(known, dependencies)
    requires forall k :: k in known ==> !k.Implement? && !k.Integrate? && !k.Checks?
    ensures var all := nodes + Writers(groups, dependencies) + IntegrateAndCheck(groups);
      Layered(all) && KeysOf(all) == known + ImplementKeys(|groups|) + [Integrate, Checks]
  {
    AddWriters(nodes, known, groups, dependencies);
    AddIntegrateAndCheck(nodes + Writers(groups, dependencies), known + ImplementKeys(|groups|), groups);
  }

  lemma ImplementationLayered(groups: seq<Group>, scouts: seq<Dimension>, candidates: nat)
    requires Distinct(scouts)
    ensures var nodes := Preparation(groups, scouts, candidates) + Writers(groups, [PlanAdjudicator, TestOracle]) + IntegrateAndCheck(groups);
      Layered(nodes) && KeysOf(nodes) == PreparationKeys(scouts, candidates) + ImplementKeys(|groups|) + [Integrate, Checks]
  {
    PreparationLayered(groups, scouts, candidates);
    PreparationKeysAre(scouts, candidates);
    CoreLayered(groups, Preparation(groups, scouts, candidates), PreparationKeys(scouts, candidates), [PlanAdjudicator, TestOracle]);
  }

  lemma FullLayered(groups: seq<Group>, scouts: seq<Dimension>, reviews: seq<Dimension>, candidates: nat)
    requires Distinct(scouts) && Distinct(reviews)
    ensures Layered(FullNodes(groups, scouts, reviews, candidates))
  {
    ImplementationLayered(groups, scouts, candidates);
    var nodes := Preparation(groups, scouts, candidates) + Writers(groups, [PlanAdjudicator, TestOracle]) + IntegrateAndCheck(groups);
    JudgementLayered(groups, reviews, nodes, PreparationKeys(scouts, candidates) + ImplementKeys(|groups|) + [Integrate, Checks]);
  }

  lemma DimensionsDistinct(rank: Rank, c: Contract)
    requires rank >= 3
    ensures Distinct(ScoutDimensions(rank, c)) && Distinct(ReviewDimensions(rank, c))
  {
    assert ScoutDimensions(rank, c)
        == [Architecture, Tests, Runtime, Compatibility, Security, Data] + (if rank == 4 then [Rollback, Operations] else []);
    assert ReviewDimensions(rank, c)
        == [Scope, Correctness, Tests, Compatibility, Runtime, Security, Data, Performance, Concurrency]
           + (if rank == 4 then [Rollback, Operability] else []);
  }

  /** For every risk, contract and cap: distinct ids, and each dependency earlier in the list. */
  lemma PlanIsLayered(rank: Rank, c: Contract, groups: seq<Group>)
    ensures Layered(NodesFor(rank, c, groups))
  {
    if rank <= 1 {
      FastLayered(groups);
    } else if rank == 2 {
      BoundedLayered(groups, if c.reviewRuns < 2 then Positive(c.reviewRuns) else 2);
    } else {
      DimensionsDistinct(rank, c);
      FullLayered(groups, ScoutDimensions(rank, c), ReviewDimensions(rank, c), PlanCandidates(rank, c));
    }
  }

  // ---- No way round the checks ----

  /** The dependencies of the nodes every path to a judgement runs through, and the writers' scopes. */
  predicate Guarded(groups: seq<Group>, n: Node) {
    && (Judges(n.key) ==> Integrate in n.dependencies && Checks in n.dependencies)
    && (n.key == Integrate ==> n.dependencies == ImplementKeys(|groups|))
    && (n.key == Checks ==> n.dependencies == [Integrate])
    && (n.key.Implement? ==> 1 <= n.key.number <= |groups| && n.scopes == groups[n.key.number - 1])
  }

  predicate AllGuarded(groups: seq<Group>, nodes: seq<Node>) {
    forall i :: 0 <= i < |nodes| ==> Guarded(groups, nodes[i])
  }

  lemma GuardedConcat(groups: seq<Group>, a: seq<Node>, b: seq<Node>)
    requires AllGuarded(groups, a) && AllGuarded(groups, b)
    ensures AllGuarded(groups, a + b)
  {
  }

  lemma GuardedCore(groups: seq<Group>, dependencies: seq<Key>)
    ensures AllGuarded(groups, Writers(groups, dependencies)) && AllGuarded(groups, IntegrateAndCheck(groups))
  {
  }

  lemma FastGuarded(groups: seq<Group>)
    ensures AllGuarded(groups, FastNodes(groups))
  {
  }

  lemma BoundedGuarded(groups: seq<Group>, reviews: nat)
    ensures AllGuarded(groups, BoundedNodes(groups, reviews))
  {
  }

  lemma PreparationGuarded(groups: seq<Group>, scouts: seq<Dimension>, candidates: nat)
    ensures AllGuarded(groups, Preparation(groups, scouts, candidates))
  {
  }

  lemma JudgementGuarded(groups: seq<Group>, reviews: seq<Dimension>)
    ensures var all := AllScopes(groups);
      AllGuarded(groups, Stage(ReviewKeys(reviews), all, [Integrate, Checks])
                         + Stage([Supervisor], all, [Integrate, Checks] + ReviewKeys(reviews))
                         + Stage([ReleaseAdvisor], all, [Integrate, Checks, Supervisor]))
  {
  }

  lemma FullGuarded(groups: seq<Group>, scouts: seq<Dimension>, reviews: seq<Dimension>, candidates: nat)
    ensures AllGuarded(groups, FullNodes(groups, scouts, reviews, candidates))
  {
    var all := AllScopes(groups);
    PreparationGuarded(groups, scouts, candidates);
    GuardedCore(groups, [PlanAdjudicator, TestOracle]);
    JudgementGuarded(groups, reviews);
    var core := Preparation(groups, scouts, candidates) + Writers(groups, [PlanAdjudicator, TestOracle]) + IntegrateAndCheck(groups);
    var rest := Stage(ReviewKeys(reviews), all, [Integrate, Checks]) + Stage([Supervisor], all, [Integrate, Checks] + ReviewKeys(reviews))
                + Stage([ReleaseAdvisor], all, [Integrate, Checks, Supervisor]);
    GuardedConcat(groups, core, rest);
    assert FullNodes(groups, scouts, reviews, candidates) == core + rest;
  }

  lemma PlanIsGuarded(rank: Rank, c: Contract, groups: seq<Group>)
    ensures AllGuarded(groups, NodesFor(rank, c, groups))
  {
    if rank <= 1 {
      FastGuarded(groups);
    } else if rank == 2 {
      BoundedGuarded(groups, if c.reviewRuns < 2 then Positive(c.reviewRuns) else 2);
    } else {
      FullGuarded(groups, ScoutDimensions(rank, c), ReviewDimensions(rank, c), PlanCandidates(rank, c));
    }
  }

  /** The writers are numbered by the groups. */
  lemma PlanHasCore(rank: Rank, c: Contract, groups: seq<Group>, k: nat)
    ensures HasKey(NodesFor(rank, c, groups), Implement(k)) <==> 1 <= k <= |groups|
  {
    PlanIsGuarded(rank, c, groups);
    var nodes := NodesFor(rank, c, groups);
    if HasKey(nodes, Implement(k)) {
      var i :| 0 <= i < |nodes| && nodes[i].key == Implement(k);
      assert Guarded(groups, nodes[i]);
    } else if 1 <= k <= |groups| {
      CoreOffset(rank, c, groups, k);
    }
  }

  // ---- The writers' scopes ----

  predicate Writes(nodes: seq<Node>, i: nat, x: string)
    requires i < |nodes|
  {
    nodes[i].key.Implement? && x in nodes[i].scopes
  }

  predicate ShareRoot(p: Patterns, nodes: seq<Node>, i: int, j: int, x: string, y: string) {
    0 <= i < |nodes| && 0 <= j < |nodes| && Writes(nodes, i, x) && Writes(nodes, j, y) && p.root(x) == p.root(y)
  }

  lemma GuardedWriter(groups: seq<Group>, nodes: seq<Node>, g: nat) returns (i: nat)
    requires AllGuarded(groups, nodes) && g < |groups| && HasKey(nodes, Implement(g + 1))
    ensures i < |nodes| && nodes[i].key == Implement(g + 1) && nodes[i].scopes == groups[g]
  {
    i :| 0 <= i < |nodes| && nodes[i].key == Implement(g + 1);
    assert Guarded(groups, nodes[i]);
  }

  lemma WriterOfGroup(plan: Plan, rank: Rank, c: Contract, g: nat) returns (i: nat)
    requires plan.nodes == NodesFor(rank, c, plan.groups) && g < |plan.groups|
    ensures i < |plan.nodes| && plan.nodes[i].key == Implement(g + 1) && plan.nodes[i].scopes == plan.groups[g]
  {
    PlanHasCore(rank, c, plan.groups, g + 1);
    PlanIsGuarded(rank, c, plan.groups);
    i := GuardedWriter(plan.groups, plan.nodes, g);
  }

  lemma GuardedGroup(groups: seq<Group>, nodes: seq<Node>, i: nat)
    requires AllGuarded(groups, nodes) && i < |nodes| && nodes[i].key.Implement?
    ensures 1 <= nodes[i].key.number <= |groups| && nodes[i].scopes == groups[nodes[i].key.number - 1]
  {
    assert Guarded(groups, nodes[i]);
  }

  lemma GroupOfWriter(plan: Plan, rank: Rank, c: Contract, i: nat) returns (g: nat)
    requires plan.nodes == NodesFor(rank, c, plan.groups) && i < |plan.nodes| && plan.nodes[i].key.Implement?
    ensures g < |plan.groups| && plan.nodes[i].key == Implement(g + 1) && plan.nodes[i].scopes == plan.groups[g]
  {
    PlanIsGuarded(rank, c, plan.groups);
    GuardedGroup(plan.groups, plan.nodes, i);
    g := plan.nodes[i].key.number - 1;
  }

  lemma PatternsGrouped(p: Patterns, rank: Rank, c: Contract, groups: seq<Group>, x: string)
    requires AllPatterned(p, c.components) && GroupsFor(p, rank, c, groups)
    ensures x in PatternSet(p, c.components) <==> exists g :: 0 <= g < |groups| && x in groups[g]
  {
    if rank > 2 {
      var order :| Distinct(order) && SetOf(order) == Roots(p, PatternSet(p, c.components))
        && Assigned(p, PatternSet(p, c.components), order, |order|, WriterCap(c), groups);
      GroupsCover(p, PatternSet(p, c.components), order, WriterCap(c), groups, x);
    } else {
      assert x in PatternSet(p, c.components) <==> x in groups[0];
    }
  }

  lemma RootsUnsplit(p: Patterns, rank: Rank, c: Contract, groups: seq<Group>, x: string, y: string, g: nat, g': nat)
    requires AllPatterned(p, c.components) && GroupsFor(p, rank, c, groups)
    requires g < |groups| && g' < |groups| && x in groups[g] && y in groups[g'] && p.root(x) == p.root(y)
    ensures g == g'
  {
    if rank > 2 {
      PatternsGrouped(p, rank, c, groups, x);
      PatternsGrouped(p, rank, c, groups, y);
      var order :| Distinct(order) && SetOf(order) == Roots(p, PatternSet(p, c.components))
        && Assigned(p, PatternSet(p, c.components), order, |order|, WriterCap(c), groups);
      NoRootSplit(p, PatternSet(p, c.components), order, WriterCap(c), groups, x, y, g, g');
    }
  }

  /** In every plan the writers' scopes are the patterns of the contract, each and no other, and two writers never
      share a scope root. */
  lemma WritersPartitionScopes(p: Patterns, rank: Rank, c: Contract, plan: Plan)
    requires Planned(p, rank, c, plan)
    ensures forall x :: x in PatternSet(p, c.components) <==> exists i :: 0 <= i < |plan.nodes| && Writes(plan.nodes, i, x)
    ensures forall i, j, x, y :: ShareRoot(p, plan.nodes, i, j, x, y) ==> i == j
  {
    forall x ensures x in PatternSet(p, c.components) <==> exists i :: 0 <= i < |plan.nodes| && Writes(plan.nodes, i, x) {
      PatternWritten(p, rank, c, plan, x);
    }
    forall i, j, x, y | ShareRoot(p, plan.nodes, i, j, x, y) ensures i == j {
      var g := GroupOfWriter(plan, rank, c, i);
      var g' := GroupOfWriter(plan, rank, c, j);
      RootsUnsplit(p, rank, c, plan.groups, x, y, g, g');
      PlanIsLayered(rank, c, plan.groups);
    }
  }

  lemma PatternWritten(p: Patterns, rank: Rank, c: Contract, plan: Plan, x: string)
    requires Planned(p, rank, c, plan)
    ensures x in PatternSet(p, c.components) <==> exists i :: 0 <= i < |plan.nodes| && Writes(plan.nodes, i, x)
  {
    PatternsGrouped(p, rank, c, plan.groups, x);
    if g :| 0 <= g < |plan.groups| && x in plan.groups[g] {
      var i := WriterOfGroup(plan, rank, c, g);
      assert Writes(plan.nodes, i, x);
    }
    if i :| 0 <= i < |plan.nodes| && Writes(plan.nodes, i, x) {
      var g := GroupOfWriter(plan, rank, c, i);
    }
  }

  // ---- Nested scope roots ----

  /** One root holds the other: everything below `*`, or below the directory. */
  predicate Nested(a: string, b: string) {
    a != b && (a == "*" || (|a| < |b| && b[..|a|] == a && b[|a|] == '/'))
  }

  predicate NestedPatterns(p: Patterns, patterns: set<string>, x: string, y: string) {
    x in patterns && y in patterns && Nested(p.root(x), p.root(y))
  }

  /** Two writers, one of whose scope roots holds one of the other's. */
  predicate Overlap(p: Patterns, nodes: seq<Node>, i: int, j: int, x: string, y: string) {
    0 <= i < |nodes| && 0 <= j < |nodes| && i != j && Writes(nodes, i, x) && Writes(nodes, j, y) && Nested(p.root(x), p.root(y))
  }

  lemma {:induction false} DistinctSize(order: seq<string>)
    requires Distinct(order)
    ensures |order| == |SetOf(order)|
  {
    if order == [] {
    } else {
      var n := |order| - 1;
      DistinctSize(order[..n]);
      assert SetOf(order) == SetOf(order[..n]) + {order[n]};
      assert order[n] !in SetOf(order[..n]);
    }
  }

  /** Above R2 there is a writer for each scope root, up to the number the contract allows, which is never below one; up to R2
      there is one. */
  lemma WritersCount(p: Patterns, rank: Rank, c: Contract, plan: Plan)
    requires Planned(p, rank, c, plan)
    ensures var roots := |Roots(p, PatternSet(p, c.components))|;
      |plan.groups| == if rank <= 2 then 1 else if roots <= c.maximumWriters then roots else if c.maximumWriters <= 1 then (if roots == 0 then 0 else 1) else c.maximumWriters
  {
    if rank > 2 {
      var order :| Distinct(order) && SetOf(order) == Roots(p, PatternSet(p, c.components))
        && |plan.groups| == (if |order| <= WriterCap(c) then |order| else WriterCap(c))
        && Assigned(p, PatternSet(p, c.components), order, |order|, WriterCap(c), plan.groups);
      DistinctSize(order);
    }
  }

  lemma RootsApart(p: Patterns, rank: Rank, c: Contract, groups: seq<Group>, x: string, y: string, g: nat)
    requires AllPatterned(p, c.components) && rank > 2 && GroupsFor(p, rank, c, groups)
    requires |Roots(p, PatternSet(p, c.components))| <= WriterCap(c)
    requires x in PatternSet(p, c.components) && y in PatternSet(p, c.components) && p.root(x) != p.root(y) && g < |groups|
    ensures !(x in groups[g] && y in groups[g])
  {
    var order :| Distinct(order) && SetOf(order) == Roots(p, PatternSet(p, c.components))
      && Assigned(p, PatternSet(p, c.components), order, |order|, WriterCap(c), groups);
    DistinctSize(order);
    DifferentRootsSplit(p, PatternSet(p, c.components), order, WriterCap(c), groups, x, y, g);
  }

  lemma NestedOverlap(p: Patterns, rank: Rank, c: Contract, plan: Plan, x: string, y: string)
    requires Planned(p, rank, c, plan) && rank > 2 && |Roots(p, PatternSet(p, c.components))| <= WriterCap(c)
    requires NestedPatterns(p, PatternSet(p, c.components), x, y)
    ensures exists i, j :: Overlap(p, plan.nodes, i, j, x, y)
  {
    PatternWritten(p, rank, c, plan, x);
    PatternWritten(p, rank, c, plan, y);
    var i :| 0 <= i < |plan.nodes| && Writes(plan.nodes, i, x);
    var j :| 0 <= j < |plan.nodes| && Writes(plan.nodes, j, y);
    if i == j {
      var g := GroupOfWriter(plan, rank, c, i);
      RootsApart(p, rank, c, plan.groups, x, y, g);
    }
    assert Overlap(p, plan.nodes, i, j, x, y);
  }

  lemma OverlapNested(p: Patterns, rank: Rank, c: Contract, plan: Plan, i: int, j: int, x: string, y: string)
    requires Planned(p, rank, c, plan) && Overlap(p, plan.nodes, i, j, x, y)
    ensures rank > 2 && NestedPatterns(p, PatternSet(p, c.components), x, y)
  {
    PatternWritten(p, rank, c, plan, x);
    PatternWritten(p, rank, c, plan, y);
    var g := GroupOfWriter(plan, rank, c, i);
    var g' := GroupOfWriter(plan, rank, c, j);
    PlanIsLayered(rank, c, plan.groups);
  }

  /** With a writer for each root, two writers overlap if and only if two patterns of the contract have nested
      roots: the roots are compared for equality only. Up to R2 there is one writer, and no overlap. */
  lemma WritersOverlapIff(p: Patterns, rank: Rank, c: Contract, plan: Plan)
    requires Planned(p, rank, c, plan) && |Roots(p, PatternSet(p, c.components))| <= WriterCap(c)
    ensures (exists i, j, x, y :: Overlap(p, plan.nodes, i, j, x, y))
       <==> rank > 2 && exists x, y :: NestedPatterns(p, PatternSet(p, c.components), x, y)
  {
    if rank > 2 {
      if x, y :| NestedPatterns(p, PatternSet(p, c.components), x, y) {
        NestedOverlap(p, rank, c, plan, x, y);
      }
    }
    if i, j, x, y :| Overlap(p, plan.nodes, i, j, x, y) {
      OverlapNested(p, rank, c, plan, i, j, x, y);
    }
  }

  lemma TwoPatterns(p: Patterns, components: seq<string>, x: string, y: string, below: string)
    requires |components| == 2 && p.pattern(components[0]) == Some(x) && p.pattern(components[1]) == Some(y)
    requires p.root(x) != "" && p.root(y) == p.root(x) + "/" + below
    ensures AllPatterned(p, components) && NestedPatterns(p, PatternSet(p, components), x, y)
    ensures |Roots(p, PatternSet(p, components))| == 2
  {
    var patterns := PatternSet(p, components);
    assert p.pattern(components[0]).value in patterns && p.pattern(components[1]).value in patterns;
    assert patterns == {x, y} && Roots(p, patterns) == {p.root(x), p.root(y)};
    assert |p.root(x)| < |p.root(y)|;
  }

  /** The failing input: two components, one below the other, such as `src` and `src/api`. */
  lemma NestedSourcesOverlap(p: Patterns, rank: Rank, c: Contract, plan: Plan, x: string, y: string, below: string)
    requires Planned(p, rank, c, plan) && rank > 2 && |c.components| == 2 && c.maximumWriters >= 2
    requires p.pattern(c.components[0]) == Some(x) && p.pattern(c.components[1]) == Some(y)
    requires p.root(x) != "" && p.root(y) == p.root(x) + "/" + below
    ensures exists i, j :: Overlap(p, plan.nodes, i, j, x, y)
  {
    TwoPatterns(p, c.components, x, y, below);
    NestedOverlap(p, rank, c, plan, x, y);
  }

  lemma CoreOffset(rank: Rank, c: Contract, groups: seq<Group>, k: nat)
    requires 1 <= k <= |groups|
    ensures HasKey(NodesFor(rank, c, groups), Implement(k))
  {
    var nodes := NodesFor(rank, c, groups);
    if rank <= 1 {
      assert nodes[1 + (k - 1)].key == Implement(k);
    } else if rank == 2 {
      assert nodes[2 + (k - 1)].key == Implement(k);
    } else {
      var n := |Preparation(groups, ScoutDimensions(rank, c), PlanCandidates(rank, c))|;
      assert nodes[n + (k - 1)].key == Implement(k);
    }
  }

  lemma {:induction false} GuardedReaches(groups: seq<Group>, nodes: seq<Node>, i: nat, k: nat)
    requires Layered(nodes) && AllGuarded(groups, nodes) && i < |nodes| && Judges(nodes[i].key) && 1 <= k <= |groups|
    ensures Reaches(nodes, i, Checks) && Reaches(nodes, i, Integrate) && Reaches(nodes, i, Implement(k))
  {
    assert Guarded(groups, nodes[i]) && DependsOnEarlier(nodes, i);
    DirectReaches(nodes, i, Checks);
    DirectReaches(nodes, i, Integrate);
    forall d | 0 <= d < i && nodes[d].key == Integrate ensures Reaches(nodes, d, Implement(k)) {
      assert Guarded(groups, nodes[d]) && DependsOnEarlier(nodes, d);
      assert ImplementKeys(|groups|)[k - 1] == Implement(k);
      DirectReaches(nodes, d, Implement(k));
    }
    StepReaches(nodes, i, Integrate, Implement(k));
  }

  /** Every review and release node depends on the checks, the integrator and each single writer. */
  lemma {:induction false} JudgesSeeEverything(rank: Rank, c: Contract, groups: seq<Group>, i: nat, k: nat)
    requires i < |NodesFor(rank, c, groups)| && Judges(NodesFor(rank, c, groups)[i].key) && 1 <= k <= |groups|
    ensures var nodes := NodesFor(rank, c, groups);
      Reaches(nodes, i, Checks) && Reaches(nodes, i, Integrate) && Reaches(nodes, i, Implement(k))
  {
    PlanIsLayered(rank, c, groups);
    PlanIsGuarded(rank, c, groups);
    GuardedReaches(groups, NodesFor(rank, c, groups), i, k);
  }

  // ---- One index under everything ----

  /** Only the index has no dependencies. */
  predicate Grounded(nodes: seq<Node>) {
    forall i :: 0 <= i < |nodes| && nodes[i].dependencies == [] ==> nodes[i].key == RepositoryIndex
  }

  /** In a layered plan every node reaches the index exactly when only the index has no dependencies. */
  lemma {:induction false} GroundedReaches(nodes: seq<Node>, i: nat)
    requires Layered(nodes) && Grounded(nodes) && i < |nodes|
    ensures Reaches(nodes, i, RepositoryIndex)
    decreases i
  {
    if nodes[i].key != RepositoryIndex {
      var k := nodes[i].dependencies[0];
      assert DependsOnEarlier(nodes, i);
      forall d | 0 <= d < i && nodes[d].key == k ensures Reaches(nodes, d, RepositoryIndex) {
        GroundedReaches(nodes, d);
      }
      StepReaches(nodes, i, k, RepositoryIndex);
    }
  }

  lemma {:induction false} GroundedIff(nodes: seq<Node>)
    requires Layered(nodes)
    ensures Grounded(nodes) <==> forall i :: 0 <= i < |nodes| ==> Reaches(nodes, i, RepositoryIndex)
  {
    if Grounded(nodes) {
      forall i | 0 <= i < |nodes| ensures Reaches(nodes, i, RepositoryIndex) {
        GroundedReaches(nodes, i);
      }
    } else {
      var i :| 0 <= i < |nodes| && nodes[i].dependencies == [] && nodes[i].key != RepositoryIndex;
      assert !Reaches(nodes, i, RepositoryIndex);
    }
  }

  lemma FastGrounded(groups: seq<Group>)
    requires groups != []
    ensures Grounded(FastNodes(groups))
  {
  }

  lemma BoundedGrounded(groups: seq<Group>, reviews: nat)
    requires groups != []
    ensures Grounded(BoundedNodes(groups, reviews))
  {
  }

  /** What the full mesh consists of besides the index. */
  function FullRest(groups: seq<Group>, scouts: seq<Dimension>, reviews: seq<Dimension>, candidates: nat): seq<Node> {
    var all := AllScopes(groups);
    (Stage(ScoutKeys(scouts), all, [RepositoryIndex]) + Stage(CandidateKeys(candidates), all, ScoutKeys(scouts))
     + Stage([PlanAdjudicator], all, CandidateKeys(candidates)) + Stage([TestOracle], all, [PlanAdjudicator]))
    + (Writers(groups, [PlanAdjudicator, TestOracle]) + IntegrateAndCheck(groups))
    + (Stage(ReviewKeys(reviews), all, [Integrate, Checks]) + Stage([Supervisor], all, [Integrate, Checks] + ReviewKeys(reviews))
       + Stage([ReleaseAdvisor], all, [Integrate, Checks, Supervisor]))
  }

  lemma FullGrounded(groups: seq<Group>, scouts: seq<Dimension>, reviews: seq<Dimension>, candidates: nat)
    requires groups != [] && scouts != [] && candidates > 0
    ensures Grounded(FullNodes(groups, scouts, reviews, candidates))
  {
  }

  lemma FullIs(groups: seq<Group>, scouts: seq<Dimension>, reviews: seq<Dimension>, candidates: nat)
    ensures FullNodes(groups, scouts, reviews, candidates)
         == Stage([RepositoryIndex], AllScopes(groups), []) + FullRest(groups, scouts, reviews, candidates)
  {
  }

  /** Without any plan candidate the adjudicator waits for nothing. */
  lemma NoCandidatesUngrounded(groups: seq<Group>, scouts: seq<Dimension>, reviews: seq<Dimension>)
    ensures !Grounded(FullNodes(groups, scouts, reviews, 0))
  {
    FullIs(groups, scouts, reviews, 0);
    var nodes := FullNodes(groups, scouts, reviews, 0);
    assert nodes[1 + |scouts|] == Node(PlanAdjudicator, AllScopes(groups), CandidateKeys(0));
  }

  /** Every node depends on the index, unless the cap on plan candidates leaves an R3 or R4 plan without any. */
  lemma IndexUnderEverythingIff(rank: Rank, c: Contract, groups: seq<Group>)
    requires groups != []
    ensures (forall i :: 0 <= i < |NodesFor(rank, c, groups)| ==> Reaches(NodesFor(rank, c, groups), i, RepositoryIndex))
       <==> (rank >= 3 ==> c.maximumCandidates >= 1)
  {
    PlanIsLayered(rank, c, groups);
    GroundedIff(NodesFor(rank, c, groups));
    if rank <= 1 {
      FastGrounded(groups);
    } else if rank == 2 {
      BoundedGrounded(groups, if c.reviewRuns < 2 then Positive(c.reviewRuns) else 2);
    } else if c.maximumCandidates >= 1 {
      FullGrounded(groups, ScoutDimensions(rank, c), ReviewDimensions(rank, c), PlanCandidates(rank, c));
    } else {
      NoCandidatesUngrounded(groups, ScoutDimensions(rank, c), ReviewDimensions(rank, c));
    }
  }
}
