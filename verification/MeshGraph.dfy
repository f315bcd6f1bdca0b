/** build_mesh_plan: the graph it emits for every risk, contract and cap (mesh_plan.py). */
module MeshGraph {
  import opened Basics
  import opened MeshRuntime
  import opened MeshPlan

  /** What the plan takes from the contract and its parameters. */
  datatype Contract = Contract(
    components: seq<string>, implementationRuns: int, reviewRuns: int,
    sensitive: bool, data: bool, maximumWriters: int, maximumCandidates: int)

  datatype Plan = Plan(nodes: seq<Node>, groups: seq<Group>)

  // ---- Dimensions ----

  function If(condition: bool, xs: seq<Dimension>): seq<Dimension> { if condition then xs else [] }

  /** The context dimensions of _dimensions. */
  function ScoutDimensions(rank: Rank, c: Contract): seq<Dimension> {
    [Architecture, Tests] + If(rank >= 2, [Runtime, Compatibility]) + If(rank >= 3 || c.sensitive, [Security])
    + If(rank >= 3 || c.data, [Data]) + If(rank >= 4, [Rollback, Operations])
  }

  /** The review dimensions of _dimensions. */
  function ReviewDimensions(rank: Rank, c: Contract): seq<Dimension> {
    [Scope, Correctness, Tests] + If(rank >= 2, [Compatibility, Runtime]) + If(rank >= 3 || c.sensitive, [Security])
    + If(rank >= 3 || c.data, [Data]) + If(rank >= 3, [Performance, Concurrency]) + If(rank >= 4, [Rollback, Operability])
  }

  // ---- The nodes ----

  function PlanCandidates(rank: Rank, c: Contract): nat {
    var most := if rank == 3 then 3 else if rank == 4 then 4 else 1;
    Positive(if c.maximumCandidates < most then c.maximumCandidates else most)
  }

  function ScoutKeys(dimensions: seq<Dimension>): seq<Key> { seq(|dimensions|, i requires 0 <= i < |dimensions| => Scout(dimensions[i])) }

  function ReviewKeys(dimensions: seq<Dimension>): seq<Key> { seq(|dimensions|, i requires 0 <= i < |dimensions| => Review(dimensions[i])) }

  function CandidateKeys(n: nat): seq<Key> { seq(n, i requires 0 <= i < n => PlanCandidate(i + 1)) }

  function ImplementKeys(n: nat): seq<Key> { seq(n, i requires 0 <= i < n => Implement(i + 1)) }

  function FocusedKeys(n: nat): seq<Key> { seq(n, i requires 0 <= i < n => FocusedReview(i + 1)) }

  /** Nodes that share their scopes and dependencies. */
  function Stage(keys: seq<Key>, scopes: Group, dependencies: seq<Key>): seq<Node> {
    seq(|keys|, i requires 0 <= i < |keys| => Node(keys[i], scopes, dependencies))
  }

  /** One writer for each group. */
  function Writers(groups: seq<Group>, dependencies: seq<Key>): seq<Node> {
    seq(|groups|, i requires 0 <= i < |groups| => Node(Implement(i + 1), groups[i], dependencies))
  }

  function AllScopes(groups: seq<Group>): Group { set g, x | 0 <= g < |groups| && x in groups[g] :: x }

  /** add_integrator_and_checks */
  function IntegrateAndCheck(groups: seq<Group>): seq<Node> {
    Stage([Integrate], AllScopes(groups), ImplementKeys(|groups|)) + Stage([Checks], AllScopes(groups), [Integrate])
  }

  /** R0 and R1: index, one writer, integration, checks, one guard. */
  function FastNodes(groups: seq<Group>): seq<Node> {
    var all := AllScopes(groups);
    Stage([RepositoryIndex], all, []) + Writers(groups, [RepositoryIndex]) + IntegrateAndCheck(groups)
    + Stage([FinalGuard], all, [Integrate, Checks])
  }

  /** R2: a scout before the writer, and up to two focused reviews. */
  function BoundedNodes(groups: seq<Group>, reviews: nat): seq<Node> {
    var all := AllScopes(groups);
    Stage([RepositoryIndex], all, []) + Stage([ScoutFocused], all, [RepositoryIndex]) + Writers(groups, [ScoutFocused])
    + IntegrateAndCheck(groups) + Stage(FocusedKeys(reviews), all, [Integrate, Checks])
  }

  /** R3 and R4: the full mesh, up to its writers. */
  function Preparation(groups: seq<Group>, scouts: seq<Dimension>, candidates: nat): seq<Node> {
    var all := AllScopes(groups);
    Stage([RepositoryIndex], all, []) + Stage(ScoutKeys(scouts), all, [RepositoryIndex])
    + Stage(CandidateKeys(candidates), all, ScoutKeys(scouts))
    + Stage([PlanAdjudicator], all, CandidateKeys(candidates)) + Stage([TestOracle], all, [PlanAdjudicator])
  }

  function FullNodes(groups: seq<Group>, scouts: seq<Dimension>, reviews: seq<Dimension>, candidates: nat): seq<Node> {
    var all := AllScopes(groups);
    Preparation(groups, scouts, candidates) + Writers(groups, [PlanAdjudicator, TestOracle]) + IntegrateAndCheck(groups)
    + Stage(ReviewKeys(reviews), all, [Integrate, Checks])
    + Stage([Supervisor], all, [Integrate, Checks] + ReviewKeys(reviews))
    + Stage([ReleaseAdvisor], all, [Integrate, Checks, Supervisor])
  }

  function NodesFor(rank: Rank, c: Contract, groups: seq<Group>): seq<Node> {
    if rank <= 1 then FastNodes(groups)
    else if rank == 2 then BoundedNodes(groups, if c.reviewRuns < 2 then Positive(c.reviewRuns) else 2)
    else FullNodes(groups, ScoutDimensions(rank, c), ReviewDimensions(rank, c), PlanCandidates(rank, c))
  }

  /** The caller errors of build_mesh_plan. */
  predicate Plannable(rank: Rank, c: Contract) {
    c.components != [] && c.implementationRuns >= 1 && (rank <= 2 ==> c.reviewRuns >= 1)
  }

  /** How many writers a plan may have. */
  function WriterCap(c: Contract): (cap: nat)
    ensures cap > 0
  {
    if c.maximumWriters < 1 then 1 else c.maximumWriters
  }

  /** How the writers' groups come about: one group up to R2, buckets of the scope roots within the cap above. */
  ghost predicate GroupsFor(p: Patterns, rank: Rank, c: Contract, groups: seq<Group>)
    requires AllPatterned(p, c.components)
  {
    var patterns := PatternSet(p, c.components);
    if rank <= 2 then groups == [patterns]
    else
      (exists order :: Distinct(order) && SetOf(order) == Roots(p, patterns)
            && |groups| == (if |order| <= WriterCap(c) then |order| else WriterCap(c))
            && Assigned(p, patterns, order, |order|, WriterCap(c), groups))
  }

  /** The plan of a contract. */
  ghost predicate Planned(p: Patterns, rank: Rank, c: Contract, plan: Plan) {
    Plannable(rank, c) && AllPatterned(p, c.components)
    && GroupsFor(p, rank, c, plan.groups) && plan.nodes == NodesFor(rank, c, plan.groups)
  }

  // ---- The method ----

  class PlanBuilder {
    var nodes: seq<Node>

    constructor ()
      ensures nodes == []
    {
      nodes := [];
    }

    /** The nested `add`. */
    method Add(key: Key, scopes: Group, dependencies: seq<Key>)
      modifies this
      ensures nodes == old(nodes) + [Node(key, scopes, dependencies)]
    {
      nodes := nodes + [Node(key, scopes, dependencies)];
    }

    method AddStage(keys: seq<Key>, scopes: Group, dependencies: seq<Key>)
      modifies this
      ensures nodes == old(nodes) + Stage(keys, scopes, dependencies)
    {
      for i := 0 to |keys|
        invariant nodes == old(nodes) + Stage(keys, scopes, dependencies)[..i]
      {
        Add(keys[i], scopes, dependencies);
        assert Stage(keys, scopes, dependencies)[..i + 1]
            == Stage(keys, scopes, dependencies)[..i] + [Node(keys[i], scopes, dependencies)];
      }
    }

    method AddWriters(groups: seq<Group>, dependencies: seq<Key>) returns (ids: seq<Key>)
      modifies this
      ensures nodes == old(nodes) + Writers(groups, dependencies) && ids == ImplementKeys(|groups|)
    {
      ids := [];
      for i := 0 to |groups|
        invariant nodes == old(nodes) + Writers(groups, dependencies)[..i] && ids == ImplementKeys(|groups|)[..i]
      {
        Add(Implement(i + 1), groups[i], dependencies);
        ids := ids + [Implement(i + 1)];
        assert Writers(groups, dependencies)[..i + 1]
            == Writers(groups, dependencies)[..i] + [Node(Implement(i + 1), groups[i], dependencies)];
      }
    }

    method AddIntegratorAndChecks(groups: seq<Group>, implementationIds: seq<Key>)
      requires implementationIds == ImplementKeys(|groups|)
      modifies this
      ensures nodes == old(nodes) + IntegrateAndCheck(groups)
    {
      Add(Integrate, AllScopes(groups), implementationIds);
      Add(Checks, AllScopes(groups), [Integrate]);
    }

    method AddFullMesh(groups: seq<Group>, scouts: seq<Dimension>, reviews: seq<Dimension>, candidates: nat)
      requires nodes == Stage([RepositoryIndex], AllScopes(groups), [])
      modifies this
      ensures nodes == FullNodes(groups, scouts, reviews, candidates)
    {
      var all := AllScopes(groups);
      AddStage(ScoutKeys(scouts), all, [RepositoryIndex]);
      AddStage(CandidateKeys(candidates), all, ScoutKeys(scouts));
      Add(PlanAdjudicator, all, CandidateKeys(candidates));
      Add(TestOracle, all, [PlanAdjudicator]);
      assert nodes == Preparation(groups, scouts, candidates);
      var ids := AddWriters(groups, [PlanAdjudicator, TestOracle]);
      AddIntegratorAndChecks(groups, ids);
      AddStage(ReviewKeys(reviews), all, [Integrate, Checks]);
      Add(Supervisor, all, [Integrate, Checks] + ReviewKeys(reviews));
      Add(ReleaseAdvisor, all, [Integrate, Checks, Supervisor]);
    }
  }

  /** The union of all groups: the single group of a plan with one writer. */
  method Merge(groups: seq<Group>) returns (all: Group)
    ensures all == AllScopes(groups)
  {
    all := {};
    for i := 0 to |groups|
      invariant all == AllScopes(groups[..i])
    {
      all := all + groups[i];
      assert groups[..i + 1] == groups[..i] + [groups[i]];
      assert AllScopes(groups[..i + 1]) == AllScopes(groups[..i]) + groups[i] by {
        assert forall x :: x in groups[i] ==> x in groups[..i + 1][i];
        assert forall g :: 0 <= g < i ==> groups[..i + 1][g] == groups[..i][g];
      }
    }
    assert groups[..|groups|] == groups;
  }

  method BuildNodes(rank: Rank, c: Contract, groups: seq<Group>) returns (nodes: seq<Node>)
    requires Plannable(rank, c)
    ensures nodes == NodesFor(rank, c, groups)
  {
    var b := new PlanBuilder();
    var all := AllScopes(groups);
    b.Add(RepositoryIndex, all, []);
    if rank <= 1 {
      var ids := b.AddWriters(groups, [RepositoryIndex]);
      b.AddIntegratorAndChecks(groups, ids);
      b.Add(FinalGuard, all, [Integrate, Checks]);
    } else if rank == 2 {
      b.Add(ScoutFocused, all, [RepositoryIndex]);
      var ids := b.AddWriters(groups, [ScoutFocused]);
      b.AddIntegratorAndChecks(groups, ids);
      b.AddStage(FocusedKeys(if c.reviewRuns < 2 then c.reviewRuns else 2), all, [Integrate, Checks]);
    } else {
      b.AddFullMesh(groups, ScoutDimensions(rank, c), ReviewDimensions(rank, c), PlanCandidates(rank, c));
    }
    return b.nodes;
  }

  method BuildMeshPlan(p: Patterns, rank: Rank, c: Contract) returns (r: Result<Plan>)
    ensures r.Ok? <==> Plannable(rank, c) && AllPatterned(p, c.components)
    ensures r.Err? ==> r.failure == ValueError
    ensures r.Ok? ==> Planned(p, rank, c, r.value)
  {
    if c.components == [] {
      return Err(ValueError);
    }
    var maximum := WriterCap(c);
    var raw, order := GroupScopes(p, c.components, maximum);
    if raw.None? {
      return Err(ValueError);
    }
    var groups := raw.value;
    if rank <= 2 {
      var all := Merge(groups);
      MergedIsAll(p, PatternSet(p, c.components), order, maximum, groups);
      groups := [all];
    }
    if c.implementationRuns < 1 || (rank <= 2 && c.reviewRuns < 1) {
      return Err(ValueError);
    }
    var nodes := BuildNodes(rank, c, groups);
    return Ok(Plan(nodes, groups));
  }

  lemma MergedIsAll(p: Patterns, patterns: set<string>, order: seq<string>, maximum: nat, groups: seq<Group>)
    requires maximum > 0 && SetOf(order) == Roots(p, patterns) && Assigned(p, patterns, order, |order|, maximum, groups)
    ensures AllScopes(groups) == patterns
  {
    forall x ensures x in AllScopes(groups) <==> x in patterns {
      GroupsCover(p, patterns, order, maximum, groups, x);
    }
  }
}
