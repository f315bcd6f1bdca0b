/** The nodes of a mesh plan, key by key: which there are at each risk, for which scopes, and after which others. */
module MeshNodes {
  import opened MeshRuntime
  import opened MeshPlan
  import opened MeshGraph

  // ---- Dimensions ----

  /** Context is scouted for architecture and tests, from R2 on for the runtime and compatibility, for security and data from R3
      on or where the contract is about them, and at R4 for rollback and operations. */
  predicate Scouted(rank: Rank, c: Contract, d: Dimension) {
    match d
    case Architecture => true
    case Tests => true
    case Runtime => rank >= 2
    case Compatibility => rank >= 2
    case Security => rank >= 3 || c.sensitive
    case Data => rank >= 3 || c.data
    case Rollback => rank == 4
    case Operations => rank == 4
    case _ => false
  }

  /** A change is reviewed for scope, correctness and tests, likewise for compatibility, the runtime, security and data, from R3
      on for performance and concurrency, and at R4 for rollback and operability. */
  predicate Reviewed(rank: Rank, c: Contract, d: Dimension) {
    match d
    case Scope => true
    case Correctness => true
    case Tests => true
    case Compatibility => rank >= 2
    case Runtime => rank >= 2
    case Security => rank >= 3 || c.sensitive
    case Data => rank >= 3 || c.data
    case Performance => rank >= 3
    case Concurrency => rank >= 3
    case Rollback => rank == 4
    case Operability => rank == 4
    case _ => false
  }

  lemma IfHas(condition: bool, xs: seq<Dimension>, d: Dimension)
    ensures d in If(condition, xs) <==> condition && d in xs
  {
  }

  lemma ConcatHas(xs: seq<Dimension>, ys: seq<Dimension>, d: Dimension)
    ensures d in xs + ys <==> d in xs || d in ys
  {
  }

  lemma ScoutDimensionsAre(rank: Rank, c: Contract, d: Dimension)
    ensures d in ScoutDimensions(rank, c) <==> Scouted(rank, c, d)
  {
    var a, e := If(rank >= 2, [Runtime, Compatibility]), If(rank >= 3 || c.sensitive, [Security]);
    var f, g := If(rank >= 3 || c.data, [Data]), If(rank >= 4, [Rollback, Operations]);
    var start: seq<Dimension> := [Architecture, Tests];
    ConcatHas(start, a, d);
    ConcatHas(start + a, e, d);
    ConcatHas(start + a + e, f, d);
    ConcatHas(start + a + e + f, g, d);
    IfHas(rank >= 2, [Runtime, Compatibility], d);
    IfHas(rank >= 3 || c.sensitive, [Security], d);
    IfHas(rank >= 3 || c.data, [Data], d);
    IfHas(rank >= 4, [Rollback, Operations], d);
  }

  lemma ReviewDimensionsAre(rank: Rank, c: Contract, d: Dimension)
    ensures d in ReviewDimensions(rank, c) <==> Reviewed(rank, c, d)
  {
    var a, e, f := If(rank >= 2, [Compatibility, Runtime]), If(rank >= 3 || c.sensitive, [Security]), If(rank >= 3 || c.data, [Data]);
    var g, h := If(rank >= 3, [Performance, Concurrency]), If(rank >= 4, [Rollback, Operability]);
    var start: seq<Dimension> := [Scope, Correctness, Tests];
    ConcatHas(start, a, d);
    ConcatHas(start + a, e, d);
    ConcatHas(start + a + e, f, d);
    ConcatHas(start + a + e + f, g, d);
    ConcatHas(start + a + e + f + g, h, d);
    IfHas(rank >= 2, [Compatibility, Runtime], d);
    IfHas(rank >= 3 || c.sensitive, [Security], d);
    IfHas(rank >= 3 || c.data, [Data], d);
    IfHas(rank >= 3, [Performance, Concurrency], d);
    IfHas(rank >= 4, [Rollback, Operability], d);
  }

  // ---- Nodes ----

  /** How many plans compete: as many as the contract allows, and at most three at R3 and four at R4. */
  predicate Competes(rank: Rank, c: Contract, k: nat) { rank >= 3 && 1 <= k <= rank && k <= c.maximumCandidates }

  /** How many focused reviews R2 has: one or two. */
  predicate Focuses(c: Contract, k: nat) { k == 1 || (k == 2 && c.reviewRuns >= 2) }

  /** Which keys a plan has. */
  predicate HasNode(rank: Rank, c: Contract, writers: nat, key: Key) {
    match key
    case RepositoryIndex => true
    case Implement(i) => 1 <= i <= writers
    case Integrate => true
    case Checks => true
    case FinalGuard => rank <= 1
    case ScoutFocused => rank == 2
    case FocusedReview(k) => rank == 2 && Focuses(c, k)
    case Scout(d) => rank >= 3 && Scouted(rank, c, d)
    case PlanCandidate(k) => Competes(rank, c, k)
    case PlanAdjudicator => rank >= 3
    case TestOracle => rank >= 3
    case Review(d) => rank >= 3 && Reviewed(rank, c, d)
    case Supervisor => rank >= 3
    case ReleaseAdvisor => rank >= 3
  }

  /** What a node waits for. */
  ghost predicate WaitsFor(rank: Rank, c: Contract, writers: nat, key: Key, dependency: Key) {
    match key
    case RepositoryIndex => false
    case ScoutFocused => dependency == RepositoryIndex
    case Scout(_) => dependency == RepositoryIndex
    case PlanCandidate(_) => dependency.Scout? && Scouted(rank, c, dependency.dimension)
    case PlanAdjudicator => dependency.PlanCandidate? && Competes(rank, c, dependency.number)
    case TestOracle => dependency == PlanAdjudicator
    case Implement(_) =>
      if rank <= 1 then dependency == RepositoryIndex else if rank == 2 then dependency == ScoutFocused
      else dependency == PlanAdjudicator || dependency == TestOracle
    case Integrate => dependency.Implement? && 1 <= dependency.number <= writers
    case Checks => dependency == Integrate
    case FinalGuard => dependency == Integrate || dependency == Checks
    case FocusedReview(_) => dependency == Integrate || dependency == Checks
    case Review(_) => dependency == Integrate || dependency == Checks
    case Supervisor => dependency == Integrate || dependency == Checks || (dependency.Review? && Reviewed(rank, c, dependency.dimension))
    case ReleaseAdvisor => dependency == Integrate || dependency == Checks || dependency == Supervisor
  }

  /** A writer works on its own group, every other node on all of them; and each waits for just these. */
  ghost predicate Placed(rank: Rank, c: Contract, groups: seq<Group>, n: Node) {
    && HasNode(rank, c, |groups|, n.key)
    && (forall x :: x in n.scopes <==>
          exists g :: 0 <= g < |groups| && x in groups[g] && (n.key.Implement? ==> n.key.number == g + 1))
    && (forall k :: k in n.dependencies <==> WaitsFor(rank, c, |groups|, n.key, k))
  }

  // ---- Stages ----

  lemma StageHas(keys: seq<Key>, scopes: Group, dependencies: seq<Key>, n: Node)
    ensures n in Stage(keys, scopes, dependencies) <==> n.key in keys && n.scopes == scopes && n.dependencies == dependencies
  {
    if n.key in keys && n.scopes == scopes && n.dependencies == dependencies {
      var i :| 0 <= i < |keys| && keys[i] == n.key;
      assert Stage(keys, scopes, dependencies)[i] == n;
    }
  }

  lemma WritersHave(groups: seq<Group>, dependencies: seq<Key>, n: Node)
    ensures n in Writers(groups, dependencies) <==>
      n.key.Implement? && 1 <= n.key.number <= |groups| && n.scopes == groups[n.key.number - 1] && n.dependencies == dependencies
  {
    if n.key.Implement? && 1 <= n.key.number <= |groups| && n.scopes == groups[n.key.number - 1] && n.dependencies == dependencies {
      assert Writers(groups, dependencies)[n.key.number - 1] == n;
    }
  }

  lemma KeysAre(rank: Rank, c: Contract, writers: nat, k: Key)
    ensures k in ScoutKeys(ScoutDimensions(rank, c)) <==> k.Scout? && Scouted(rank, c, k.dimension)
    ensures k in ReviewKeys(ReviewDimensions(rank, c)) <==> k.Review? && Reviewed(rank, c, k.dimension)
    ensures k in ImplementKeys(writers) <==> k.Implement? && 1 <= k.number <= writers
  {
    if k.Scout? { ScoutKeyed(ScoutDimensions(rank, c), k.dimension); ScoutDimensionsAre(rank, c, k.dimension); }
    if k.Review? { ReviewKeyed(ReviewDimensions(rank, c), k.dimension); ReviewDimensionsAre(rank, c, k.dimension); }
    if k.Implement? && 1 <= k.number <= writers { assert ImplementKeys(writers)[k.number - 1] == k; }
  }

  lemma ScoutKeyed(dimensions: seq<Dimension>, d: Dimension)
    ensures Scout(d) in ScoutKeys(dimensions) <==> d in dimensions
  {
    if d in dimensions {
      var i :| 0 <= i < |dimensions| && dimensions[i] == d;
      assert ScoutKeys(dimensions)[i] == Scout(d);
    }
  }

  lemma ReviewKeyed(dimensions: seq<Dimension>, d: Dimension)
    ensures Review(d) in ReviewKeys(dimensions) <==> d in dimensions
  {
    if d in dimensions {
      var i :| 0 <= i < |dimensions| && dimensions[i] == d;
      assert ReviewKeys(dimensions)[i] == Review(d);
    }
  }

  lemma CandidatesAre(rank: Rank, c: Contract, k: Key)
    requires rank >= 3
    ensures k in CandidateKeys(PlanCandidates(rank, c)) <==> k.PlanCandidate? && Competes(rank, c, k.number)
  {
    var n := PlanCandidates(rank, c);
    if k.PlanCandidate? && 1 <= k.number <= n { assert CandidateKeys(n)[k.number - 1] == k; }
  }

  lemma FocusedAre(c: Contract, k: Key)
    requires c.reviewRuns >= 1
    ensures k in FocusedKeys(if c.reviewRuns < 2 then Positive(c.reviewRuns) else 2) <==> k.FocusedReview? && Focuses(c, k.number)
  {
    var n := if c.reviewRuns < 2 then Positive(c.reviewRuns) else 2;
    if k.FocusedReview? && 1 <= k.number <= n { assert FocusedKeys(n)[k.number - 1] == k; }
  }

  // ---- Every plan ----

  lemma WritersAre(rank: Rank, c: Contract, writers: nat)
    ensures forall k :: k in ImplementKeys(writers) <==> k.Implement? && 1 <= k.number <= writers
  {
    forall k ensures k in ImplementKeys(writers) <==> k.Implement? && 1 <= k.number <= writers {
      KeysAre(rank, c, writers, k);
    }
  }

  lemma FastNode(groups: seq<Group>, n: Node)
    ensures n in FastNodes(groups) <==>
      || n in Stage([RepositoryIndex], AllScopes(groups), []) || n in Writers(groups, [RepositoryIndex])
      || n in Stage([Integrate], AllScopes(groups), ImplementKeys(|groups|)) || n in Stage([Checks], AllScopes(groups), [Integrate])
      || n in Stage([FinalGuard], AllScopes(groups), [Integrate, Checks])
  {
  }

  lemma FastPlaced(rank: Rank, c: Contract, groups: seq<Group>, n: Node)
    requires rank <= 1 && n in FastNodes(groups)
    ensures Placed(rank, c, groups, n)
  {
    var all := AllScopes(groups);
    FastNode(groups, n);
    if n in Stage([RepositoryIndex], all, []) {
      StagePlaced(rank, c, groups, [RepositoryIndex], [], n);
    } else if n in Writers(groups, [RepositoryIndex]) {
      WriterPlaced(rank, c, groups, n);
    } else if n in Stage([FinalGuard], all, [Integrate, Checks]) {
      StagePlaced(rank, c, groups, [FinalGuard], [Integrate, Checks], n);
    } else {
      CheckedPlaced(rank, c, groups, n);
    }
  }

  lemma BoundedNode(groups: seq<Group>, reviews: nat, n: Node)
    ensures n in BoundedNodes(groups, reviews) <==>
      || n in Stage([RepositoryIndex], AllScopes(groups), []) || n in Stage([ScoutFocused], AllScopes(groups), [RepositoryIndex])
      || n in Writers(groups, [ScoutFocused])
      || n in Stage([Integrate], AllScopes(groups), ImplementKeys(|groups|)) || n in Stage([Checks], AllScopes(groups), [Integrate])
      || n in Stage(FocusedKeys(reviews), AllScopes(groups), [Integrate, Checks])
  {
  }

  function Reviews(c: Contract): nat { if c.reviewRuns < 2 then Positive(c.reviewRuns) else 2 }

  lemma BoundedPlaced(rank: Rank, c: Contract, groups: seq<Group>, n: Node)
    requires rank == 2 && c.reviewRuns >= 1 && n in BoundedNodes(groups, Reviews(c))
    ensures Placed(rank, c, groups, n)
  {
    var all := AllScopes(groups);
    BoundedNode(groups, Reviews(c), n);
    if n in Stage([RepositoryIndex], all, []) {
      StagePlaced(rank, c, groups, [RepositoryIndex], [], n);
    } else if n in Stage([ScoutFocused], all, [RepositoryIndex]) {
      StagePlaced(rank, c, groups, [ScoutFocused], [RepositoryIndex], n);
    } else if n in Writers(groups, [ScoutFocused]) {
      WriterPlaced(rank, c, groups, n);
    } else if n in Stage(FocusedKeys(Reviews(c)), all, [Integrate, Checks]) {
      forall k ensures k in FocusedKeys(Reviews(c)) <==> k.FocusedReview? && Focuses(c, k.number) {
        FocusedAre(c, k);
      }
      StagePlaced(rank, c, groups, FocusedKeys(Reviews(c)), [Integrate, Checks], n);
    } else {
      CheckedPlaced(rank, c, groups, n);
    }
  }

  lemma PreparationNode(groups: seq<Group>, scouts: seq<Dimension>, candidates: nat, n: Node)
    ensures n in Preparation(groups, scouts, candidates) <==>
      || n in Stage([RepositoryIndex], AllScopes(groups), []) || n in Stage(ScoutKeys(scouts), AllScopes(groups), [RepositoryIndex])
      || n in Stage(CandidateKeys(candidates), AllScopes(groups), ScoutKeys(scouts))
      || n in Stage([PlanAdjudicator], AllScopes(groups), CandidateKeys(candidates)) || n in Stage([TestOracle], AllScopes(groups), [PlanAdjudicator])
  {
  }

  lemma ScoutsAre(rank: Rank, c: Contract)
    ensures forall k :: k in ScoutKeys(ScoutDimensions(rank, c)) <==> k.Scout? && Scouted(rank, c, k.dimension)
  {
    forall k ensures k in ScoutKeys(ScoutDimensions(rank, c)) <==> k.Scout? && Scouted(rank, c, k.dimension) {
      KeysAre(rank, c, 0, k);
    }
  }

  lemma ReviewsAre(rank: Rank, c: Contract)
    ensures forall k :: k in ReviewKeys(ReviewDimensions(rank, c)) <==> k.Review? && Reviewed(rank, c, k.dimension)
  {
    forall k ensures k in ReviewKeys(ReviewDimensions(rank, c)) <==> k.Review? && Reviewed(rank, c, k.dimension) {
      KeysAre(rank, c, 0, k);
    }
  }

  lemma AllCandidatesAre(rank: Rank, c: Contract)
    requires rank >= 3
    ensures forall k :: k in CandidateKeys(PlanCandidates(rank, c)) <==> k.PlanCandidate? && Competes(rank, c, k.number)
  {
    forall k ensures k in CandidateKeys(PlanCandidates(rank, c)) <==> k.PlanCandidate? && Competes(rank, c, k.number) {
      CandidatesAre(rank, c, k);
    }
  }

  /** A stage of keys the plan is to have, all waiting for the same, is in place. */
  lemma StagePlaced(rank: Rank, c: Contract, groups: seq<Group>, keys: seq<Key>, dependencies: seq<Key>, n: Node)
    requires n in Stage(keys, AllScopes(groups), dependencies)
    requires forall key :: key in keys ==> HasNode(rank, c, |groups|, key) && !key.Implement?
    requires forall key, k :: key in keys ==> (k in dependencies <==> WaitsFor(rank, c, |groups|, key, k))
    ensures Placed(rank, c, groups, n)
  {
    StageHas(keys, AllScopes(groups), dependencies, n);
  }

  lemma PreparationPlaced(rank: Rank, c: Contract, groups: seq<Group>, n: Node)
    requires rank >= 3 && n in Preparation(groups, ScoutDimensions(rank, c), PlanCandidates(rank, c))
    ensures Placed(rank, c, groups, n)
  {
    var all, scouts, candidates := AllScopes(groups), ScoutKeys(ScoutDimensions(rank, c)), CandidateKeys(PlanCandidates(rank, c));
    PreparationNode(groups, ScoutDimensions(rank, c), PlanCandidates(rank, c), n);
    ScoutsAre(rank, c);
    AllCandidatesAre(rank, c);
    if n in Stage([RepositoryIndex], all, []) {
      StagePlaced(rank, c, groups, [RepositoryIndex], [], n);
    } else if n in Stage(scouts, all, [RepositoryIndex]) {
      StagePlaced(rank, c, groups, scouts, [RepositoryIndex], n);
    } else if n in Stage(candidates, all, scouts) {
      StagePlaced(rank, c, groups, candidates, scouts, n);
    } else if n in Stage([PlanAdjudicator], all, candidates) {
      StagePlaced(rank, c, groups, [PlanAdjudicator], candidates, n);
    } else {
      StagePlaced(rank, c, groups, [TestOracle], [PlanAdjudicator], n);
    }
  }

  lemma FullNode(groups: seq<Group>, scouts: seq<Dimension>, reviews: seq<Dimension>, candidates: nat, n: Node)
    ensures n in FullNodes(groups, scouts, reviews, candidates) <==>
      || n in Preparation(groups, scouts, candidates) || n in Writers(groups, [PlanAdjudicator, TestOracle])
      || n in Stage([Integrate], AllScopes(groups), ImplementKeys(|groups|)) || n in Stage([Checks], AllScopes(groups), [Integrate])
      || n in Stage(ReviewKeys(reviews), AllScopes(groups), [Integrate, Checks])
      || n in Stage([Supervisor], AllScopes(groups), [Integrate, Checks] + ReviewKeys(reviews))
      || n in Stage([ReleaseAdvisor], AllScopes(groups), [Integrate, Checks, Supervisor])
  {
  }

  lemma WriterPlaced(rank: Rank, c: Contract, groups: seq<Group>, n: Node)
    requires n in Writers(groups, if rank <= 1 then [RepositoryIndex] else if rank == 2 then [ScoutFocused] else [PlanAdjudicator, TestOracle])
    ensures Placed(rank, c, groups, n)
  {
    WritersHave(groups, if rank <= 1 then [RepositoryIndex] else if rank == 2 then [ScoutFocused] else [PlanAdjudicator, TestOracle], n);
  }

  /** The nodes of every plan that follow its writers. */
  lemma CheckedPlaced(rank: Rank, c: Contract, groups: seq<Group>, n: Node)
    requires n in Stage([Integrate], AllScopes(groups), ImplementKeys(|groups|)) || n in Stage([Checks], AllScopes(groups), [Integrate])
    ensures Placed(rank, c, groups, n)
  {
    WritersAre(rank, c, |groups|);
    if n in Stage([Integrate], AllScopes(groups), ImplementKeys(|groups|)) {
      StagePlaced(rank, c, groups, [Integrate], ImplementKeys(|groups|), n);
    } else {
      StagePlaced(rank, c, groups, [Checks], [Integrate], n);
    }
  }

  lemma JudgesPlaced(rank: Rank, c: Contract, groups: seq<Group>, n: Node)
    requires rank >= 3
    requires var all, reviews := AllScopes(groups), ReviewKeys(ReviewDimensions(rank, c));
      || n in Stage(reviews, all, [Integrate, Checks]) || n in Stage([Supervisor], all, [Integrate, Checks] + reviews)
      || n in Stage([ReleaseAdvisor], all, [Integrate, Checks, Supervisor])
    ensures Placed(rank, c, groups, n)
  {
    var all, reviews := AllScopes(groups), ReviewKeys(ReviewDimensions(rank, c));
    ReviewsAre(rank, c);
    if n in Stage(reviews, all, [Integrate, Checks]) {
      StagePlaced(rank, c, groups, reviews, [Integrate, Checks], n);
    } else if n in Stage([Supervisor], all, [Integrate, Checks] + reviews) {
      StagePlaced(rank, c, groups, [Supervisor], [Integrate, Checks] + reviews, n);
    } else {
      StagePlaced(rank, c, groups, [ReleaseAdvisor], [Integrate, Checks, Supervisor], n);
    }
  }

  lemma FullPlaced(rank: Rank, c: Contract, groups: seq<Group>, n: Node)
    requires rank >= 3 && n in FullNodes(groups, ScoutDimensions(rank, c), ReviewDimensions(rank, c), PlanCandidates(rank, c))
    ensures Placed(rank, c, groups, n)
  {
    FullNode(groups, ScoutDimensions(rank, c), ReviewDimensions(rank, c), PlanCandidates(rank, c), n);
    if n in Preparation(groups, ScoutDimensions(rank, c), PlanCandidates(rank, c)) {
      PreparationPlaced(rank, c, groups, n);
    } else if n in Writers(groups, [PlanAdjudicator, TestOracle]) {
      WriterPlaced(rank, c, groups, n);
    } else if n in Stage([Integrate], AllScopes(groups), ImplementKeys(|groups|)) || n in Stage([Checks], AllScopes(groups), [Integrate]) {
      CheckedPlaced(rank, c, groups, n);
    } else {
      JudgesPlaced(rank, c, groups, n);
    }
  }

  /** Every node of a plan has its place: only the keys of its risk, its own scopes, and just the nodes it is to wait for. */
  lemma NodesPlaced(rank: Rank, c: Contract, groups: seq<Group>, n: Node)
    requires Plannable(rank, c) && n in NodesFor(rank, c, groups)
    ensures Placed(rank, c, groups, n)
  {
    if rank <= 1 {
      FastPlaced(rank, c, groups, n);
    } else if rank == 2 {
      BoundedPlaced(rank, c, groups, n);
    } else {
      FullPlaced(rank, c, groups, n);
    }
  }

  // ---- And each of those keys is there ----

  /** The node of a key. */
  function NodeOf(rank: Rank, c: Contract, groups: seq<Group>, key: Key): Node
    requires HasNode(rank, c, |groups|, key)
  {
    var all, scouts, reviews := AllScopes(groups), ScoutKeys(ScoutDimensions(rank, c)), ReviewKeys(ReviewDimensions(rank, c));
    match key
    case RepositoryIndex => Node(key, all, [])
    case ScoutFocused => Node(key, all, [RepositoryIndex])
    case Scout(_) => Node(key, all, [RepositoryIndex])
    case PlanCandidate(_) => Node(key, all, scouts)
    case PlanAdjudicator => Node(key, all, CandidateKeys(PlanCandidates(rank, c)))
    case TestOracle => Node(key, all, [PlanAdjudicator])
    case Implement(i) =>
      Node(key, groups[i - 1], if rank <= 1 then [RepositoryIndex] else if rank == 2 then [ScoutFocused] else [PlanAdjudicator, TestOracle])
    case Integrate => Node(key, all, ImplementKeys(|groups|))
    case Checks => Node(key, all, [Integrate])
    case FinalGuard => Node(key, all, [Integrate, Checks])
    case FocusedReview(_) => Node(key, all, [Integrate, Checks])
    case Review(_) => Node(key, all, [Integrate, Checks])
    case Supervisor => Node(key, all, [Integrate, Checks] + reviews)
    case ReleaseAdvisor => Node(key, all, [Integrate, Checks, Supervisor])
  }

  lemma FastThere(rank: Rank, c: Contract, groups: seq<Group>, key: Key)
    requires rank <= 1 && HasNode(rank, c, |groups|, key)
    ensures NodeOf(rank, c, groups, key) in FastNodes(groups)
  {
    var all, n := AllScopes(groups), NodeOf(rank, c, groups, key);
    FastNode(groups, n);
    StageHas([RepositoryIndex], all, [], n);
    WritersHave(groups, [RepositoryIndex], n);
    StageHas([Integrate], all, ImplementKeys(|groups|), n);
    StageHas([Checks], all, [Integrate], n);
    StageHas([FinalGuard], all, [Integrate, Checks], n);
  }

  lemma BoundedThere(rank: Rank, c: Contract, groups: seq<Group>, key: Key)
    requires rank == 2 && c.reviewRuns >= 1 && HasNode(rank, c, |groups|, key)
    ensures NodeOf(rank, c, groups, key) in BoundedNodes(groups, Reviews(c))
  {
    var all, n := AllScopes(groups), NodeOf(rank, c, groups, key);
    BoundedNode(groups, Reviews(c), n);
    FocusedAre(c, key);
    StageHas([RepositoryIndex], all, [], n);
    StageHas([ScoutFocused], all, [RepositoryIndex], n);
    WritersHave(groups, [ScoutFocused], n);
    StageHas([Integrate], all, ImplementKeys(|groups|), n);
    StageHas([Checks], all, [Integrate], n);
    StageHas(FocusedKeys(Reviews(c)), all, [Integrate, Checks], n);
  }

  lemma FullThere(rank: Rank, c: Contract, groups: seq<Group>, key: Key)
    requires rank >= 3 && HasNode(rank, c, |groups|, key)
    ensures NodeOf(rank, c, groups, key) in FullNodes(groups, ScoutDimensions(rank, c), ReviewDimensions(rank, c), PlanCandidates(rank, c))
  {
    var all, n := AllScopes(groups), NodeOf(rank, c, groups, key);
    var scouts, reviews := ScoutKeys(ScoutDimensions(rank, c)), ReviewKeys(ReviewDimensions(rank, c));
    var candidates := CandidateKeys(PlanCandidates(rank, c));
    FullNode(groups, ScoutDimensions(rank, c), ReviewDimensions(rank, c), PlanCandidates(rank, c), n);
    PreparationNode(groups, ScoutDimensions(rank, c), PlanCandidates(rank, c), n);
    KeysAre(rank, c, |groups|, key);
    CandidatesAre(rank, c, key);
    match key
    case RepositoryIndex => StageHas([RepositoryIndex], all, [], n);
    case Scout(_) => StageHas(scouts, all, [RepositoryIndex], n);
    case PlanCandidate(_) => StageHas(candidates, all, scouts, n);
    case PlanAdjudicator => StageHas([PlanAdjudicator], all, candidates, n);
    case TestOracle => StageHas([TestOracle], all, [PlanAdjudicator], n);
    case Implement(_) => WritersHave(groups, [PlanAdjudicator, TestOracle], n);
    case Integrate => StageHas([Integrate], all, ImplementKeys(|groups|), n);
    case Checks => StageHas([Checks], all, [Integrate], n);
    case Review(_) => StageHas(reviews, all, [Integrate, Checks], n);
    case Supervisor => StageHas([Supervisor], all, [Integrate, Checks] + reviews, n);
    case ReleaseAdvisor => StageHas([ReleaseAdvisor], all, [Integrate, Checks, Supervisor], n);
  }

  /** A plan has a node for a key exactly if its risk and its contract call for one. */
  lemma PlanHasExactly(rank: Rank, c: Contract, groups: seq<Group>, key: Key)
    requires Plannable(rank, c)
    ensures HasKey(NodesFor(rank, c, groups), key) <==> HasNode(rank, c, |groups|, key)
  {
    var nodes := NodesFor(rank, c, groups);
    if i :| 0 <= i < |nodes| && nodes[i].key == key {
      NodesPlaced(rank, c, groups, nodes[i]);
    }
    if HasNode(rank, c, |groups|, key) {
      if rank <= 1 {
        FastThere(rank, c, groups, key);
      } else if rank == 2 {
        BoundedThere(rank, c, groups, key);
      } else {
        FullThere(rank, c, groups, key);
      }
      var i :| 0 <= i < |nodes| && nodes[i] == NodeOf(rank, c, groups, key);
    }
  }
}
