/** Planning the mesh: scope groups and the dependency graph of its nodes (mesh_plan.py). */
module MeshPlan {
  import opened Basics

  // ---- Scope groups ----

  /** How a component becomes a pattern, if it may, and which root a pattern has. */
  datatype Patterns = Patterns(pattern: string -> Option<string>, root: string -> string)

  type Group = set<string>

  predicate AllPatterned(p: Patterns, scopes: seq<string>) {
    forall i :: 0 <= i < |scopes| ==> p.pattern(scopes[i]).Some?
  }

  function PatternSet(p: Patterns, scopes: seq<string>): set<string>
    requires AllPatterned(p, scopes)
  {
    set i | 0 <= i < |scopes| :: p.pattern(scopes[i]).value
  }

  function WithRoot(p: Patterns, patterns: set<string>, root: string): Group {
    set x | x in patterns && p.root(x) == root
  }

  function Roots(p: Patterns, patterns: set<string>): set<string> {
    set x | x in patterns :: p.root(x)
  }

  /** The bucket of the i-th root: its own, or one in turn when there are more roots than groups allowed. */
  function Bucket(count: nat, maximum: nat, i: nat): nat
    requires maximum > 0
  {
    if count <= maximum then i else i % maximum
  }

  /** Each group holds all patterns of the roots assigned to it, and nothing else. */
  ghost predicate Assigned(p: Patterns, patterns: set<string>, order: seq<string>, n: nat, maximum: nat, groups: seq<Group>)
    requires maximum > 0 && n <= |order|
  {
    && (forall i :: 0 <= i < n ==> Bucket(|order|, maximum, i) < |groups|)
    && (forall g, x :: 0 <= g < |groups| ==>
          (x in groups[g] <==> exists i :: 0 <= i < n && Bucket(|order|, maximum, i) == g && x in WithRoot(p, patterns, order[i])))
  }

  /** The first loop of _group_scopes: patterns by root. */
  method ByRoot(p: Patterns, scopes: seq<string>) returns (byRoot: Option<map<string, Group>>)
    ensures byRoot.Some? <==> AllPatterned(p, scopes)
    ensures byRoot.Some? ==> byRoot.value == map r | r in Roots(p, PatternSet(p, scopes)) :: WithRoot(p, PatternSet(p, scopes), r)
  {
    var found: map<string, Group> := map[];
    for i := 0 to |scopes|
      invariant AllPatterned(p, scopes[..i])
      invariant found == map r | r in Roots(p, PatternSet(p, scopes[..i])) :: WithRoot(p, PatternSet(p, scopes[..i]), r)
    {
      var pattern := p.pattern(scopes[i]);
      if pattern.None? {
        return None;
      }
      var root := p.root(pattern.value);
      ghost var before, after := PatternSet(p, scopes[..i]), scopes[..i + 1];
      assert after == scopes[..i] + [scopes[i]];
      assert PatternSet(p, after) == before + {pattern.value} by {
        assert forall j :: 0 <= j < i ==> after[j] == scopes[..i][j];
        assert after[i] == scopes[i];
      }
      RootTurn(p, before, pattern.value, found);
      found := found[root := (if root in found then found[root] else {}) + {pattern.value}];
    }
    assert scopes[..|scopes|] == scopes;
    return Some(found);
  }

  lemma RootTurn(p: Patterns, patterns: set<string>, x: string, found: map<string, Group>)
    requires found == map r | r in Roots(p, patterns) :: WithRoot(p, patterns, r)
    ensures var root := p.root(x);
      found[root := (if root in found then found[root] else {}) + {x}]
        == map r | r in Roots(p, patterns + {x}) :: WithRoot(p, patterns + {x}, r)
  {
    var root, all := p.root(x), patterns + {x};
    var next := found[root := (if root in found then found[root] else {}) + {x}];
    assert Roots(p, all) == Roots(p, patterns) + {root};
    assert root !in found ==> WithRoot(p, patterns, root) == {} by {
      forall y | y in patterns && root !in found ensures p.root(y) != root {
        assert p.root(y) in Roots(p, patterns);
      }
    }
    forall r | r in Roots(p, all) ensures next[r] == WithRoot(p, all, r) {
      if r == root {
        assert WithRoot(p, all, r) == WithRoot(p, patterns, r) + {x};
      } else {
        assert WithRoot(p, all, r) == WithRoot(p, patterns, r);
      }
    }
  }

  /** _group_scopes; in which order the roots are taken is left open. */
  method GroupScopes(p: Patterns, scopes: seq<string>, maximum: nat) returns (groups: Option<seq<Group>>, ghost order: seq<string>)
    requires maximum > 0
    ensures groups.Some? <==> AllPatterned(p, scopes)
    ensures groups.Some? && scopes == [] ==> groups.value == [{"*"}]
    ensures groups.Some? && scopes != [] ==>
      && Distinct(order) && SetOf(order) == Roots(p, PatternSet(p, scopes))
      && Assigned(p, PatternSet(p, scopes), order, |order|, maximum, groups.value)
      && |groups.value| == if |order| <= maximum then |order| else maximum
  {
    order := [];
    var byRoot := ByRoot(p, scopes);
    if byRoot.None? {
      return None, order;
    }
    if scopes == [] {
      return Some([{"*"}]), order;
    }
    var roots := Enumerate(byRoot.value.Keys);
    order := roots;
    ghost var patterns := PatternSet(p, scopes);
    var buckets: seq<Group> := seq(if |roots| <= maximum then |roots| else maximum, i => {});
    for i := 0 to |roots|
      invariant |buckets| == if |roots| <= maximum then |roots| else maximum
      invariant Assigned(p, patterns, roots, i, maximum, buckets)
    {
      assert roots[i] in SetOf(roots);
      var b := Bucket(|roots|, maximum, i);
      ghost var before := buckets;
      buckets := buckets[b := buckets[b] + byRoot.value[roots[i]]];
      AssignedTurn(p, patterns, roots, i, maximum, before, buckets);
    }
    return Some(buckets), order;
  }

  lemma AssignedTurn(p: Patterns, patterns: set<string>, order: seq<string>, n: nat, maximum: nat, before: seq<Group>, after: seq<Group>)
    requires maximum > 0 && n < |order| && Assigned(p, patterns, order, n, maximum, before)
    requires var b := Bucket(|order|, maximum, n);
      b < |before| && after == before[b := before[b] + WithRoot(p, patterns, order[n])]
    ensures Assigned(p, patterns, order, n + 1, maximum, after)
  {
  }

  lemma RootOfPattern(p: Patterns, patterns: set<string>, order: seq<string>, x: string) returns (i: nat)
    requires SetOf(order) == Roots(p, patterns) && x in patterns
    ensures i < |order| && order[i] == p.root(x) && x in WithRoot(p, patterns, order[i])
  {
    assert p.root(x) in SetOf(order);
    i :| 0 <= i < |order| && order[i] == p.root(x);
  }

  /** The groups cover every pattern and nothing else, and two patterns share a group exactly when their roots
      were put in one bucket; in particular no root is ever split. */
  lemma GroupsCover(p: Patterns, patterns: set<string>, order: seq<string>, maximum: nat, groups: seq<Group>, x: string)
    requires maximum > 0 && SetOf(order) == Roots(p, patterns) && Assigned(p, patterns, order, |order|, maximum, groups)
    ensures x in patterns <==> exists g :: 0 <= g < |groups| && x in groups[g]
  {
    if x in patterns {
      var i := RootOfPattern(p, patterns, order, x);
      assert x in groups[Bucket(|order|, maximum, i)];
    }
  }

  lemma GroupsByBucket(p: Patterns, patterns: set<string>, order: seq<string>, maximum: nat, groups: seq<Group>, i: nat, x: string, g: nat)
    requires maximum > 0 && Distinct(order) && Assigned(p, patterns, order, |order|, maximum, groups)
    requires i < |order| && x in patterns && p.root(x) == order[i] && g < |groups|
    ensures x in groups[g] <==> Bucket(|order|, maximum, i) == g
  {
  }

  /** No scope root is split between two groups. */
  lemma NoRootSplit(p: Patterns, patterns: set<string>, order: seq<string>, maximum: nat, groups: seq<Group>, x: string, y: string, g: nat, g': nat)
    requires maximum > 0 && Distinct(order) && SetOf(order) == Roots(p, patterns)
    requires Assigned(p, patterns, order, |order|, maximum, groups)
    requires x in patterns && y in patterns && p.root(x) == p.root(y)
    requires g < |groups| && g' < |groups| && x in groups[g] && y in groups[g']
    ensures g == g'
  {
    var i := RootOfPattern(p, patterns, order, x);
    GroupsByBucket(p, patterns, order, maximum, groups, i, x, g);
    GroupsByBucket(p, patterns, order, maximum, groups, i, y, g');
  }

  /** Within the cap no two roots share a group, whatever else they have in common. */
  lemma DifferentRootsSplit(p: Patterns, patterns: set<string>, order: seq<string>, maximum: nat, groups: seq<Group>, x: string, y: string, g: nat)
    requires maximum > 0 && Distinct(order) && SetOf(order) == Roots(p, patterns) && |order| <= maximum
    requires Assigned(p, patterns, order, |order|, maximum, groups)
    requires x in patterns && y in patterns && p.root(x) != p.root(y) && g < |groups|
    ensures !(x in groups[g] && y in groups[g])
  {
    var i := RootOfPattern(p, patterns, order, x);
    var j := RootOfPattern(p, patterns, order, y);
    GroupsByBucket(p, patterns, order, maximum, groups, i, x, g);
    GroupsByBucket(p, patterns, order, maximum, groups, j, y, g);
  }

  lemma Times(k: int, m: nat)
    ensures k <= 0 ==> k * m <= 0
    ensures k >= 1 ==> k * m >= m
  {
  }

  lemma SameRemainder(n: nat, q: int, r: nat, m: nat)
    requires m > 0 && r < m && n == q * m + r
    ensures n % m == r
  {
    Times(q - n / m, m);
    Times(n / m - q, m);
    assert n % m - r == (q - n / m) * m == -((n / m - q) * m);
  }

  lemma Turns(i: nat, j: nat, maximum: nat)
    requires maximum > 0 && i < j
    ensures j - i == maximum ==> i % maximum == j % maximum
    ensures j - i < maximum ==> i % maximum != j % maximum
  {
    var a, b := i / maximum, j / maximum;
    if j - i == maximum {
      SameRemainder(j, a + 1, i % maximum, maximum);
    }
    Times(b - a, maximum);
    assert j - i == (b - a) * maximum + (j % maximum - i % maximum);
  }

  /** With more roots than groups they are dealt out in turn: two roots as many places apart as there are groups share one, and
      two that are closer do not, so that no group has two roots more than another. */
  lemma DealtInTurn(p: Patterns, patterns: set<string>, order: seq<string>, maximum: nat, groups: seq<Group>,
                    i: nat, j: nat, x: string, y: string, g: nat)
    requires maximum > 0 && Distinct(order) && Assigned(p, patterns, order, |order|, maximum, groups) && |order| > maximum
    requires i < j < |order| && x in patterns && p.root(x) == order[i] && y in patterns && p.root(y) == order[j] && g < |groups|
    ensures j - i == maximum ==> (x in groups[g] <==> y in groups[g])
    ensures j - i < maximum ==> !(x in groups[g] && y in groups[g])
  {
    GroupsByBucket(p, patterns, order, maximum, groups, i, x, g);
    GroupsByBucket(p, patterns, order, maximum, groups, j, y, g);
    Turns(i, j, maximum);
  }

  // ---- Nodes ----

  /** The context and review dimensions of the plan. */
  datatype Dimension = Architecture | Tests | Runtime | Compatibility | Security | Data | Rollback | Operations
    | Scope | Correctness | Performance | Concurrency | Operability

  /** What a node is for; node ids are the task and this key. */
  datatype Key =
    | RepositoryIndex | ScoutFocused | Scout(dimension: Dimension) | PlanCandidate(number: nat) | PlanAdjudicator | TestOracle
    | Implement(number: nat) | Integrate | Checks
    | FinalGuard | FocusedReview(number: nat) | Review(dimension: Dimension) | Supervisor | ReleaseAdvisor

  datatype Node = Node(key: Key, scopes: Group, dependencies: seq<Key>)

  /** Nodes of the review and release families. */
  predicate Judges(k: Key) {
    k.FinalGuard? || k.FocusedReview? || k.Review? || k.Supervisor? || k.ReleaseAdvisor?
  }

  predicate HasKey(nodes: seq<Node>, k: Key) {
    exists i :: 0 <= i < |nodes| && nodes[i].key == k
  }

  predicate DistinctKeys(nodes: seq<Node>) {
    forall i, j :: 0 <= i < j < |nodes| ==> nodes[i].key != nodes[j].key
  }

  predicate DependsOnEarlier(nodes: seq<Node>, i: nat)
    requires i < |nodes|
  {
    forall k :: k in nodes[i].dependencies ==> HasKey(nodes[..i], k)
  }

  /** Distinct ids, and every dependency earlier in the list: the graph has no cycle. */
  predicate Layered(nodes: seq<Node>) {
    DistinctKeys(nodes) && forall i :: 0 <= i < |nodes| ==> DependsOnEarlier(nodes, i)
  }

  /** Node i is `target` or depends on it, through any number of nodes. */
  predicate Reaches(nodes: seq<Node>, i: nat, target: Key)
    requires i < |nodes|
    decreases i
  {
    nodes[i].key == target || exists d :: 0 <= d < i && nodes[d].key in nodes[i].dependencies && Reaches(nodes, d, target)
  }

  lemma {:induction false} PrefixReaches(nodes: seq<Node>, n: nat, i: nat, target: Key)
    requires i < n <= |nodes|
    ensures Reaches(nodes[..n], i, target) <==> Reaches(nodes, i, target)
    decreases i
  {
    forall d | 0 <= d < i ensures Reaches(nodes[..n], d, target) <==> Reaches(nodes, d, target) {
      PrefixReaches(nodes, n, d, target);
    }
  }

  lemma {:induction false} StepReaches(nodes: seq<Node>, i: nat, k: Key, target: Key)
    requires i < |nodes| && DependsOnEarlier(nodes, i) && k in nodes[i].dependencies
    requires forall d :: 0 <= d < i && nodes[d].key == k ==> Reaches(nodes, d, target)
    ensures Reaches(nodes, i, target)
  {
  }

  lemma {:induction false} DirectReaches(nodes: seq<Node>, i: nat, k: Key)
    requires i < |nodes| && DependsOnEarlier(nodes, i) && k in nodes[i].dependencies
    ensures Reaches(nodes, i, k)
  {
  }
}
