/** Which transition policies validate_policy_safety accepts, and what that means for the store (bug_protocol.py). */
module PolicySafety {
  import opened States

  /** `otherFindings` are the validator's errors about risk classes, domains, hotfixes, artifacts and exposure. */
  datatype Policy = Policy(
    states: seq<State>, transitions: map<State, set<State>>,
    lifecycles: map<string, seq<State>>, packageForbidden: set<State>, otherFindings: seq<string>)
  {
    function Exits(s: State): set<State> { if s in transitions then transitions[s] else {} }
  }

  datatype PolicyError = OrderNotExact | MissingEdge(from: State, to: State) | TerminalExit | MissingState(state: State)
    | LifecycleSkip(from: State) | PackageSkip(from: State) | LifecycleNotCanonical(model: string)
    | PackageForbidden | Other(text: string)

  const PACKAGE_STATES: seq<State> := [PackageReleased, ReleaseArtifactVerified, ConsumerValidationPass]

  const DELIVERY_LIFECYCLES: map<string, seq<State>> := map[
    PACKAGE_OR_PLUGIN := COMMON_LIFECYCLE + PACKAGE_STATES + [Closed],
    HOSTED_RUNTIME_SERVICE := CODE_LIFECYCLE,
    HYBRID := COMMON_LIFECYCLE + PACKAGE_STATES + CODE_LIFECYCLE[|COMMON_LIFECYCLE|..]]

  predicate RetainsCodeOrder(p: Policy) {
    && CODE_LIFECYCLE <= p.states
    && (forall i :: 0 <= i < |CODE_LIFECYCLE| - 1 ==> CODE_LIFECYCLE[i + 1] in p.Exits(CODE_LIFECYCLE[i]))
  }

  predicate RetainsPackageEdges(p: Policy) {
    && (forall s :: s in PACKAGE_STATES ==> s in p.states)
    && PackageReleased in p.Exits(CiPass)
    && ReleaseArtifactVerified in p.Exits(PackageReleased)
    && ConsumerValidationPass in p.Exits(ReleaseArtifactVerified)
    && Closed in p.Exits(ConsumerValidationPass)
  }

  /** validate_authoritative_lifecycle_policy reports no error. */
  predicate OrderAccepted(p: Policy) {
    RetainsCodeOrder(p) && p.Exits(Closed) == {} && RetainsPackageEdges(p)
  }

  /** The exits validate_policy_safety expects of the i-th state of the code lifecycle. */
  function ExpectedExits(i: nat): set<State>
    requires i < |CODE_LIFECYCLE| - 1
  {
    var s := CODE_LIFECYCLE[i];
    {CODE_LIFECYCLE[i + 1], Blocked}
    + (if s == IssueClassified then {ResolvedNoCode} else {})
    + (if s == ProductionReleased || s == PostDeployVerified then {RollbackRequired} else {})
    + (if s == CiPass then {PackageReleased} else {})
  }

  function ExpectedPackageExits(i: nat): set<State>
    requires i < |PACKAGE_STATES|
  {
    if i == 0 then {ReleaseArtifactVerified, Blocked}
    else if i == 1 then {ConsumerValidationPass, Blocked}
    else {Closed, StagingPass, Blocked}
  }

  predicate PackageExitsOk(p: Policy, i: nat)
    requires i < |PACKAGE_STATES|
  {
    p.Exits(PACKAGE_STATES[i]) <= ExpectedPackageExits(i) && p.Exits(PACKAGE_STATES[i]) - {Blocked} != {}
  }

  predicate SkipFree(p: Policy) {
    && (forall i :: 0 <= i < |CODE_LIFECYCLE| - 1 ==> p.Exits(CODE_LIFECYCLE[i]) <= ExpectedExits(i))
    && (forall i :: 0 <= i < |PACKAGE_STATES| ==> PackageExitsOk(p, i))
  }

  predicate DeclaresStates(p: Policy) {
    Blocked in p.states && RollbackRequired in p.states && ResolvedNoCode in p.states
  }

  predicate CanonicalDelivery(p: Policy) {
    && (forall m :: m in DELIVERY_LIFECYCLES ==> m in p.lifecycles && p.lifecycles[m] == DELIVERY_LIFECYCLES[m])
    && (forall s :: s in p.packageForbidden ==> s !in DELIVERY_LIFECYCLES[PACKAGE_OR_PLUGIN])
    && {StagingPass, ProductionReleased, PostDeployVerified, RollbackRequired} <= p.packageForbidden
  }

  /** validate_policy_safety reports no error. */
  predicate Safe(p: Policy) {
    && OrderAccepted(p) && DeclaresStates(p) && SkipFree(p) && CanonicalDelivery(p)
    && ResolvedNoCode in p.Exits(IssueClassified) && Closed in p.Exits(RollbackRequired)
    && p.otherFindings == []
  }

  /** validate_authoritative_lifecycle_policy: its loop over the code lifecycle. */
  method ValidateOrder(p: Policy) returns (errors: seq<PolicyError>)
    ensures errors == [] <==> OrderAccepted(p)
  {
    errors := [];
    if !(CODE_LIFECYCLE <= p.states) { errors := errors + [OrderNotExact]; }
    for i := 0 to |CODE_LIFECYCLE| - 1
      invariant errors == [] <==>
        && CODE_LIFECYCLE <= p.states
        && forall k :: 0 <= k < i ==> CODE_LIFECYCLE[k + 1] in p.Exits(CODE_LIFECYCLE[k])
    {
      if CODE_LIFECYCLE[i + 1] !in p.Exits(CODE_LIFECYCLE[i]) {
        errors := errors + [MissingEdge(CODE_LIFECYCLE[i], CODE_LIFECYCLE[i + 1])];
      }
    }
    if p.Exits(Closed) != {} { errors := errors + [TerminalExit]; }
    if !RetainsPackageEdges(p) { errors := errors + [OrderNotExact]; }
  }

  /** The loop over the exits of the code lifecycle. */
  method CheckCodeExits(p: Policy) returns (errors: seq<PolicyError>)
    ensures errors == [] <==> forall k :: 0 <= k < |CODE_LIFECYCLE| - 1 ==> p.Exits(CODE_LIFECYCLE[k]) <= ExpectedExits(k)
  {
    errors := [];
    for i := 0 to |CODE_LIFECYCLE| - 1
      invariant errors == [] <==> forall k :: 0 <= k < i ==> p.Exits(CODE_LIFECYCLE[k]) <= ExpectedExits(k)
    {
      if !(p.Exits(CODE_LIFECYCLE[i]) <= ExpectedExits(i)) {
        errors := errors + [LifecycleSkip(CODE_LIFECYCLE[i])];
      }
    }
  }

  /** The loop over the exits of the package states. */
  method CheckPackageExits(p: Policy) returns (errors: seq<PolicyError>)
    ensures errors == [] <==> forall k :: 0 <= k < |PACKAGE_STATES| ==> PackageExitsOk(p, k)
  {
    errors := [];
    for i := 0 to |PACKAGE_STATES|
      invariant errors == [] <==> forall k :: 0 <= k < i ==> PackageExitsOk(p, k)
    {
      var exits := p.Exits(PACKAGE_STATES[i]);
      var ok := exits <= ExpectedPackageExits(i) && exits - {Blocked} != {};
      assert ok <==> PackageExitsOk(p, i);
      if !ok {
        errors := errors + [PackageSkip(PACKAGE_STATES[i])];
      }
    }
  }

  method ValidateSafety(p: Policy) returns (errors: seq<PolicyError>)
    ensures errors == [] <==> Safe(p)
  {
    errors := ValidateOrder(p);
    if !DeclaresStates(p) { errors := errors + [MissingState(Blocked)]; }
    if p.otherFindings != [] { errors := errors + [Other(p.otherFindings[0])]; }
    ghost var base := errors == [];
    var codeErrors := CheckCodeExits(p);
    var packageErrors := CheckPackageExits(p);
    errors := errors + codeErrors + packageErrors;
    assert errors == [] <==> base && codeErrors == [] && packageErrors == [];
    if ResolvedNoCode !in p.Exits(IssueClassified) { errors := errors + [MissingEdge(IssueClassified, ResolvedNoCode)]; }
    if Closed !in p.Exits(RollbackRequired) { errors := errors + [MissingEdge(RollbackRequired, Closed)]; }
    if !CanonicalDelivery(p) { errors := errors + [PackageForbidden]; }
  }

  lemma ExpectedExitsAreAllowed(i: nat)
    requires i < |CODE_LIFECYCLE| - 1
    ensures ExpectedExits(i) == AllowedTransitions(CODE_LIFECYCLE[i]) + {Blocked}
  {
  }

  lemma CodePosition(s: State) returns (i: nat)
    requires Ordered(s) && !PackageState(s) && s != Closed
    ensures i < |CODE_LIFECYCLE| - 1 && CODE_LIFECYCLE[i] == s
  {
    i := if Order(s) <= Order(CiPass) then Order(s) else Order(s) - 3;
  }

  lemma PackageExitsAreAllowed(i: nat)
    requires i < |PACKAGE_STATES|
    ensures ExpectedPackageExits(i) == AllowedTransitions(PACKAGE_STATES[i]) + {Blocked}
  {
  }

  lemma PackagePosition(s: State) returns (i: nat)
    requires PackageState(s)
    ensures i < |PACKAGE_STATES| && PACKAGE_STATES[i] == s
  {
    i := if s == PackageReleased then 0 else if s == ReleaseArtifactVerified then 1 else 2;
  }

  /** A safe policy lets no ordered state go anywhere the store does not, except into BLOCKED. */
  lemma SafePolicyRefinesStore(p: Policy, s: State)
    requires Safe(p) && Ordered(s)
    ensures p.Exits(s) <= AllowedTransitions(s) + {Blocked}
  {
    assert SkipFree(p) && p.Exits(Closed) == {};
    if PackageState(s) {
      var i := PackagePosition(s);
      assert PackageExitsOk(p, i);
      PackageExitsAreAllowed(i);
    } else if s != Closed {
      var i := CodePosition(s);
      ExpectedExitsAreAllowed(i);
    }
  }

  /** The policy with other exits of RESOLVED_NO_CODE. */
  function WithNoCodeExits(p: Policy, exits: set<State>): Policy { p.(transitions := p.transitions[ResolvedNoCode := exits]) }

  /** The two policies differ at most in the exits of RESOLVED_NO_CODE. */
  ghost predicate SameElsewhere(p: Policy, q: Policy) {
    && q == p.(transitions := q.transitions)
    && forall s: State :: s != ResolvedNoCode ==> q.Exits(s) == p.Exits(s)
  }

  lemma CodeStates(i: nat)
    requires i < |CODE_LIFECYCLE|
    ensures CODE_LIFECYCLE[i] != ResolvedNoCode
  {
  }

  lemma SameCodeOrder(p: Policy, q: Policy)
    requires SameElsewhere(p, q) && RetainsCodeOrder(p)
    ensures RetainsCodeOrder(q)
  {
    forall i | 0 <= i < |CODE_LIFECYCLE| - 1 ensures CODE_LIFECYCLE[i + 1] in q.Exits(CODE_LIFECYCLE[i]) {
      CodeStates(i);
    }
  }

  lemma SameSkipFree(p: Policy, q: Policy)
    requires SameElsewhere(p, q) && SkipFree(p)
    ensures SkipFree(q)
  {
    forall i | 0 <= i < |CODE_LIFECYCLE| - 1 ensures q.Exits(CODE_LIFECYCLE[i]) <= ExpectedExits(i) {
      CodeStates(i);
    }
    forall i | 0 <= i < |PACKAGE_STATES| ensures PackageExitsOk(q, i) {
      assert PackageExitsOk(p, i);
    }
  }

  lemma SameSafety(p: Policy, q: Policy)
    requires SameElsewhere(p, q) && Safe(p)
    ensures Safe(q)
  {
    SameCodeOrder(p, q);
    SameSkipFree(p, q);
    assert p.Exits(Closed) == {} && RetainsPackageEdges(q);
  }

  /** The validator never looks at them: any exits of RESOLVED_NO_CODE leave a policy as safe as it was. */
  lemma NoCodeExitsUnseen(p: Policy, exits: set<State>)
    ensures Safe(WithNoCodeExits(p, exits)) <==> Safe(p)
  {
    var q := WithNoCodeExits(p, exits);
    assert SameElsewhere(p, q) && SameElsewhere(q, p);
    if Safe(p) { SameSafety(p, q); }
    if Safe(q) { SameSafety(q, p); }
  }
}
