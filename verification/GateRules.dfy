/** What a gate asks for, part by part: each evidence type by itself, and the trust as the highest any part names. */
module GateRules {
  import opened Basics
  import opened States
  import opened Records
  import opened EvidenceGates
  import opened BugLifecycle

  // ---- A gate in a situation ----

  predicate Listed(parts: map<string, GatePart>, name: string, t: string) { name in parts && t in parts[name].required }

  /** The part for the delivery model stands alone for a package at a package state. */
  predicate Replaced(g: Gate, s: Situation) { s.model in g.byModel && s.model == "PACKAGE_OR_PLUGIN" && s.packageState }

  /** The type is named by the gate, by the delivery model, by the level or the class of the risk, by a domain, by the profile
      of a domain where the checks are wide, by a merge, or by progressive exposure. */
  ghost predicate AsksFor(g: Gate, s: Situation, t: string) {
    || (t in g.base.required && !Replaced(g, s)) || Listed(g.byModel, s.model, t)
    || Listed(g.byRisk, s.risk, t) || Listed(g.byRisk, s.riskClass, t)
    || (exists d :: d in s.domains && DomainAsks(g, s, d, t))
    || (s.merged && t == "POST_MERGE_CI_PROVEN") || t in s.progressive
  }

  predicate DomainAsks(g: Gate, s: Situation, d: string, t: string) {
    || (d in g.byDomain && t in g.byDomain[d])
    || ((s.wideTarget || s.hotfixKeepsBreadth) && d in s.profiles && t in s.profiles[d].checks)
  }

  predicate Names(m: Option<nat>, n: nat) { m.Some? && n <= m.value }

  predicate PartNames(parts: map<string, GatePart>, name: string, n: nat) { name in parts && Names(parts[name].minimum, n) }

  /** Some part asks for at least this trust; the gate itself for 2 where it names none. */
  ghost predicate Trusts(g: Gate, s: Situation, n: nat) {
    || ((Replaced(g, s) ==> g.byModel[s.model].minimum.None?) && n <= (if g.base.minimum.Some? then g.base.minimum.value else 2))
    || PartNames(g.byModel, s.model, n) || PartNames(g.byRisk, s.risk, n) || PartNames(g.byRisk, s.riskClass, n)
    || (exists d :: d in s.domains && d in s.profiles && Names(s.profiles[d].minimum, n))
  }

  lemma BaseIs(g: Gate, s: Situation, t: string, n: nat)
    ensures t in Base(g, s).required <==> (t in g.base.required && !Replaced(g, s)) || Listed(g.byModel, s.model, t)
    ensures n <= Base(g, s).minimum <==>
      || ((Replaced(g, s) ==> g.byModel[s.model].minimum.None?) && n <= (if g.base.minimum.Some? then g.base.minimum.value else 2))
      || PartNames(g.byModel, s.model, n)
  {
  }

  lemma RaiseIs(r: Requirements, part: GatePart, t: string, n: nat)
    ensures t in Raise(r, part).required <==> t in r.required || t in part.required
    ensures n <= Raise(r, part).minimum <==> n <= r.minimum || Names(part.minimum, n)
  {
  }

  lemma PartIs(parts: map<string, GatePart>, name: string, t: string, n: nat)
    ensures t in PartOf(parts, name).required <==> Listed(parts, name, t)
    ensures Names(PartOf(parts, name).minimum, n) <==> PartNames(parts, name, n)
  {
  }

  lemma DomainIs(g: Gate, s: Situation, d: string, t: string, n: nat)
    ensures t in DomainPart(g, s, d).required <==> DomainAsks(g, s, d, t)
    ensures Names(DomainPart(g, s, d).minimum, n) <==> d in s.profiles && Names(s.profiles[d].minimum, n)
  {
  }

  lemma {:induction false} DomainsAre(g: Gate, s: Situation, r: Requirements, domains: seq<string>, t: string, n: nat)
    ensures t in ForDomains(g, s, r, domains).required <==> t in r.required || exists d :: d in domains && DomainAsks(g, s, d, t)
    ensures n <= ForDomains(g, s, r, domains).minimum <==>
      n <= r.minimum || exists d :: d in domains && d in s.profiles && Names(s.profiles[d].minimum, n)
  {
    if domains != [] {
      var m := |domains| - 1;
      assert domains == domains[..m] + [domains[m]];
      DomainsAre(g, s, r, domains[..m], t, n);
      RaiseIs(ForDomains(g, s, r, domains[..m]), DomainPart(g, s, domains[m]), t, n);
      DomainIs(g, s, domains[m], t, n);
    }
  }

  /** _gate_requirements: a type is required exactly if some part asks for it, and the trust is the highest that any asks. */
  lemma RequiredIff(g: Gate, s: Situation, t: string, n: nat)
    ensures t in GateRequirements(g, s).required <==> AsksFor(g, s, t)
    ensures n <= GateRequirements(g, s).minimum <==> Trusts(g, s, n)
  {
    var base := Base(g, s);
    var once := Raise(base, PartOf(g.byRisk, s.risk));
    var risky := Raise(once, PartOf(g.byRisk, s.riskClass));
    BaseIs(g, s, t, n);
    PartIs(g.byRisk, s.risk, t, n);
    RaiseIs(base, PartOf(g.byRisk, s.risk), t, n);
    PartIs(g.byRisk, s.riskClass, t, n);
    RaiseIs(once, PartOf(g.byRisk, s.riskClass), t, n);
    DomainsAre(g, s, risky, s.domains, t, n);
  }

  // ---- The situation of a record ----

  /** The names under which a gate lists the risk of a record. */
  predicate LevelNamed(l: Option<RiskLevel>, name: string) {
    match l
    case None => name == ""
    case Some(R0) => name == "R0"
    case Some(R1) => name == "R1"
    case Some(R2) => name == "R2"
    case Some(R3) => name == "R3"
    case Some(R4) => name == "R4"
    case Some(OtherRisk(t)) => name == t
  }

  predicate ClassNamed(c: RiskClass, name: string) {
    match c
    case Low => name == "LOW"
    case Medium => name == "MEDIUM"
    case High => name == "HIGH"
    case Critical => name == "CRITICAL"
    case OtherClass(t) => name == t
  }

  /** What a record and a target say to a gate: the checks of the profiles are wide at four states of the release lane and two
      of the validation, and for hotfixes that keep their breadth; a merge counts on both lanes and at the close; and
      exposure is progressive for a high or critical case that asks for release. */
  predicate Situated(p: GatePolicy, r: Record, target: State, s: Situation) {
    var class_ := KnownClass(r.risk);
    && s.model == (if !Blank(Lookup(r.subject.material, DeliveryModel)) then r.subject.material[DeliveryModel] else "HOSTED_RUNTIME_SERVICE")
    && LevelNamed(r.risk.level, s.risk) && ClassNamed(class_, s.riskClass)
    && s.domains == (if r.domains.Some? then r.domains.value else []) && s.profiles == p.profiles
    && (s.wideTarget <==> target in {TargetedValidationPass, RegressionValidationPass, StagingPass, ReadyForOwnerRelease,
                                     ProductionReleased, PostDeployVerified})
    && (s.hotfixKeepsBreadth <==> "mode" in r.other && r.other["mode"] == "HOTFIX" && p.keepsBreadth)
    && (s.merged <==> (!Blank(Lookup(r.subject.material, MergedMain))
                       && target in {PackageReleased, ReleaseArtifactVerified, ConsumerValidationPass, StagingPass, ReadyForOwnerRelease,
                                     ProductionReleased, PostDeployVerified, Closed}))
    && (s.packageState <==> target in {PackageReleased, ReleaseArtifactVerified, ConsumerValidationPass, Closed})
    && s.progressive == (if target == ReadyForOwnerRelease && class_ in {High, Critical} && class_ in p.progressive
                         then p.progressive[class_] else {})
  }

  lemma TargetsAre(target: State)
    ensures WideTarget(target) <==> target in {TargetedValidationPass, RegressionValidationPass, StagingPass, ReadyForOwnerRelease,
                                               ProductionReleased, PostDeployVerified}
    ensures RuntimeState(target) || PackageState(target) || target == Closed <==>
      target in {PackageReleased, ReleaseArtifactVerified, ConsumerValidationPass, StagingPass, ReadyForOwnerRelease,
                 ProductionReleased, PostDeployVerified, Closed}
    ensures PackageState(target) || target == Closed <==> target in {PackageReleased, ReleaseArtifactVerified, ConsumerValidationPass, Closed}
  {
  }

  lemma RecordSituated(p: GatePolicy, r: Record, target: State)
    ensures Situated(p, r, target, SituationOf(p, r, target))
  {
    TargetsAre(target);
  }

  /** An evaluation asks for an evidence type exactly if some part of the gate of its target asks for it in the situation of
      the record; a target without a gate is asked for trust 2 and what its situation adds. */
  lemma EvaluationAsksFor(ctx: Context, r: Record, target: State, t: string, n: nat)
    ensures var g := if target in ctx.gates.policy.gates then ctx.gates.policy.gates[target] else Gate(GatePart(None, {}), map[], map[], map[]);
      var s := SituationOf(ctx.gates.policy, r, target);
      && Situated(ctx.gates.policy, r, target, s)
      && (t in Asked(ctx, r, target).required <==> AsksFor(g, s, t)) && (n <= Asked(ctx, r, target).minimum <==> Trusts(g, s, n))
  {
    RecordSituated(ctx.gates.policy, r, target);
    RequiredIff(GateOf(ctx.gates.policy.gates, target), SituationOf(ctx.gates.policy, r, target), t, n);
  }
}
