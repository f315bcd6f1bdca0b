/** What a gate asks for: the requirements of a transition, by delivery model, risk and domain (bug_lifecycle.py). */
module EvidenceGates {
  import opened Basics
  import opened States

  /** A gate, or a part of one: the trust it asks for, if any, and the evidence types. */
  datatype GatePart = GatePart(minimum: Option<nat>, required: set<string>)

  datatype DomainProfile = DomainProfile(minimum: Option<nat>, checks: set<string>)

  datatype Gate = Gate(base: GatePart, byModel: map<string, GatePart>, byRisk: map<string, GatePart>, byDomain: map<string, set<string>>)

  /** What the requirements of a target depend on besides its gate. */
  datatype Situation = Situation(
    model: string, risk: string, riskClass: string, domains: seq<string>, profiles: map<string, DomainProfile>,
    wideTarget: bool, hotfixKeepsBreadth: bool, merged: bool, packageState: bool, progressive: set<string>)

  datatype Requirements = Requirements(minimum: nat, required: set<string>)

  const DEFAULT_TRUST: nat := 2

  function Max(a: nat, b: nat): nat { if a < b then b else a }

  function Raise(r: Requirements, part: GatePart): Requirements {
    Requirements(if part.minimum.Some? then Max(r.minimum, part.minimum.value) else r.minimum, r.required + part.required)
  }

  function PartOf(parts: map<string, GatePart>, name: string): GatePart {
    if name in parts then parts[name] else GatePart(None, {})
  }

  /** The gate and its delivery model: package states of a package replace the gate, every other model adds to it. */
  function Base(g: Gate, s: Situation): Requirements {
    var base := Requirements(g.base.minimum.Or(Some(DEFAULT_TRUST)).value, g.base.required);
    if s.model !in g.byModel then base
    else if s.model == PACKAGE_OR_PLUGIN && s.packageState then
      Requirements(g.byModel[s.model].minimum.Or(Some(base.minimum)).value, g.byModel[s.model].required)
    else Raise(base, g.byModel[s.model])
  }

  function DomainPart(g: Gate, s: Situation, domain: string): GatePart {
    var profile := if domain in s.profiles then s.profiles[domain] else DomainProfile(None, {});
    GatePart(profile.minimum,
             (if domain in g.byDomain then g.byDomain[domain] else {})
             + (if s.wideTarget || s.hotfixKeepsBreadth then profile.checks else {}))
  }

  function ForDomains(g: Gate, s: Situation, r: Requirements, domains: seq<string>): Requirements {
    if domains == [] then r
    else Raise(ForDomains(g, s, r, domains[..|domains| - 1]), DomainPart(g, s, domains[|domains| - 1]))
  }

  /** _gate_requirements */
  function GateRequirements(g: Gate, s: Situation): Requirements {
    var risky := Raise(Raise(Base(g, s), PartOf(g.byRisk, s.risk)), PartOf(g.byRisk, s.riskClass));
    var r := ForDomains(g, s, risky, s.domains);
    r.(required := r.required + (if s.merged then {"POST_MERGE_CI_PROVEN"} else {}) + s.progressive)
  }

  method ComputeBase(g: Gate, s: Situation) returns (r: Requirements)
    ensures r == Base(g, s)
  {
    r := Requirements(if g.base.minimum.Some? then g.base.minimum.value else DEFAULT_TRUST, g.base.required);
    if s.model in g.byModel {
      var part := g.byModel[s.model];
      if s.model == PACKAGE_OR_PLUGIN && s.packageState {
        r := Requirements(if part.minimum.Some? then part.minimum.value else r.minimum, part.required);
      } else {
        r := Raise(r, part);
      }
    }
  }

  /** The loops of _gate_requirements. */
  method ComputeRequirements(g: Gate, s: Situation) returns (r: Requirements)
    ensures r == GateRequirements(g, s)
  {
    r := ComputeBase(g, s);
    RaiseNothing(r);
    if s.risk in g.byRisk { r := Raise(r, g.byRisk[s.risk]); }
    RaiseNothing(r);
    if s.riskClass in g.byRisk { r := Raise(r, g.byRisk[s.riskClass]); }
    ghost var risky := r;
    for i := 0 to |s.domains|
      invariant r == ForDomains(g, s, risky, s.domains[..i])
    {
      assert s.domains[..i + 1][..i] == s.domains[..i];
      r := Raise(r, DomainPart(g, s, s.domains[i]));
    }
    assert s.domains[..|s.domains|] == s.domains;
    if s.merged { r := r.(required := r.required + {"POST_MERGE_CI_PROVEN"}); }
    r := r.(required := r.required + s.progressive);
  }

  lemma RaiseNothing(r: Requirements)
    ensures Raise(r, GatePart(None, {})) == r
  {
  }

  predicate AsksNoLess(a: Requirements, b: Requirements) { a.minimum <= b.minimum && a.required <= b.required }

  lemma {:induction false} DomainsMonotone(g: Gate, s: Situation, t: Situation, a: Requirements, b: Requirements, domains: seq<string>)
    requires AsksNoLess(a, b) && s.profiles == t.profiles && s.wideTarget == t.wideTarget && s.hotfixKeepsBreadth == t.hotfixKeepsBreadth
    ensures AsksNoLess(ForDomains(g, s, a, domains), ForDomains(g, t, b, domains))
  {
    if domains != [] {
      DomainsMonotone(g, s, t, a, b, domains[..|domains| - 1]);
    }
  }

  lemma {:induction false} DomainsOnlyAdd(g: Gate, s: Situation, r: Requirements, domains: seq<string>, more: seq<string>)
    ensures AsksNoLess(ForDomains(g, s, r, domains), ForDomains(g, s, r, domains + more))
  {
    if more == [] {
      assert domains + more == domains;
    } else {
      var n := |more| - 1;
      DomainsOnlyAdd(g, s, r, domains, more[..n]);
      assert (domains + more)[..|domains + more| - 1] == domains + more[..n];
    }
  }

  /** Adding domains, progressive exposure or a merge never lowers what a gate asks for. */
  lemma MoreIsNeverLess(g: Gate, s: Situation, domains: seq<string>, merged: bool, progressive: set<string>)
    requires s.merged ==> merged
    ensures AsksNoLess(GateRequirements(g, s),
                       GateRequirements(g, s.(domains := s.domains + domains, merged := merged, progressive := s.progressive + progressive)))
  {
    var t := s.(domains := s.domains + domains, merged := merged, progressive := s.progressive + progressive);
    var risky := Raise(Raise(Base(g, s), PartOf(g.byRisk, s.risk)), PartOf(g.byRisk, s.riskClass));
    DomainsOnlyAdd(g, s, risky, s.domains, domains);
    DomainsMonotone(g, s, t, risky, risky, s.domains + domains);
  }

  /** Every delivery model is held to at least the gate itself, except that package delivery may replace the
      gate of its own states by a lighter one. */
  lemma ModelLightensOnlyPackages(g: Gate, s: Situation)
    ensures AsksNoLess(Requirements(g.base.minimum.Or(Some(DEFAULT_TRUST)).value, g.base.required), Base(g, s))
         || (s.model == PACKAGE_OR_PLUGIN && s.packageState && s.model in g.byModel)
  {
  }
}
