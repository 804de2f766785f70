/** The planner: from ACL rows to role bindings (pkg/aclrbac/plan/plan.go). */
module Planner {
  import opened Types
  import opened Normalize
  import opened Rules
  import opened Match
  import opened Patterns
  import opened DenyAnalysis

  datatype Principals = Principals(mappings: map<string, string>, fallbackFail: bool)

  /** The binding id is a hash of the salt and of the binding's content; the model keeps it as an
      uninterpreted function of (principal, role, scope, patterns). */
  datatype Input = Input(
    rows: seq<Row>, rules: seq<Rule>, principals: Principals, scopes: Scope, existing: seq<Binding>,
    bindingId: (string, string, Scope, seq<Pattern>) -> string)

  datatype PlanError = PrincipalUnmapped(principal: string) | ScopeMissing(resourceType: ResourceType)

  datatype MappedPrincipal = MappedPrincipal(resolved: string, passedThrough: bool, looksLikeMtlsDn: bool)

  predicate Contains(s: string, sub: string) {
    exists i | 0 <= i <= |s| :: sub <= s[i..]
  }

  /** The part after the first colon, or the whole text. */
  function AfterColon(p: string): string { AfterColonFrom(p, 0) }

  function AfterColonFrom(p: string, i: nat): string
    requires i <= |p|
    decreases |p| - i
  {
    if i == |p| then p else if p[i] == ':' then p[i + 1..] else AfterColonFrom(p, i + 1)
  }

  predicate LooksLikeMtlsDn(p: string) {
    var body := AfterColon(p);
    Contains(body, "CN=") && (Contains(body, "O=") || Contains(body, "OU=") || Contains(body, "C="))
  }

  function MapPrincipal(source: string, cfg: Principals): Result<MappedPrincipal, PlanError> {
    if source in cfg.mappings then Ok(MappedPrincipal(cfg.mappings[source], false, false))
    else if cfg.fallbackFail then Err(PrincipalUnmapped(source))
    else Ok(MappedPrincipal(source, true, LooksLikeMtlsDn(source)))
  }

  predicate ScopePresent(s: Scope, rt: ResourceType) {
    if rt == Subject then s.schemaRegistryCluster != "" else s.kafkaCluster != ""
  }

  function ApplyScope(s: Scope, rt: ResourceType): Scope {
    if rt == Subject then Scope(s.organization, s.environment, "", s.schemaRegistryCluster, "", "")
    else Scope(s.organization, s.environment, s.kafkaCluster, "", "", "")
  }

  // ---------------------------------------------------------------------------
  // What one group contributes

  datatype Delta = Delta(
    bindings: seq<Binding>, unmapped: seq<Unmapped>, rejected: seq<Rejected>, warnings: seq<Warning>)
  {
    function Then(d: Delta): Delta {
      Delta(bindings + d.bindings, unmapped + d.unmapped, rejected + d.rejected, warnings + d.warnings)
    }
  }

  const NOTHING: Delta := Delta([], [], [], [])

  function KeyPattern(k: Key): Pattern { Pattern(k.resourceType, k.resourceName, k.patternType) }

  function BindingFor(input: Input, g: AclGroup, principal: string, role: string): Binding {
    var scope := ApplyScope(input.scopes, g.key.resourceType);
    var patterns := [KeyPattern(g.key)];
    Binding(input.bindingId(principal, role, scope, patterns), CreateAction, principal, role, scope, patterns, g.sourceIds)
  }

  function RoleClass(input: Input, g: AclGroup, principal: string, role: string): ExistingMatch {
    ExistingClass(BindingFor(input, g, principal, role), input.existing)
  }

  function RoleDelta(input: Input, g: AclGroup, principal: string, role: string): Delta {
    var b := BindingFor(input, g, principal, role);
    match ExistingClass(b, input.existing)
    case Equivalent => NOTHING.(bindings := [b.(action := SkipExists)])
    case SameRoleOtherResources =>
      NOTHING.(unmapped := [Unmapped(g.sourceIds, ConflictingExisting(role))], warnings := [ConflictWarning(g.sourceIds, role)])
    case NoMatch => NOTHING.(bindings := [b])
  }

  /** One contribution per distinct role, in selection order. */
  function RolesDelta(input: Input, g: AclGroup, principal: string, rules: seq<Rule>, seen: set<string>): Delta {
    if rules == [] then NOTHING
    else if rules[0].role in seen then RolesDelta(input, g, principal, rules[1..], seen)
    else RoleDelta(input, g, principal, rules[0].role)
           .Then(RolesDelta(input, g, principal, rules[1..], seen + {rules[0].role}))
  }

  /** Operations no selected rule accounts for; the `All` marker is never reported. */
  function UncoveredOps(g: AclGroup, rules: seq<Rule>): set<Operation> {
    g.operations - {All} - CoveredBy(g, rules)
  }

  predicate HasPrefixedTopicAllow(groups: seq<AclGroup>, principal: string) {
    exists g | g in groups ::
      g.key.principal == principal && g.key.permission == Allow && g.key.resourceType == Topic && g.key.patternType == PREFIXED
  }

  function MtlsWarnings(g: AclGroup, p: MappedPrincipal): seq<Warning> {
    if p.looksLikeMtlsDn then [MtlsDnPassThrough(g.key.principal)] else []
  }

  function LoneCreateWarnings(groups: seq<AclGroup>, g: AclGroup): seq<Warning> {
    if g.key.resourceType == Cluster && |g.operations| == 1 && Create in g.operations
       && !HasPrefixedTopicAllow(groups, g.key.principal)
    then [LoneCreateOnCluster(g.key.principal)] else []
  }

  function CoverageWarnings(g: AclGroup, rules: seq<Rule>): seq<Warning> {
    if UncoveredOps(g, rules) != {} then [PartialRuleCoverage(g.sourceIds, UncoveredOps(g, rules))] else []
  }

  function GroupDelta(input: Input, groups: seq<AclGroup>, g: AclGroup): Result<Delta, PlanError> {
    if g.key.permission == Deny then Ok(NOTHING.(rejected := [Rejected(g.sourceIds)]))
    else if g.key.host != "*" then
      Ok(NOTHING.(unmapped := [Unmapped(g.sourceIds, HostRestricted(g.key.host))],
                  warnings := [HostRestrictedWarning(g.sourceIds, g.key.host)]))
    else match MapPrincipal(g.key.principal, input.principals)
      case Err(e) => Err(e)
      case Ok(p) =>
        var rules := CoveringRules(g, input.rules);
        if rules == [] then
          Ok(Delta([], [Unmapped(g.sourceIds, NoRuleMatch)], [], MtlsWarnings(g, p) + LoneCreateWarnings(groups, g)))
        else if !ScopePresent(input.scopes, g.key.resourceType) then Err(ScopeMissing(g.key.resourceType))
        else Ok(Delta([], [], [], MtlsWarnings(g, p) + CoverageWarnings(g, rules))
                  .Then(RolesDelta(input, g, p.resolved, rules, {})))
  }

  /** The groups in order; the first error ends the plan. */
  function GroupsDelta(input: Input, groups: seq<AclGroup>, gs: seq<AclGroup>): Result<Delta, PlanError> {
    if gs == [] then Ok(NOTHING)
    else match GroupDelta(input, groups, gs[0])
      case Err(e) => Err(e)
      case Ok(d) =>
        match GroupsDelta(input, groups, gs[1..])
        case Err(e) => Err(e)
        case Ok(rest) => Ok(d.Then(rest))
  }

  /** The plan of an input. */
  function Planned(input: Input): Result<Plan, PlanError> {
    var groups := Normalized(input.rows);
    match GroupsDelta(input, groups, groups)
    case Err(e) => Err(e)
    case Ok(d) => Ok(Plan(d.bindings, d.unmapped, d.rejected, d.warnings, DenyEntries(input.rows, AllowEntries(groups))))
  }

  // ---------------------------------------------------------------------------
  // The program

  lemma {:induction false} CoveredByAppend(g: AclGroup, rules: seq<Rule>, r: Rule)
    ensures CoveredBy(g, rules + [r]) == CoveredBy(g, rules) + RuleCoveredOps(g, r)
  {
    hide RuleCoveredOps;
    if rules != [] {
      assert (rules + [r])[1..] == rules[1..] + [r];
      CoveredByAppend(g, rules[1..], r);
    }
  }

  method ComputeUncoveredOps(g: AclGroup, rules: seq<Rule>) returns (out: set<Operation>)
    ensures out == UncoveredOps(g, rules)
  {
    var covered := {};
    for i := 0 to |rules|
      invariant covered == CoveredBy(g, rules[..i])
    {
      var ops := ComputeCoveredOps(g, rules[i]);
      CoveredByAppend(g, rules[..i], rules[i]);
      assert rules[..i] + [rules[i]] == rules[..i + 1];
      covered := covered + ops;
    }
    assert rules[..|rules|] == rules;
    out := {};
    var todo := g.operations;
    while todo != {}
      invariant todo <= g.operations && out == (g.operations - todo) - {All} - covered
    {
      var op :| op in todo;
      todo := todo - {op};
      if op != All && op !in covered {
        out := out + {op};
      }
    }
  }

  method EmitRole(input: Input, g: AclGroup, principal: string, role: string) returns (d: Delta)
    ensures d == RoleDelta(input, g, principal, role)
  {
    var binding := BindingFor(input, g, principal, role);
    var m, _ := ClassifyAgainstExisting(binding, input.existing);
    match m {
      case Equivalent =>
        d := NOTHING.(bindings := [binding.(action := SkipExists)]);
      case SameRoleOtherResources =>
        d := NOTHING.(unmapped := [Unmapped(g.sourceIds, ConflictingExisting(role))], warnings := [ConflictWarning(g.sourceIds, role)]);
      case NoMatch =>
        d := NOTHING.(bindings := [binding]);
    }
  }

  method EmitRoles(input: Input, g: AclGroup, principal: string, rules: seq<Rule>) returns (d: Delta)
    ensures d == RolesDelta(input, g, principal, rules, {})
  {
    hide RoleDelta;
    d := NOTHING;
    ThenNothing(RolesDelta(input, g, principal, rules, {}));
    var seenRole: set<string> := {};
    for i := 0 to |rules|
      invariant d.Then(RolesDelta(input, g, principal, rules[i..], seenRole)) == RolesDelta(input, g, principal, rules, {})
    {
      var role := rules[i].role;
      assert rules[i..][1..] == rules[i + 1..];
      if role !in seenRole {
        ghost var before := d;
        ghost var rest := RolesDelta(input, g, principal, rules[i + 1..], seenRole + {role});
        ThenAssociates(before, RoleDelta(input, g, principal, role), rest);
        seenRole := seenRole + {role};
        var one := EmitRole(input, g, principal, role);
        d := d.Then(one);
      }
    }
    ThenNothing(d);
  }

  lemma ThenAssociates(a: Delta, b: Delta, c: Delta)
    ensures a.Then(b).Then(c) == a.Then(b.Then(c))
  {
  }

  lemma ThenNothing(d: Delta)
    ensures d.Then(NOTHING) == d && NOTHING.Then(d) == d
  {
  }

  /** One turn of the planner's loop. */
  method PlanGroup(input: Input, groups: seq<AclGroup>, g: AclGroup) returns (r: Result<Delta, PlanError>)
    ensures r == GroupDelta(input, groups, g)
  {
    if g.key.permission == Deny {
      return Ok(NOTHING.(rejected := [Rejected(g.sourceIds)]));
    }
    if g.key.host != "*" {
      return Ok(NOTHING.(unmapped := [Unmapped(g.sourceIds, HostRestricted(g.key.host))],
                         warnings := [HostRestrictedWarning(g.sourceIds, g.key.host)]));
    }
    var mapped := MapPrincipal(g.key.principal, input.principals);
    if mapped.Err? { return Err(mapped.error); }
    var p := mapped.value;
    var warns := MtlsWarnings(g, p);
    var rules := FindCoveringRules(g, input.rules);
    if rules == [] {
      return Ok(Delta([], [Unmapped(g.sourceIds, NoRuleMatch)], [], warns + LoneCreateWarnings(groups, g)));
    }
    var missing := ComputeUncoveredOps(g, rules);
    if missing != {} {
      warns := warns + [PartialRuleCoverage(g.sourceIds, missing)];
    }
    if !ScopePresent(input.scopes, g.key.resourceType) {
      return Err(ScopeMissing(g.key.resourceType));
    }
    var roles := EmitRoles(input, g, p.resolved, rules);
    assert warns == MtlsWarnings(g, p) + CoverageWarnings(g, rules);
    r := Ok(Delta([], [], [], warns).Then(roles));
  }

  method Run(input: Input) returns (r: Result<Plan, PlanError>)
    ensures r == Planned(input)
  {
    var groups := NormalizeRows(input.rows);
    var d := NOTHING;
    ThenAll(input, groups, groups, d);
    for i := 0 to |groups|
      invariant Continues(input, groups, groups[i..], d, GroupsDelta(input, groups, groups))
    {
      assert groups[i..][1..] == groups[i + 1..];
      ghost var before := d;
      var one := PlanGroup(input, groups, groups[i]);
      if one.Err? { return Err(one.error); }
      d := d.Then(one.value);
      if GroupsDelta(input, groups, groups[i + 1..]).Ok? {
        ThenAssociates(before, one.value, GroupsDelta(input, groups, groups[i + 1..]).value);
      }
    }
    ThenNothing(d);
    var denies := AnalyzeDenies(groups, input.rows);
    r := Ok(Plan(d.bindings, d.unmapped, d.rejected, d.warnings, denies));
  }

  /** `total` is what results when `done` is already collected and the groups `gs` are still to come. */
  ghost predicate Continues(input: Input, groups: seq<AclGroup>, gs: seq<AclGroup>, done: Delta, total: Result<Delta, PlanError>) {
    total == match GroupsDelta(input, groups, gs)
             case Err(e) => Err(e)
             case Ok(rest) => Ok(done.Then(rest))
  }

  lemma ThenAll(input: Input, groups: seq<AclGroup>, gs: seq<AclGroup>, d: Delta)
    ensures Continues(input, groups, gs, NOTHING, GroupsDelta(input, groups, gs))
  {
    if GroupsDelta(input, groups, gs).Ok? { ThenNothing(GroupsDelta(input, groups, gs).value); }
  }
}
