/** What a successful plan means: access is preserved, no row is lost, order is irrelevant. */
module Translation {
  import opened Ordering
  import opened Types
  import opened Kafka
  import opened Normalize
  import opened Authorizer
  import opened Rules
  import opened Match
  import opened Patterns
  import opened DenyAnalysis
  import opened Planner

  /** `d` holds exactly what the groups `gs` contribute. */
  ghost predicate Collects(input: Input, groups: seq<AclGroup>, gs: seq<AclGroup>, d: Delta) {
    && (forall g :: g in gs ==> GroupDelta(input, groups, g).Ok? && Within(GroupDelta(input, groups, g).value, d))
    && (forall b :: b in d.bindings ==> exists g :: g in gs && Gives(input, groups, g, b))
    && (forall u :: u in d.unmapped ==> exists g :: g in gs && Leaves(input, groups, g, u))
    && (forall x :: x in d.rejected ==> exists g :: g in gs && Rejects(input, groups, g, x))
    && (forall w :: w in d.warnings ==> exists g :: g in gs && Warns(input, groups, g, w))
  }

  ghost predicate Within(a: Delta, d: Delta) {
    && (forall x :: x in a.bindings ==> x in d.bindings)
    && (forall x :: x in a.unmapped ==> x in d.unmapped)
    && (forall x :: x in a.rejected ==> x in d.rejected)
    && (forall x :: x in a.warnings ==> x in d.warnings)
  }

  ghost predicate Gives(input: Input, groups: seq<AclGroup>, g: AclGroup, b: Binding) {
    var r := GroupDelta(input, groups, g);
    r.Ok? && b in r.value.bindings
  }

  ghost predicate Leaves(input: Input, groups: seq<AclGroup>, g: AclGroup, u: Unmapped) {
    var r := GroupDelta(input, groups, g);
    r.Ok? && u in r.value.unmapped
  }

  ghost predicate Rejects(input: Input, groups: seq<AclGroup>, g: AclGroup, x: Rejected) {
    var r := GroupDelta(input, groups, g);
    r.Ok? && x in r.value.rejected
  }

  ghost predicate Warns(input: Input, groups: seq<AclGroup>, g: AclGroup, w: Warning) {
    var r := GroupDelta(input, groups, g);
    r.Ok? && w in r.value.warnings
  }

  lemma {:induction false} GroupsCollect(input: Input, groups: seq<AclGroup>, gs: seq<AclGroup>)
    requires GroupsDelta(input, groups, gs).Ok?
    ensures Collects(input, groups, gs, GroupsDelta(input, groups, gs).value)
  {
    if gs != [] {
      GroupsCollect(input, groups, gs[1..]);
      assert gs == [gs[0]] + gs[1..];
      var a, rest := GroupDelta(input, groups, gs[0]).value, GroupsDelta(input, groups, gs[1..]).value;
      assert GroupsDelta(input, groups, gs).value == a.Then(rest);
      hide GroupDelta, GroupsDelta;
      CollectsOneMore(input, groups, gs[0], gs[1..], a, rest);
    }
  }

  lemma CollectsOneMore(input: Input, groups: seq<AclGroup>, g: AclGroup, gs: seq<AclGroup>, a: Delta, rest: Delta)
    requires GroupDelta(input, groups, g) == Ok(a) && Collects(input, groups, gs, rest)
    ensures Collects(input, groups, [g] + gs, a.Then(rest))
  {
    hide GroupDelta;
    var d := a.Then(rest);
    forall b | b in d.bindings ensures exists g' :: g' in [g] + gs && Gives(input, groups, g', b) {
      if b in a.bindings { assert Gives(input, groups, g, b); }
    }
    forall u | u in d.unmapped ensures exists g' :: g' in [g] + gs && Leaves(input, groups, g', u) {
      if u in a.unmapped { assert Leaves(input, groups, g, u); }
    }
    forall x | x in d.rejected ensures exists g' :: g' in [g] + gs && Rejects(input, groups, g', x) {
      if x in a.rejected { assert Rejects(input, groups, g, x); }
    }
    forall w | w in d.warnings ensures exists g' :: g' in [g] + gs && Warns(input, groups, g', w) {
      if w in a.warnings { assert Warns(input, groups, g, w); }
    }
    forall g' | g' in [g] + gs
      ensures GroupDelta(input, groups, g').Ok? && Within(GroupDelta(input, groups, g').value, d) {
      assert g' == g || g' in gs;
    }
  }

  lemma WithinTransitive(a: Delta, b: Delta, c: Delta)
    requires Within(a, b) && Within(b, c)
    ensures Within(a, c)
  {
  }

  /** The shape of one role's contribution. */
  lemma RoleShape(input: Input, g: AclGroup, p: string, role: string)
    ensures forall b :: b in RoleDelta(input, g, p, role).bindings ==>
              && b.(action := CreateAction) == BindingFor(input, g, p, role) && RoleClass(input, g, p, role) != SameRoleOtherResources
              && (b.action == SkipExists <==> RoleClass(input, g, p, role) == Equivalent)
    ensures forall u :: u in RoleDelta(input, g, p, role).unmapped ==>
              u == Unmapped(g.sourceIds, ConflictingExisting(role)) && RoleClass(input, g, p, role) == SameRoleOtherResources
    ensures forall w :: w in RoleDelta(input, g, p, role).warnings ==>
              w == ConflictWarning(g.sourceIds, role) && RoleClass(input, g, p, role) == SameRoleOtherResources
  {
    hide ExistingClass, ApplyScope;
  }

  /** Where a selected role ends up: blocked, or bound for the group's principal, pattern and ids. */
  lemma RolePlaced(input: Input, g: AclGroup, p: string, role: string, d: Delta, all: Delta) returns (b: Binding)
    requires Within(RoleDelta(input, g, p, role), d) && Within(d, all)
    ensures b == BindingFor(input, g, p, role).(action := if RoleClass(input, g, p, role) == Equivalent then SkipExists else CreateAction)
    ensures b.principal == p && b.role == role && b.patterns == [KeyPattern(g.key)] && b.sourceIds == g.sourceIds
    ensures if RoleClass(input, g, p, role) == SameRoleOtherResources
            then Unmapped(g.sourceIds, ConflictingExisting(role)) in all.unmapped && ConflictWarning(g.sourceIds, role) in all.warnings
            else b in all.bindings
  {
    hide ExistingClass, ApplyScope;
    var one := RoleDelta(input, g, p, role);
    b := BindingFor(input, g, p, role);
    if RoleClass(input, g, p, role) == SameRoleOtherResources {
      assert one.unmapped[0] in one.unmapped && one.warnings[0] in one.warnings;
    } else {
      b := one.bindings[0];
      assert b in one.bindings;
    }
  }

  /** The parts of a convertible group's contribution. */
  lemma ConvertibleParts(input: Input, groups: seq<AclGroup>, g: AclGroup) returns (p: string, roles: Delta)
    requires Convertible(g.key) && GroupDelta(input, groups, g).Ok?
    ensures var m := MapPrincipal(g.key.principal, input.principals);
            m.Ok? && p == m.value.resolved && roles == RolesDelta(input, g, p, CoveringRules(g, input.rules), {})
    ensures var d := GroupDelta(input, groups, g).value;
            var rules := CoveringRules(g, input.rules);
            && d.rejected == [] == roles.rejected && d.bindings == roles.bindings && Within(roles, d)
            && d.unmapped == (if rules == [] then [Unmapped(g.sourceIds, NoRuleMatch)] else roles.unmapped)
            && (rules != [] && UncoveredOps(g, rules) != {} ==> PartialRuleCoverage(g.sourceIds, UncoveredOps(g, rules)) in d.warnings)
  {
    hide CoveringRules, MapPrincipal, UncoveredOps, MtlsWarnings, LoneCreateWarnings;
    var rules := CoveringRules(g, input.rules);
    p := MapPrincipal(g.key.principal, input.principals).value.resolved;
    roles := RolesDelta(input, g, p, rules, {});
    RolesCollect(input, g, p, rules, {});
    hide RolesDelta;
    if rules != [] && UncoveredOps(g, rules) != {} {
      assert PartialRuleCoverage(g.sourceIds, UncoveredOps(g, rules)) in CoverageWarnings(g, rules);
    }
  }

  /** The roles of the selected rules contribute one by one. */
  lemma {:induction false} RolesCollect(input: Input, g: AclGroup, p: string, rules: seq<Rule>, seen: set<string>)
    ensures var d := RolesDelta(input, g, p, rules, seen);
            && (forall r :: r in rules && r.role !in seen ==> Within(RoleDelta(input, g, p, r.role), d))
            && (forall b :: b in d.bindings ==> exists r :: r in rules && b in RoleDelta(input, g, p, r.role).bindings)
            && (forall u :: u in d.unmapped ==> exists r :: r in rules && u in RoleDelta(input, g, p, r.role).unmapped)
            && (forall w :: w in d.warnings ==> exists r :: r in rules && w in RoleDelta(input, g, p, r.role).warnings)
            && d.rejected == []
  {
    if rules != [] {
      assert rules == [rules[0]] + rules[1..];
      var role := rules[0].role;
      if role in seen {
        RolesCollect(input, g, p, rules[1..], seen);
      } else {
        RolesCollect(input, g, p, rules[1..], seen + {role});
        assert RoleDelta(input, g, p, role).rejected == [];
        hide RoleDelta;
        var a, rest := RoleDelta(input, g, p, role), RolesDelta(input, g, p, rules[1..], seen + {role});
        assert RolesDelta(input, g, p, rules, seen) == a.Then(rest);
        forall r | r in rules && r.role !in seen ensures Within(RoleDelta(input, g, p, r.role), a.Then(rest)) {
          if r.role != role { assert r in rules[1..]; }
        }
      }
    }
  }

  /** The normalised group of a key. */
  function NGroup(input: Input, k: Key): (g: AclGroup)
    ensures g.key == k && g.sourceIds == GroupOf(input.rows, k).sourceIds
  {
    NormalizedGroup(GroupOf(input.rows, k))
  }

  predicate Convertible(k: Key) { k.permission == Allow && k.host == "*" }

  /** The contribution of a key's group is part of a successful plan. */
  lemma GroupInPlan(input: Input, k: Key) returns (d: Delta, all: Delta)
    requires Planned(input).Ok? && k in KeySet(input.rows)
    ensures GroupDelta(input, Normalized(input.rows), NGroup(input, k)) == Ok(d)
    ensures Within(d, all)
    ensures var p := Planned(input).value; all == Delta(p.bindings, p.unmapped, p.rejected, p.warnings)
  {
    var groups := Normalized(input.rows);
    NormalizedMembers(input.rows);
    hide GroupDelta, Normalized, NormalizedGroup, GroupOf;
    GroupsCollect(input, groups, groups);
    assert NGroup(input, k) in groups;
    all := GroupsDelta(input, groups, groups).value;
    d := GroupDelta(input, groups, NGroup(input, k)).value;
  }

  /** Every entry of a successful plan comes from the group of some key. */
  lemma PlanFromGroups(input: Input)
    requires Planned(input).Ok?
    ensures var p := Planned(input).value; var groups := Normalized(input.rows);
            && (forall b :: b in p.bindings ==> exists k :: k in KeySet(input.rows) && Gives(input, groups, NGroup(input, k), b))
            && (forall u :: u in p.unmapped ==> exists k :: k in KeySet(input.rows) && Leaves(input, groups, NGroup(input, k), u))
            && (forall x :: x in p.rejected ==> exists k :: k in KeySet(input.rows) && Rejects(input, groups, NGroup(input, k), x))
            && (forall w :: w in p.warnings ==> exists k :: k in KeySet(input.rows) && Warns(input, groups, NGroup(input, k), w))
  {
    var groups := Normalized(input.rows);
    NormalizedMembers(input.rows);
    hide GroupDelta, Normalized, NormalizedGroup, GroupOf;
    GroupsCollect(input, groups, groups);
    var p := Planned(input).value;
    forall b | b in p.bindings ensures exists k :: k in KeySet(input.rows) && Gives(input, groups, NGroup(input, k), b) {
      var g :| g in groups && Gives(input, groups, g, b);
      assert g == NGroup(input, g.key);
    }
    forall u | u in p.unmapped ensures exists k :: k in KeySet(input.rows) && Leaves(input, groups, NGroup(input, k), u) {
      var g :| g in groups && Leaves(input, groups, g, u);
      assert g == NGroup(input, g.key);
    }
    forall x | x in p.rejected ensures exists k :: k in KeySet(input.rows) && Rejects(input, groups, NGroup(input, k), x) {
      var g :| g in groups && Rejects(input, groups, g, x);
      assert g == NGroup(input, g.key);
    }
    forall w | w in p.warnings ensures exists k :: k in KeySet(input.rows) && Warns(input, groups, NGroup(input, k), w) {
      var g :| g in groups && Warns(input, groups, g, w);
      assert g == NGroup(input, g.key);
    }
  }

  // ---------------------------------------------------------------------------
  // Access is preserved

  /** What listing an operation in a rule accounts for: itself, what it implies and, for `All`, everything. */
  predicate Lists(listed: Operation, op: Operation) {
    listed == All || op == listed || Implies(listed, op)
  }

  /** What a role grants is known only from the rules: at least what a rule that names it accounts for;
      rules for DENY groups say nothing. The hypothesis is stated for one operation, the one asked about.
      `grants(role, type, operation)`. */
  ghost predicate RolesGrantTheirRules(grants: (string, ResourceType, Operation) -> bool, rules: seq<Rule>, op: Operation) {
    forall r, listed :: r in rules && r.when.permission == Allow && listed in r.when.operations && Lists(listed, op)
      ==> grants(r.role, r.when.resourceType, op)
  }

  lemma {:induction false} CoveredMeansListed(g: AclGroup, ops: seq<Operation>, op: Operation)
    requires op in CoveredFrom(g, ops)
    ensures exists listed :: listed in ops && Lists(listed, op)
  {
    assert ops == [ops[0]] + ops[1..];
    assert ops[0] in ops;
    TablesAreKafkas(Topic, ops[0], op);
    if ops[0] != All && op != ops[0] && op !in ImpliedOps(ops[0]) {
      CoveredMeansListed(g, ops[1..], op);
      var listed :| listed in ops[1..] && Lists(listed, op);
      assert listed in ops;
    }
  }

  /** The fate of one operation a row authorises. */
  ghost predicate Granted(p: Plan, grants: (string, ResourceType, Operation) -> bool, principal: string, r: Row, op: Operation) {
    exists b :: b in p.bindings && b.principal == principal && b.patterns == [PatternOf(r)] && r.id in b.sourceIds
                && grants(b.role, r.resourceType, op)
  }

  ghost predicate Warned(p: Plan, r: Row, op: Operation) {
    exists w :: w in p.warnings && w.PartialRuleCoverage? && r.id in w.sourceIds && op in w.missing
  }

  ghost predicate Blocked(p: Plan, grants: (string, ResourceType, Operation) -> bool, r: Row, op: Operation) {
    exists u :: u in p.unmapped && r.id in u.sourceIds
                && (u.reason == NoRuleMatch || (u.reason.ConflictingExisting? && grants(u.reason.role, r.resourceType, op)))
  }

  /** A rule that covers an operation of a group grants it through its role. */
  lemma RuleGrants(g: AclGroup, rule: Rule, rules: seq<Rule>, op: Operation, grants: (string, ResourceType, Operation) -> bool)
    requires RolesGrantTheirRules(grants, rules, op) && rule in rules && rule.when.permission == Allow
    requires op in RuleCoveredOps(g, rule)
    ensures grants(rule.role, rule.when.resourceType, op)
  {
    CoveredMeansListed(g, rule.when.operations, op);
    hide Lists, CoveredFrom;
    var listed :| listed in rule.when.operations && Lists(listed, op);
  }

  lemma RuleFate(input: Input, g: AclGroup, r: Row, rule: Rule, pr: string, op: Operation,
                 grants: (string, ResourceType, Operation) -> bool, d: Delta, all: Delta, p: Plan)
    requires g.key == KeyOf(r) && r.id in g.sourceIds && grants(rule.role, r.resourceType, op)
    requires Within(RoleDelta(input, g, pr, rule.role), d) && Within(d, all)
    requires all == Delta(p.bindings, p.unmapped, p.rejected, p.warnings)
    ensures Granted(p, grants, pr, r, op) || Blocked(p, grants, r, op)
  {
  }

  /** Meaning is preserved: for every request an Allow row with host `*` authorises, a planned binding
      for the mapped principal on exactly the source pattern grants the operation, or the operation is
      warned about as uncovered, or the row is in `unmapped` because no rule matches or because an
      existing binding blocks a role that grants the operation. */
  lemma TranslationPreservesMeaning(
      input: Input, r: Row, q: Request, grants: (string, ResourceType, Operation) -> bool)
    requires Planned(input).Ok? && r in input.rows
    requires r.permission == Allow && r.host == "*" && KnownPatternType(r.patternType)
    requires Matches(r, q)
    requires RolesGrantTheirRules(grants, input.rules, q.operation)
    ensures var mapped := MapPrincipal(r.principal, input.principals);
            var p := Planned(input).value;
            mapped.Ok? &&
            (Granted(p, grants, mapped.value.resolved, r, q.operation) || Warned(p, r, q.operation) || Blocked(p, grants, r, q.operation))
  {
    var k, op := KeyOf(r), q.operation;
    var g, groups := NGroup(input, k), Normalized(input.rows);
    RowInItsGroup(input.rows, r);
    NormalizedIsWhatRowsGrant(input.rows, k, op);
    assert op in g.operations && r.id in g.sourceIds && op != All;
    hide NormalizedGroup, GroupOf, Normalized, Planned, MapPrincipal, GroupDelta, CoveringRules, NGroup, RoleDelta;
    hide MatchesRule, RuleCoveredOps, Matches, Authorizer.PrincipalCovers, RolesDelta;
    var d, all := GroupInPlan(input, k);
    var p := Planned(input).value;
    var rules := CoveringRules(g, input.rules);
    var pr, roles := ConvertibleParts(input, groups, g);
    if rules == [] {
      assert d.unmapped[0] in d.unmapped && d.unmapped[0] in p.unmapped && r.id in d.unmapped[0].sourceIds;
    } else if op !in CoveredBy(g, rules) {
      assert op in UncoveredOps(g, rules);
    } else {
      CoveredByMember(g, rules, op);
      var rule :| rule in rules && op in RuleCoveredOps(g, rule);
      SelectedRulesMatch(g, input.rules);
      RolesCollect(input, g, pr, rules, {});
      WithinTransitive(RoleDelta(input, g, pr, rule.role), roles, d);
      RuleGrants(g, rule, input.rules, op, grants);
      RuleFate(input, g, r, rule, pr, op, grants, d, all, p);
    }
  }

  /** The sources of a binding. */
  lemma BindingOrigin(input: Input, b: Binding) returns (k: Key)
    requires Planned(input).Ok? && b in Planned(input).value.bindings
    ensures k in KeySet(input.rows) && Convertible(k)
    ensures var m := MapPrincipal(k.principal, input.principals); m.Ok? && b.principal == m.value.resolved
    ensures b.patterns == [KeyPattern(k)] && b.sourceIds == GroupOf(input.rows, k).sourceIds
    ensures b.scope == ApplyScope(input.scopes, k.resourceType)
    ensures b.id == input.bindingId(b.principal, b.role, b.scope, b.patterns)
    ensures exists rule :: rule in CoveringRules(NGroup(input, k), input.rules) && rule.role == b.role
                           && RoleClass(input, NGroup(input, k), b.principal, b.role) != SameRoleOtherResources
                           && (b.action == SkipExists <==> RoleClass(input, NGroup(input, k), b.principal, b.role) == Equivalent)
  {
    hide Planned, Normalized, NGroup, KeySet, GroupOf, MapPrincipal, CoveringRules, RoleClass, ApplyScope, GroupDelta;
    k := BindingKey(input, b);
    var g := NGroup(input, k);
    OnlyConvertibleBind(input, Normalized(input.rows), g);
    var _ := ConvertibleBinds(input, Normalized(input.rows), g, b);
  }

  lemma BindingKey(input: Input, b: Binding) returns (k: Key)
    requires Planned(input).Ok? && b in Planned(input).value.bindings
    ensures k in KeySet(input.rows) && Gives(input, Normalized(input.rows), NGroup(input, k), b)
  {
    hide Planned, Normalized, NGroup, KeySet, Gives;
    PlanFromGroups(input);
    k :| k in KeySet(input.rows) && Gives(input, Normalized(input.rows), NGroup(input, k), b);
  }

  lemma ConvertibleBinds(input: Input, groups: seq<AclGroup>, g: AclGroup, b: Binding) returns (rule: Rule)
    requires Convertible(g.key) && Gives(input, groups, g, b)
    ensures var m := MapPrincipal(g.key.principal, input.principals);
            && m.Ok? && b.(action := CreateAction) == BindingFor(input, g, m.value.resolved, rule.role)
    ensures rule in CoveringRules(g, input.rules) && rule.role == b.role
    ensures RoleClass(input, g, b.principal, b.role) != SameRoleOtherResources
    ensures b.action == SkipExists <==> RoleClass(input, g, b.principal, b.role) == Equivalent
  {
    hide MapPrincipal, CoveringRules, RolesDelta, RoleDelta, RoleClass, GroupDelta, ApplyScope;
    var p, roles := ConvertibleParts(input, groups, g);
    RolesCollect(input, g, p, CoveringRules(g, input.rules), {});
    rule :| rule in CoveringRules(g, input.rules) && b in RoleDelta(input, g, p, rule.role).bindings;
    RoleShape(input, g, p, rule.role);
  }

  lemma OnlyConvertibleBind(input: Input, groups: seq<AclGroup>, g: AclGroup)
    ensures var d := GroupDelta(input, groups, g);
            && (g.key.permission == Deny ==> d == Ok(NOTHING.(rejected := [Rejected(g.sourceIds)])))
            && (g.key.permission == Allow && g.key.host != "*" ==>
                  d.Ok? && d.value.bindings == [] && d.value.rejected == [] && d.value.unmapped == [Unmapped(g.sourceIds, HostRestricted(g.key.host))])
  {
    hide CoveringRules, MapPrincipal, RolesDelta;
  }

  lemma IdNamesRow(rows: seq<Row>, k: Key, r: Row)
    requires DistinctIds(rows) && r in rows && r.id in GroupOf(rows, k).sourceIds
    ensures KeyOf(r) == k
  {
    MemberOfPermutation(IdsOf(rows, k), Sort(IntLess, IdsOf(rows, k)));
    IdsOfMembers(rows, k);
    var s :| s in rows && KeyOf(s) == k && s.id == r.id;
    SameIdSameRow(rows, r, s);
  }

  /** Nothing is widened: each source row of a binding is an Allow row with host `*`, its principal
      maps to the binding's, and its resource pattern is the binding's only one. */
  lemma BindingsNeverWiden(input: Input, b: Binding, r: Row)
    requires Planned(input).Ok? && DistinctIds(input.rows)
    requires b in Planned(input).value.bindings && r in input.rows && r.id in b.sourceIds
    ensures r.permission == Allow && r.host == "*" && b.patterns == [PatternOf(r)]
    ensures MapPrincipal(r.principal, input.principals).Ok?
    ensures MapPrincipal(r.principal, input.principals).value.resolved == b.principal
  {
    var k := BindingOrigin(input, b);
    IdNamesRow(input.rows, k, r);
  }

  // ---------------------------------------------------------------------------
  // No row is lost

  ghost predicate Bound(p: Plan, id: int) { exists b :: b in p.bindings && id in b.sourceIds }

  ghost predicate LeftUnmapped(p: Plan, id: int) { exists u :: u in p.unmapped && id in u.sourceIds }

  predicate InRejected(p: Plan, id: int) { exists x | x in p.rejected :: id in x.sourceIds }

  /** Some selected role of the group is blocked by an existing binding and another is not. */
  ghost predicate Split(input: Input, k: Key) {
    var m := MapPrincipal(k.principal, input.principals);
    var g := NGroup(input, k);
    && Convertible(k) && m.Ok?
    && (exists r :: r in CoveringRules(g, input.rules) && RoleClass(input, g, m.value.resolved, r.role) == SameRoleOtherResources)
    && (exists r :: r in CoveringRules(g, input.rules) && RoleClass(input, g, m.value.resolved, r.role) != SameRoleOtherResources)
  }

  /** Every input id ends up somewhere. */
  lemma NoRowIsLost(input: Input, r: Row)
    requires Planned(input).Ok? && r in input.rows
    ensures var p := Planned(input).value; Bound(p, r.id) || LeftUnmapped(p, r.id) || InRejected(p, r.id)
    ensures r.permission == Deny ==> InRejected(Planned(input).value, r.id)
    ensures r.permission == Allow && r.host != "*" ==> LeftUnmapped(Planned(input).value, r.id)
  {
    var k := KeyOf(r);
    RowInItsGroup(input.rows, r);
    var g, p := NGroup(input, k), Planned(input).value;
    assert r.id in g.sourceIds;
    hide NormalizedGroup, GroupOf, Normalized, Planned, MapPrincipal, CoveringRules, NGroup, RolesDelta, GroupDelta;
    var d, all := GroupInPlan(input, k);
    var rules := CoveringRules(g, input.rules);
    OnlyConvertibleBind(input, Normalized(input.rows), g);
    if k.permission == Deny {
      assert d.rejected[0] in d.rejected && d.rejected[0] in p.rejected;
    } else if k.host != "*" {
      assert d.unmapped[0] in d.unmapped && d.unmapped[0] in p.unmapped;
    } else if rules == [] {
      var _, _ := ConvertibleParts(input, Normalized(input.rows), g);
      assert d.unmapped[0] in d.unmapped && d.unmapped[0] in p.unmapped;
    } else {
      var pr, roles := ConvertibleParts(input, Normalized(input.rows), g);
      RolesCollect(input, g, pr, rules, {});
      hide RoleDelta, RoleClass;
      assert rules[0] in rules;
      WithinTransitive(RoleDelta(input, g, pr, rules[0].role), roles, d);
      var _ := RolePlaced(input, g, pr, rules[0].role, d, all);
    }
  }

  lemma UnmappedKey(input: Input, u: Unmapped) returns (k: Key)
    requires Planned(input).Ok? && u in Planned(input).value.unmapped
    ensures k in KeySet(input.rows) && Leaves(input, Normalized(input.rows), NGroup(input, k), u)
  {
    hide Planned, Normalized, NGroup, KeySet, Leaves;
    PlanFromGroups(input);
    k :| k in KeySet(input.rows) && Leaves(input, Normalized(input.rows), NGroup(input, k), u);
  }

  lemma UnmappedOrigin(input: Input, u: Unmapped) returns (k: Key)
    requires Planned(input).Ok? && u in Planned(input).value.unmapped
    ensures k in KeySet(input.rows) && k.permission == Allow && u.sourceIds == GroupOf(input.rows, k).sourceIds
    ensures match u.reason
            case HostRestricted(h) => k.host == h != "*"
            case NoRuleMatch => k.host == "*" && CoveringRules(NGroup(input, k), input.rules) == []
            case ConflictingExisting(role) =>
              var m := MapPrincipal(k.principal, input.principals);
              k.host == "*" && m.Ok? && RoleClass(input, NGroup(input, k), m.value.resolved, role) == SameRoleOtherResources &&
              exists rule :: rule in CoveringRules(NGroup(input, k), input.rules) && rule.role == role
  {
    var groups := Normalized(input.rows);
    hide Planned, Normalized, GroupDelta, NGroup, KeySet, GroupOf, MapPrincipal, CoveringRules, RoleClass;
    k := UnmappedKey(input, u);
    OnlyConvertibleBind(input, groups, NGroup(input, k));
    if Convertible(k) { ConvertibleUnmapped(input, groups, NGroup(input, k), u); }
  }

  lemma ConvertibleUnmapped(input: Input, groups: seq<AclGroup>, g: AclGroup, u: Unmapped)
    requires Convertible(g.key) && Leaves(input, groups, g, u)
    ensures u.sourceIds == g.sourceIds && !u.reason.HostRestricted?
    ensures u.reason == NoRuleMatch ==> CoveringRules(g, input.rules) == []
    ensures u.reason.ConflictingExisting? ==>
              var m := MapPrincipal(g.key.principal, input.principals);
              m.Ok? && RoleClass(input, g, m.value.resolved, u.reason.role) == SameRoleOtherResources
              && exists rule :: rule in CoveringRules(g, input.rules) && rule.role == u.reason.role
  {
    hide MapPrincipal, CoveringRules, RolesDelta, RoleDelta, RoleClass, GroupDelta;
    var p, roles := ConvertibleParts(input, groups, g);
    RolesCollect(input, g, p, CoveringRules(g, input.rules), {});
    if CoveringRules(g, input.rules) != [] {
      var rule :| rule in CoveringRules(g, input.rules) && u in RoleDelta(input, g, p, rule.role).unmapped;
      RoleShape(input, g, p, rule.role);
    }
  }

  lemma RejectedOrigin(input: Input, x: Rejected) returns (k: Key)
    requires Planned(input).Ok? && x in Planned(input).value.rejected
    ensures k in KeySet(input.rows) && k.permission == Deny && x.sourceIds == GroupOf(input.rows, k).sourceIds
  {
    var groups := Normalized(input.rows);
    hide Planned, Normalized, NGroup, KeySet, GroupOf, MapPrincipal, CoveringRules, RolesDelta, GroupDelta;
    PlanFromGroups(input);
    k :| k in KeySet(input.rows) && Rejects(input, groups, NGroup(input, k), x);
    hide Rejects, Gives, Leaves;
    RejectedIsDeny(input, groups, NGroup(input, k), x);
  }

  lemma RejectedIsDeny(input: Input, groups: seq<AclGroup>, g: AclGroup, x: Rejected)
    requires Rejects(input, groups, g, x)
    ensures g.key.permission == Deny && x.sourceIds == g.sourceIds
  {
    hide MapPrincipal, CoveringRules, RolesDelta, GroupDelta;
    OnlyConvertibleBind(input, groups, g);
    if Convertible(g.key) { var _, _ := ConvertibleParts(input, groups, g); }
  }

  /** Where each row ends up, exactly: rejected iff DENY, and then nowhere else; a host-restricted
      Allow row only in `unmapped`; bound and unmapped at once iff its group is split by the
      existing bindings. */
  lemma PlacementIsExact(input: Input, r: Row)
    requires Planned(input).Ok? && DistinctIds(input.rows) && r in input.rows
    ensures var p := Planned(input).value;
            && (InRejected(p, r.id) <==> r.permission == Deny)
            && (r.permission == Deny ==> !Bound(p, r.id) && !LeftUnmapped(p, r.id))
            && (r.host != "*" ==> !Bound(p, r.id))
            && (Bound(p, r.id) && LeftUnmapped(p, r.id) <==> Split(input, KeyOf(r)))
  {
    var p, k := Planned(input).value, KeyOf(r);
    hide Planned, MapPrincipal, CoveringRules, NGroup, RoleClass, Bound, LeftUnmapped, InRejected;
    NoRowIsLost(input, r);
    if InRejected(p, r.id) { RejectedIsDenyRow(input, r); }
    if Bound(p, r.id) { BoundHasFreeRole(input, r); }
    if LeftUnmapped(p, r.id) { UnmappedHasReason(input, r); }
    if Split(input, k) { SplitIsBoth(input, r); }
  }

  lemma RejectedIsDenyRow(input: Input, r: Row)
    requires Planned(input).Ok? && DistinctIds(input.rows) && r in input.rows && InRejected(Planned(input).value, r.id)
    ensures r.permission == Deny
  {
    hide Planned, KeySet, GroupOf;
    var x :| x in Planned(input).value.rejected && r.id in x.sourceIds;
    var k := RejectedOrigin(input, x);
    IdNamesRow(input.rows, k, r);
  }

  lemma BoundHasFreeRole(input: Input, r: Row)
    requires Planned(input).Ok? && DistinctIds(input.rows) && r in input.rows && Bound(Planned(input).value, r.id)
    ensures var m := MapPrincipal(r.principal, input.principals); var g := NGroup(input, KeyOf(r));
            && Convertible(KeyOf(r)) && m.Ok?
            && exists rule :: rule in CoveringRules(g, input.rules) && RoleClass(input, g, m.value.resolved, rule.role) != SameRoleOtherResources
  {
    hide Planned, KeySet, GroupOf, MapPrincipal, CoveringRules, NGroup, RoleClass;
    var b :| b in Planned(input).value.bindings && r.id in b.sourceIds;
    var k := BindingOrigin(input, b);
    IdNamesRow(input.rows, k, r);
  }

  lemma UnmappedHasReason(input: Input, r: Row)
    requires Planned(input).Ok? && DistinctIds(input.rows) && r in input.rows && LeftUnmapped(Planned(input).value, r.id)
    ensures var m := MapPrincipal(r.principal, input.principals); var g := NGroup(input, KeyOf(r));
            && r.permission == Allow
            && (r.host != "*" || CoveringRules(g, input.rules) == [] ||
                (m.Ok? && exists rule :: rule in CoveringRules(g, input.rules)
                                         && RoleClass(input, g, m.value.resolved, rule.role) == SameRoleOtherResources))
  {
    hide Planned, KeySet, GroupOf, MapPrincipal, CoveringRules, NGroup, RoleClass;
    var u :| u in Planned(input).value.unmapped && r.id in u.sourceIds;
    var k := UnmappedOrigin(input, u);
    IdNamesRow(input.rows, k, r);
  }

  lemma SplitIsBoth(input: Input, r: Row)
    requires Planned(input).Ok? && r in input.rows && Split(input, KeyOf(r))
    ensures Bound(Planned(input).value, r.id) && LeftUnmapped(Planned(input).value, r.id)
  {
    var g, p := NGroup(input, KeyOf(r)), MapPrincipal(r.principal, input.principals).value.resolved;
    hide Planned, MapPrincipal, CoveringRules, NGroup, RoleClass;
    var rules := CoveringRules(g, input.rules);
    var blocked :| blocked in rules && RoleClass(input, g, p, blocked.role) == SameRoleOtherResources;
    var free :| free in rules && RoleClass(input, g, p, free.role) != SameRoleOtherResources;
    var _ := SelectedRolePlaced(input, r, blocked);
    var _ := SelectedRolePlaced(input, r, free);
  }

  /** Each selected rule of a row's group either binds the row to its role or leaves it unmapped. */
  lemma SelectedRolePlaced(input: Input, r: Row, rule: Rule) returns (b: Binding)
    requires Planned(input).Ok? && r in input.rows && Convertible(KeyOf(r))
    requires rule in CoveringRules(NGroup(input, KeyOf(r)), input.rules)
    ensures b.role == rule.role && b.patterns == [PatternOf(r)] && r.id in b.sourceIds
    ensures var m := MapPrincipal(r.principal, input.principals);
            && m.Ok? && b.principal == m.value.resolved
            && b == BindingFor(input, NGroup(input, KeyOf(r)), b.principal, b.role).(action := b.action)
            && (b.action == SkipExists <==> RoleClass(input, NGroup(input, KeyOf(r)), b.principal, rule.role) == Equivalent)
            && if RoleClass(input, NGroup(input, KeyOf(r)), b.principal, rule.role) == SameRoleOtherResources
               then LeftUnmapped(Planned(input).value, r.id)
                    && Unmapped(b.sourceIds, ConflictingExisting(rule.role)) in Planned(input).value.unmapped
                    && ConflictWarning(b.sourceIds, rule.role) in Planned(input).value.warnings
               else b in Planned(input).value.bindings
  {
    var k := KeyOf(r);
    RowInItsGroup(input.rows, r);
    var g := NGroup(input, k);
    assert r.id in g.sourceIds;
    hide NormalizedGroup, GroupOf, Normalized, Planned, MapPrincipal, CoveringRules, NGroup, RolesDelta, GroupDelta, RoleClass, RoleDelta;
    var d, all := GroupInPlan(input, k);
    var pr, roles := ConvertibleParts(input, Normalized(input.rows), g);
    RolesCollect(input, g, pr, CoveringRules(g, input.rules), {});
    WithinTransitive(RoleDelta(input, g, pr, rule.role), roles, d);
    b := RolePlaced(input, g, pr, rule.role, d, all);
  }

  /** With no existing bindings the three places partition the rows. */
  lemma FreshPlanPartitions(input: Input, r: Row)
    requires Planned(input).Ok? && DistinctIds(input.rows) && r in input.rows && input.existing == []
    ensures var p := Planned(input).value;
            && (Bound(p, r.id) || LeftUnmapped(p, r.id) || InRejected(p, r.id))
            && !(Bound(p, r.id) && LeftUnmapped(p, r.id))
            && !(Bound(p, r.id) && InRejected(p, r.id))
            && !(LeftUnmapped(p, r.id) && InRejected(p, r.id))
  {
    NoRowIsLost(input, r);
    PlacementIsExact(input, r);
  }

  /** With no existing bindings a row is bound iff it is convertible and some rule is selected. */
  lemma FreshRowIsBound(input: Input, r: Row)
    requires Planned(input).Ok? && DistinctIds(input.rows) && r in input.rows && input.existing == []
    ensures Bound(Planned(input).value, r.id) <==>
            Convertible(KeyOf(r)) && CoveringRules(NGroup(input, KeyOf(r)), input.rules) != []
  {
    hide Planned, CoveringRules, NGroup, MapPrincipal, Bound, LeftUnmapped, InRejected;
    var p := Planned(input).value;
    FreshPlanPartitions(input, r);
    PlacementIsExact(input, r);
    NoRowIsLost(input, r);
    if Bound(p, r.id) { BoundHasFreeRole(input, r); }
    if LeftUnmapped(p, r.id) { UnmappedHasReason(input, r); }
  }

  // ---------------------------------------------------------------------------
  // Order is irrelevant

  /** Permuting the rows leaves bindings, unmapped, rejected and warnings as they are, and every
      DENY row keeps its status. */
  lemma PlanIgnoresRowOrder(input: Input, rows: seq<Row>)
    requires multiset(rows) == multiset(input.rows)
    ensures var a := Planned(input); var b := Planned(input.(rows := rows));
            && (a.Err? ==> b == a)
            && (a.Ok? ==> b.Ok? && a.value.bindings == b.value.bindings && a.value.unmapped == b.value.unmapped
                          && a.value.rejected == b.value.rejected && a.value.warnings == b.value.warnings
                          && forall e :: e in a.value.denyAnalysis <==> e in b.value.denyAnalysis)
    ensures forall r :: StatusIn(rows, r) == StatusIn(input.rows, r)
  {
    MemberOfPermutation(rows, input.rows);
    GroupsIgnoreOrder(rows, input.rows);
    var groups := Normalized(rows);
    assert groups == Normalized(input.rows);
    hide Normalized;
    SameDelta(input, rows, groups, groups);
    forall e ensures e in DenyEntries(rows, AllowEntries(groups)) <==> e in DenyEntries(input.rows, AllowEntries(groups)) {
      DenyEntriesMembers(rows, AllowEntries(groups), e);
      DenyEntriesMembers(input.rows, AllowEntries(groups), e);
    }
  }

  /** Below the grouping, the planner never looks at the rows again. */
  lemma {:induction false} SameDelta(input: Input, rows: seq<Row>, groups: seq<AclGroup>, gs: seq<AclGroup>)
    ensures GroupsDelta(input.(rows := rows), groups, gs) == GroupsDelta(input, groups, gs)
  {
    if gs != [] {
      SameDelta(input, rows, groups, gs[1..]);
      SameGroupDelta(input, rows, groups, gs[0]);
    }
  }

  lemma SameGroupDelta(input: Input, rows: seq<Row>, groups: seq<AclGroup>, g: AclGroup)
    ensures GroupDelta(input.(rows := rows), groups, g) == GroupDelta(input, groups, g)
  {
    if MapPrincipal(g.key.principal, input.principals).Ok? {
      SameRolesDelta(input, rows, g, MapPrincipal(g.key.principal, input.principals).value.resolved,
                     CoveringRules(g, input.rules), {});
    }
  }

  lemma {:induction false} SameRolesDelta(input: Input, rows: seq<Row>, g: AclGroup, p: string, rules: seq<Rule>, seen: set<string>)
    ensures RolesDelta(input.(rows := rows), g, p, rules, seen) == RolesDelta(input, g, p, rules, seen)
  {
    if rules != [] {
      SameRolesDelta(input, rows, g, p, rules[1..], seen);
      SameRolesDelta(input, rows, g, p, rules[1..], seen + {rules[0].role});
    }
  }
}
