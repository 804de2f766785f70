/** The plan specified row by row, in the terms of the input alone: what the rows of a resource pattern
    authorise together, which rules that calls for, and what the bindings, unmapped entries, rejected
    entries and warnings are then. No part of this specification mentions a function of the planner. */
module Reference {
  import opened Ordering
  import opened Types
  import opened Kafka
  import opened Normalize
  import opened Rules
  import opened Match
  import opened Patterns
  import opened DenyAnalysis
  import opened Planner
  import opened Translation

  // ---------------------------------------------------------------------------
  // The specification

  /** Rows that differ in nothing but their id and operation. */
  predicate SameGroup(r: Row, s: Row) {
    && r.principal == s.principal && r.host == s.host && r.permission == s.permission
    && r.resourceType == s.resourceType && r.resourceName == s.resourceName && r.patternType == s.patternType
  }

  /** Some row of `r`'s group authorises the operation. */
  ghost predicate Authorises(rows: seq<Row>, r: Row, op: Operation) {
    exists s :: s in rows && SameGroup(r, s) && KafkaGrants(r.resourceType, s.operation, op)
  }

  ghost predicate IsGroupId(rows: seq<Row>, r: Row, id: int) {
    exists s :: s in rows && SameGroup(r, s) && s.id == id
  }

  predicate Ascending(ids: seq<int>) { forall i, j :: 0 <= i < j < |ids| ==> ids[i] < ids[j] }

  /** The ids of `r`'s group, ascending. */
  ghost predicate GroupIds(rows: seq<Row>, r: Row, ids: seq<int>) {
    && (forall id :: id in ids <==> IsGroupId(rows, r, id))
    && Ascending(ids)
  }

  /** A rule fits a row's group: its kind, and all or any of the operations the rule lists. */
  ghost predicate Fits(rows: seq<Row>, r: Row, rule: Rule) {
    && rule.when.resourceType == r.resourceType
    && rule.when.permission == r.permission
    && match rule.when.mode
       case ModeAll => forall op :: op in rule.when.operations ==> Authorises(rows, r, op)
       case ModeAny => exists op :: op in rule.when.operations && Authorises(rows, r, op)
       case OtherMode(_) => false
  }

  /** A rule accounts for what it lists and what that implies, and for everything if it lists `All`. */
  ghost predicate Accounts(rule: Rule, op: Operation) {
    exists listed :: listed in rule.when.operations && Lists(listed, op)
  }

  /** Rule `i` is the first fitting one to account for an operation that is authorised. */
  ghost predicate FirstFor(input: Input, r: Row, op: Operation, i: nat) {
    && i < |input.rules| && Fits(input.rows, r, input.rules[i]) && Accounts(input.rules[i], op)
    && op != All && Authorises(input.rows, r, op)
    && forall j :: 0 <= j < i && Fits(input.rows, r, input.rules[j]) ==> !Accounts(input.rules[j], op)
  }

  /** The rows call for a role: some rule with it is the first for some operation. */
  ghost predicate CallsFor(input: Input, r: Row, role: string) {
    exists i: nat, op :: FirstFor(input, r, op, i) && input.rules[i].role == role
  }

  ghost predicate CallsForSome(input: Input, r: Row) { exists role :: CallsFor(input, r, role) }

  predicate Plannable(r: Row) { r.permission == Allow && r.host == "*" }

  /** The binding of a role for a row's group, whatever its action. */
  ghost predicate BindsGroup(input: Input, r: Row, b: Binding) {
    && b.principal == (if r.principal in input.principals.mappings then input.principals.mappings[r.principal] else r.principal)
    && b.scope == (if r.resourceType == Subject
                   then Scope(input.scopes.organization, input.scopes.environment, "", input.scopes.schemaRegistryCluster, "", "")
                   else Scope(input.scopes.organization, input.scopes.environment, input.scopes.kafkaCluster, "", "", ""))
    && b.patterns == [Pattern(r.resourceType, r.resourceName, r.patternType)]
    && b.id == input.bindingId(b.principal, b.role, b.scope, b.patterns)
    && GroupIds(input.rows, r, b.sourceIds)
  }

  /** Some existing binding has the principal, the role and the scope. */
  ghost predicate Shared(existing: seq<Binding>, b: Binding) {
    exists e :: e in existing && e.principal == b.principal && e.role == b.role && e.scope == b.scope
  }

  /** Some existing binding has them and the same patterns. */
  ghost predicate Held(existing: seq<Binding>, b: Binding) {
    exists e :: e in existing && e.principal == b.principal && e.role == b.role && e.scope == b.scope
                && multiset(e.patterns) == multiset(b.patterns)
  }

  /** A role the rows call for is blocked: others' patterns are bound under it, and not these. */
  ghost predicate Conflicts(input: Input, r: Row, role: string) {
    && CallsFor(input, r, role)
    && exists b :: BindsGroup(input, r, b) && b.role == role && Shared(input.existing, b) && !Held(input.existing, b)
  }

  /** Why an Allow row's group is left unmapped. */
  ghost predicate LeftFor(input: Input, r: Row, reason: UnmappedReason) {
    match reason
    case HostRestricted(h) => r.host == h && h != "*"
    case NoRuleMatch => r.host == "*" && !CallsForSome(input, r)
    case ConflictingExisting(role) => r.host == "*" && Conflicts(input, r, role)
  }

  ghost predicate Occurs(sub: string, s: string) { exists before, after :: s == before + sub + after }

  /** What follows the kind of a principal, or all of it if it has no kind. */
  ghost predicate IsBody(p: string, body: string) {
    (':' !in p && body == p) || exists kind :: ':' !in kind && p == kind + ":" + body
  }

  /** A certificate's distinguished name: a common name and an organisation, a unit or a country. */
  ghost predicate NamesCertificate(p: string) {
    exists body :: IsBody(p, body) && Occurs("CN=", body) && (Occurs("O=", body) || Occurs("OU=", body) || Occurs("C=", body))
  }

  /** Some Allow of the principal reaches topics by prefix, from whatever host. */
  ghost predicate HasTopicPrefix(rows: seq<Row>, principal: string) {
    exists s :: s in rows && s.principal == principal && s.permission == Allow && s.resourceType == Topic && s.patternType == PREFIXED
  }

  /** An operation that no fitting rule accounts for. */
  ghost predicate Uncovered(input: Input, r: Row, op: Operation) {
    op != All && Authorises(input.rows, r, op)
    && forall rule :: rule in input.rules && Fits(input.rows, r, rule) ==> !Accounts(rule, op)
  }

  /** What an Allow row's group is warned about. */
  ghost predicate WarnedOf(input: Input, r: Row, w: Warning) {
    match w
    case HostRestrictedWarning(ids, h) => r.host == h && h != "*" && GroupIds(input.rows, r, ids)
    case MtlsDnPassThrough(p) =>
      r.host == "*" && r.principal == p && p !in input.principals.mappings && NamesCertificate(p)
    case LoneCreateOnCluster(p) =>
      && r.host == "*" && r.principal == p && r.resourceType == Cluster && !CallsForSome(input, r)
      && (forall op :: Authorises(input.rows, r, op) <==> op == Create)
      && !HasTopicPrefix(input.rows, p)
    case PartialRuleCoverage(ids, missing) =>
      && r.host == "*" && GroupIds(input.rows, r, ids) && CallsForSome(input, r)
      && missing != {} && (forall op :: op in missing <==> Uncovered(input, r, op))
    case ConflictWarning(ids, role) => r.host == "*" && GroupIds(input.rows, r, ids) && Conflicts(input, r, role)
  }

  // ---------------------------------------------------------------------------
  // The planner's groups in these terms

  lemma SameGroupIsKey(r: Row, s: Row)
    ensures SameGroup(r, s) <==> KeyOf(s) == KeyOf(r)
  {
  }

  lemma HoldsIff(input: Input, r: Row, op: Operation)
    requires r.permission == Allow
    ensures op in NGroup(input, KeyOf(r)).operations <==> Authorises(input.rows, r, op)
  {
    NormalizedIsWhatRowsGrant(input.rows, KeyOf(r), op);
    hide NormalizedGroup, GroupOf, KafkaGrants;
  }

  lemma IdsIff(input: Input, r: Row, ids: seq<int>)
    requires DistinctIds(input.rows)
    ensures GroupIds(input.rows, r, ids) <==> ids == NGroup(input, KeyOf(r)).sourceIds
  {
    var sorted := Sort(IntLess, IdsOf(input.rows, KeyOf(r)));
    assert NGroup(input, KeyOf(r)).sourceIds == sorted;
    SortedAscending(input.rows, KeyOf(r));
    hide NGroup, IsGroupId, Sort, IdsOf;
    forall id ensures id in sorted <==> IsGroupId(input.rows, r, id) { SortedIdsMember(input.rows, r, id); }
    if GroupIds(input.rows, r, ids) {
      forall id ensures id in ids <==> id in sorted { assert id in ids <==> IsGroupId(input.rows, r, id); }
      AscendingUnique(ids, sorted);
    }
  }

  lemma SortedIdsMember(rows: seq<Row>, r: Row, id: int)
    ensures id in Sort(IntLess, IdsOf(rows, KeyOf(r))) <==> IsGroupId(rows, r, id)
  {
    var raw := IdsOf(rows, KeyOf(r));
    IdsOfMembers(rows, KeyOf(r));
    MemberOfPermutation(Sort(IntLess, raw), raw);
    hide IdsOf, Sort;
    if id in raw {
      var s :| s in rows && KeyOf(s) == KeyOf(r) && s.id == id;
      assert SameGroup(r, s);
    }
  }

  lemma {:induction false} IdsDistinct(rows: seq<Row>, k: Key)
    requires DistinctIds(rows)
    ensures NoDuplicates(IdsOf(rows, k))
  {
    if rows != [] {
      var init, last := rows[..|rows| - 1], rows[|rows| - 1];
      assert rows == init + [last];
      IdsDistinct(init, k);
      IdsOfMembers(init, k);
      assert last.id !in IdsOf(init, k);
    }
  }

  lemma SortedAscending(rows: seq<Row>, k: Key)
    requires DistinctIds(rows)
    ensures Ascending(Sort(IntLess, IdsOf(rows, k)))
  {
    IdsDistinct(rows, k);
    SortSorts(IntLess, IdsOf(rows, k));
    PermutationNoDuplicates(IdsOf(rows, k), Sort(IntLess, IdsOf(rows, k)));
    hide Sort, IdsOf;
  }

  lemma FirstIn(s: seq<int>) returns (x: int)
    requires s != []
    ensures x in s
  {
    x := s[0];
  }

  lemma {:induction false} AscendingUnique(a: seq<int>, b: seq<int>)
    requires forall x :: x in a <==> x in b
    requires Ascending(a) && Ascending(b)
    ensures a == b
  {
    if a == [] {
      if b != [] { var _ := FirstIn(b); }
    } else {
      assert a[0] in b && b[0] in a;
      var i :| 0 <= i < |a| && a[i] == b[0];
      var j :| 0 <= j < |b| && b[j] == a[0];
      assert a == [a[0]] + a[1..] && b == [b[0]] + b[1..];
      forall x ensures x in a[1..] <==> x in b[1..] {
        assert x in a[1..] <==> x in a && x != a[0];
        assert x in b[1..] <==> x in b && x != b[0];
      }
      AscendingUnique(a[1..], b[1..]);
    }
  }

  lemma FitsIff(input: Input, r: Row, rule: Rule)
    requires r.permission == Allow
    ensures MatchesRule(NGroup(input, KeyOf(r)), rule) <==> Fits(input.rows, r, rule)
  {
    var g := NGroup(input, KeyOf(r));
    forall op ensures op in g.operations <==> Authorises(input.rows, r, op) { HoldsIff(input, r, op); }
    hide NGroup, Authorises;
  }

  lemma {:induction false} ListedIsCovered(g: AclGroup, ops: seq<Operation>, listed: Operation, op: Operation)
    requires listed in ops && Lists(listed, op) && op in g.operations
    ensures op in CoveredFrom(g, ops)
  {
    TablesAreKafkas(Topic, listed, op);
    if ops[0] != All && ops[0] != listed { ListedIsCovered(g, ops[1..], listed, op); }
  }

  lemma AccountsIff(g: AclGroup, rule: Rule, op: Operation)
    requires op in g.operations
    ensures op in RuleCoveredOps(g, rule) <==> Accounts(rule, op)
  {
    hide Lists, CoveredFrom;
    if op in RuleCoveredOps(g, rule) { CoveredMeansListed(g, rule.when.operations, op); }
    if Accounts(rule, op) {
      var listed :| listed in rule.when.operations && Lists(listed, op);
      ListedIsCovered(g, rule.when.operations, listed, op);
    }
  }

  lemma FirstIff(input: Input, r: Row, op: Operation, i: nat)
    requires r.permission == Allow
    ensures var g := NGroup(input, KeyOf(r));
            FirstFor(input, r, op, i) <==> op in Concrete(g) && FirstCovers(g, input.rules, op, i)
  {
    hide NGroup, Authorises, MatchesRule, Fits, RuleCoveredOps, Accounts;
    var g, rules := NGroup(input, KeyOf(r)), input.rules;
    HoldsIff(input, r, op);
    if op in g.operations && i < |rules| {
      forall j | 0 <= j <= i
        ensures MatchesRule(g, rules[j]) <==> Fits(input.rows, r, rules[j])
        ensures op in RuleCoveredOps(g, rules[j]) <==> Accounts(rules[j], op) {
        FitsIff(input, r, rules[j]);
        AccountsIff(g, rules[j], op);
      }
    }
  }

  /** The roles the planner selects are those the rows call for. */
  lemma SelectedIff(input: Input, r: Row, role: string)
    requires r.permission == Allow
    ensures (exists rule :: rule in CoveringRules(NGroup(input, KeyOf(r)), input.rules) && rule.role == role) <==> CallsFor(input, r, role)
  {
    hide NGroup, Cover, Concrete, Fits, Accounts, Authorises, MatchesRule, RuleCoveredOps;
    var g, rules := NGroup(input, KeyOf(r)), input.rules;
    if rule :| rule in CoveringRules(g, rules) && rule.role == role {
      CoverPicksFirst(g, rules, Concrete(g), rule);
      var i: nat, op :| op in Concrete(g) && FirstCovers(g, rules, op, i) && rules[i] == rule;
      FirstIff(input, r, op, i);
    }
    if i: nat, op :| FirstFor(input, r, op, i) && rules[i].role == role {
      FirstIff(input, r, op, i);
      CoverPicksFirst(g, rules, Concrete(g), rules[i]);
      assert rules[i] in CoveringRules(g, rules);
    }
  }

  lemma BindsIff(input: Input, r: Row, b: Binding)
    requires DistinctIds(input.rows) && MapPrincipal(r.principal, input.principals).Ok?
    ensures BindsGroup(input, r, b) <==>
            b == BindingFor(input, NGroup(input, KeyOf(r)), MapPrincipal(r.principal, input.principals).value.resolved, b.role).(action := b.action)
  {
    hide GroupIds;
    IdsIff(input, r, b.sourceIds);
  }

  lemma ClassIff(existing: seq<Binding>, b: Binding)
    ensures ExistingClass(b, existing) == Equivalent <==> Held(existing, b)
    ensures ExistingClass(b, existing) == SameRoleOtherResources <==> Shared(existing, b) && !Held(existing, b)
  {
  }

  /** The class does not depend on the action. */
  lemma ClassIgnoresAction(existing: seq<Binding>, b: Binding, action: Action)
    ensures ExistingClass(b.(action := action), existing) == ExistingClass(b, existing)
  {
  }

  lemma MappedIff(input: Input, r: Row)
    ensures MapPrincipal(r.principal, input.principals).Ok? <==> r.principal in input.principals.mappings || !input.principals.fallbackFail
  {
  }

  // ---------------------------------------------------------------------------
  // The plan is what is specified

  lemma KeyOfRow(rows: seq<Row>, r: Row)
    requires r in rows
    ensures KeyOf(r) in KeySet(rows)
  {
  }

  lemma RowOfKey(rows: seq<Row>, k: Key) returns (r: Row)
    requires k in KeySet(rows)
    ensures r in rows && KeyOf(r) == k
  {
    r :| r in rows && KeyOf(r) == k;
  }

  /** A binding is planned iff some host-free Allow row calls for its role, its fields are those of the
      row's group, and no existing binding is in conflict; it is planned as already there iff an existing
      binding has its principal, role, scope and patterns. */
  lemma BindingsExactly(input: Input, b: Binding)
    requires Planned(input).Ok? && DistinctIds(input.rows)
    ensures b in Planned(input).value.bindings <==>
            && (exists r :: r in input.rows && Plannable(r) && CallsFor(input, r, b.role) && BindsGroup(input, r, b))
            && (Shared(input.existing, b) ==> Held(input.existing, b))
            && (b.action == SkipExists <==> Held(input.existing, b))
  {
    hide Planned, CallsFor, BindsGroup, Shared, Held;
    if b in Planned(input).value.bindings { var _ := PlannedIsCalledFor(input, b); }
    if r :| r in input.rows && Plannable(r) && CallsFor(input, r, b.role) && BindsGroup(input, r, b) {
      if (Shared(input.existing, b) ==> Held(input.existing, b)) && (b.action == SkipExists <==> Held(input.existing, b)) {
        CalledForIsPlanned(input, r, b);
      }
    }
  }

  lemma PlannedIsCalledFor(input: Input, b: Binding) returns (r: Row)
    requires Planned(input).Ok? && DistinctIds(input.rows) && b in Planned(input).value.bindings
    ensures r in input.rows && Plannable(r) && CallsFor(input, r, b.role) && BindsGroup(input, r, b)
    ensures Shared(input.existing, b) ==> Held(input.existing, b)
    ensures b.action == SkipExists <==> Held(input.existing, b)
  {
    hide Planned, CallsFor, BindsGroup, Shared, Held, KeySet, NGroup, GroupOf, CoveringRules, MapPrincipal, ApplyScope, ExistingClass;
    var k := BindingOrigin(input, b);
    r := RowOfKey(input.rows, k);
    SelectedIff(input, r, b.role);
    BindsIff(input, r, b);
    ClassIff(input.existing, b);
    ClassIgnoresAction(input.existing, b, CreateAction);
  }

  /** What is planned as already there is held. */
  lemma SkippedIsHeld(input: Input, b: Binding)
    requires Planned(input).Ok? && b in Planned(input).value.bindings && b.action == SkipExists
    ensures Held(input.existing, b)
  {
    hide Planned, Held, Shared, KeySet, NGroup, GroupOf, CoveringRules, MapPrincipal, ApplyScope, ExistingClass;
    var k := BindingOrigin(input, b);
    var c := BindingFor(input, NGroup(input, k), b.principal, b.role);
    assert c == b.(action := CreateAction);
    ClassIgnoresAction(input.existing, c, b.action);
    ClassIff(input.existing, b);
  }

  lemma CalledForIsPlanned(input: Input, r: Row, b: Binding)
    requires Planned(input).Ok? && DistinctIds(input.rows) && r in input.rows && Plannable(r)
    requires CallsFor(input, r, b.role) && BindsGroup(input, r, b)
    requires Shared(input.existing, b) ==> Held(input.existing, b)
    requires b.action == SkipExists <==> Held(input.existing, b)
    ensures b in Planned(input).value.bindings
  {
    hide Planned, CallsFor, BindsGroup, Shared, Held, NGroup, CoveringRules, MapPrincipal, BindingFor, ExistingClass, LeftUnmapped;
    SelectedIff(input, r, b.role);
    var rule :| rule in CoveringRules(NGroup(input, KeyOf(r)), input.rules) && rule.role == b.role;
    var c := SelectedRolePlaced(input, r, rule);
    BindsIff(input, r, b);
    ClassIff(input.existing, b);
    ClassIgnoresAction(input.existing, BindingFor(input, NGroup(input, KeyOf(r)), c.principal, b.role), b.action);
  }

  /** Nothing is selected for a group iff its rows call for no role. */
  lemma NothingSelectedIff(input: Input, r: Row)
    requires r.permission == Allow
    ensures CoveringRules(NGroup(input, KeyOf(r)), input.rules) == [] <==> !CallsForSome(input, r)
  {
    hide CallsFor, NGroup, CoveringRules;
    var rules := CoveringRules(NGroup(input, KeyOf(r)), input.rules);
    if rules != [] {
      assert rules[0] in rules;
      SelectedIff(input, r, rules[0].role);
    }
    if role :| CallsFor(input, r, role) { SelectedIff(input, r, role); }
  }

  /** With valid rules, a row calls for some role iff some rule fits it. */
  lemma CallsForSomeIff(input: Input, r: Row)
    requires r in input.rows && r.permission == Allow && ValidRules(input.rules)
    ensures CallsForSome(input, r) <==> exists rule :: rule in input.rules && Fits(input.rows, r, rule)
  {
    NothingSelectedIff(input, r);
    NormalizedHasConcrete(input.rows, r);
    var g := NGroup(input, KeyOf(r));
    EmptyIffNoMatch(g, input.rules);
    hide CallsForSome, NGroup, CoveringRules, MatchesRule, Fits, NormalizedGroup, ValidRules;
    forall rule ensures MatchesRule(g, rule) <==> Fits(input.rows, r, rule) { FitsIff(input, r, rule); }
  }

  lemma ConflictIff(input: Input, r: Row, role: string)
    requires DistinctIds(input.rows) && r.permission == Allow && MapPrincipal(r.principal, input.principals).Ok?
    ensures var g := NGroup(input, KeyOf(r));
            Conflicts(input, r, role) <==>
            && (exists rule :: rule in CoveringRules(g, input.rules) && rule.role == role)
            && RoleClass(input, g, MapPrincipal(r.principal, input.principals).value.resolved, role) == SameRoleOtherResources
  {
    hide NGroup, CoveringRules, MapPrincipal, ExistingClass, CallsFor, BindsGroup, Shared, Held, ApplyScope;
    var c := BindingFor(input, NGroup(input, KeyOf(r)), MapPrincipal(r.principal, input.principals).value.resolved, role);
    assert c.role == role && c.action == CreateAction;
    hide BindingFor;
    SelectedIff(input, r, role);
    BindsIff(input, r, c);
    ClassIff(input.existing, c);
    if b :| BindsGroup(input, r, b) && b.role == role && Shared(input.existing, b) && !Held(input.existing, b) {
      BindsIff(input, r, b);
      ClassIff(input.existing, b);
      ClassIgnoresAction(input.existing, c, b.action);
    }
  }

  /** An entry is left unmapped iff some Allow row's group is left for its reason. */
  lemma UnmappedExactly(input: Input, u: Unmapped)
    requires Planned(input).Ok? && DistinctIds(input.rows)
    ensures u in Planned(input).value.unmapped <==>
            exists r :: r in input.rows && r.permission == Allow && GroupIds(input.rows, r, u.sourceIds) && LeftFor(input, r, u.reason)
  {
    hide Planned, LeftFor, GroupIds;
    if u in Planned(input).value.unmapped { var _ := UnmappedHasRow(input, u); }
    if r :| r in input.rows && r.permission == Allow && GroupIds(input.rows, r, u.sourceIds) && LeftFor(input, r, u.reason) {
      LeftIsUnmapped(input, r, u);
    }
  }

  lemma UnmappedHasRow(input: Input, u: Unmapped) returns (r: Row)
    requires Planned(input).Ok? && DistinctIds(input.rows) && u in Planned(input).value.unmapped
    ensures r in input.rows && r.permission == Allow && GroupIds(input.rows, r, u.sourceIds) && LeftFor(input, r, u.reason)
  {
    hide Planned, GroupIds, CallsForSome, Conflicts, KeySet, NGroup, GroupOf, CoveringRules, MapPrincipal, RoleClass;
    var k := UnmappedOrigin(input, u);
    r := RowOfKey(input.rows, k);
    IdsIff(input, r, u.sourceIds);
    NothingSelectedIff(input, r);
    if u.reason.ConflictingExisting? { ConflictIff(input, r, u.reason.role); }
  }

  lemma LeftIsUnmapped(input: Input, r: Row, u: Unmapped)
    requires Planned(input).Ok? && DistinctIds(input.rows)
    requires r in input.rows && r.permission == Allow && GroupIds(input.rows, r, u.sourceIds) && LeftFor(input, r, u.reason)
    ensures u in Planned(input).value.unmapped
  {
    hide Planned, GroupIds, CallsForSome, Conflicts, NGroup, GroupOf, CoveringRules, MapPrincipal, Normalized, GroupDelta;
    if u.reason.ConflictingExisting? {
      ConflictIsReported(input, r, u.sourceIds, u.reason.role);
    } else {
      IdsIff(input, r, u.sourceIds);
      KeyOfRow(input.rows, r);
      var d, _ := GroupInPlan(input, KeyOf(r));
      hide KeySet;
      if r.host != "*" {
        OnlyConvertibleBind(input, Normalized(input.rows), NGroup(input, KeyOf(r)));
      } else {
        NothingSelectedIff(input, r);
        var _, _ := ConvertibleParts(input, Normalized(input.rows), NGroup(input, KeyOf(r)));
      }
      assert d.unmapped[0] == u;
    }
  }

  lemma ConflictIsReported(input: Input, r: Row, ids: seq<int>, role: string)
    requires Planned(input).Ok? && DistinctIds(input.rows)
    requires r in input.rows && Plannable(r) && GroupIds(input.rows, r, ids) && Conflicts(input, r, role)
    ensures Unmapped(ids, ConflictingExisting(role)) in Planned(input).value.unmapped
    ensures ConflictWarning(ids, role) in Planned(input).value.warnings
  {
    assert CallsFor(input, r, role);
    hide Planned, GroupIds, CallsFor, Conflicts, NGroup, CoveringRules, MapPrincipal, RoleClass, BindingFor, LeftUnmapped;
    SelectedIff(input, r, role);
    var rule :| rule in CoveringRules(NGroup(input, KeyOf(r)), input.rules) && rule.role == role;
    var b := SelectedRolePlaced(input, r, rule);
    ConflictIff(input, r, role);
    IdsIff(input, r, ids);
    assert b.sourceIds == NGroup(input, KeyOf(r)).sourceIds by { SourceIdsOfBinding(input, NGroup(input, KeyOf(r)), b.principal, role); }
  }

  lemma SourceIdsOfBinding(input: Input, g: AclGroup, p: string, role: string)
    ensures BindingFor(input, g, p, role).sourceIds == g.sourceIds
  {
  }

  /** The rejected entries are the groups of the DENY rows. */
  lemma RejectedExactly(input: Input, x: Rejected)
    requires Planned(input).Ok? && DistinctIds(input.rows)
    ensures x in Planned(input).value.rejected <==>
            exists r :: r in input.rows && r.permission == Deny && GroupIds(input.rows, r, x.sourceIds)
  {
    hide Planned, GroupIds, NGroup, GroupOf, Normalized, GroupDelta;
    if x in Planned(input).value.rejected {
      var k := RejectedOrigin(input, x);
      var r := RowOfKey(input.rows, k);
      IdsIff(input, r, x.sourceIds);
    }
    if r :| r in input.rows && r.permission == Deny && GroupIds(input.rows, r, x.sourceIds) {
      IdsIff(input, r, x.sourceIds);
      KeyOfRow(input.rows, r);
      var d, _ := GroupInPlan(input, KeyOf(r));
      OnlyConvertibleBind(input, Normalized(input.rows), NGroup(input, KeyOf(r)));
      assert d.rejected[0] == x;
    }
  }

  // ---------------------------------------------------------------------------
  // Warnings

  lemma OccursIff(s: string, sub: string)
    ensures Contains(s, sub) <==> Occurs(sub, s)
  {
    if i :| 0 <= i <= |s| && sub <= s[i..] {
      assert s == s[..i] + sub + s[i + |sub|..];
    }
    if before, after :| s == before + sub + after {
      assert s[|before|..] == sub + after;
      assert 0 <= |before| <= |s|;
    }
  }

  lemma {:induction false} AfterColonIs(p: string, i: nat)
    requires i <= |p| && ':' !in p[..i]
    ensures forall body :: IsBody(p, body) <==> body == AfterColonFrom(p, i)
    decreases |p| - i
  {
    if i == |p| {
      assert p[..i] == p;
      forall kind, body ensures p != kind + ":" + body { assert (kind + ":" + body)[|kind|] == ':'; }
    } else if p[i] == ':' {
      assert p == p[..i] + ":" + p[i + 1..];
      forall kind, body | ':' !in kind && p == kind + ":" + body ensures body == p[i + 1..] {
        SeparatorSplits(':', kind, body, p[..i], p[i + 1..]);
      }
    } else {
      assert p[..i + 1] == p[..i] + [p[i]];
      AfterColonIs(p, i + 1);
    }
  }

  lemma CertificateIff(p: string)
    ensures LooksLikeMtlsDn(p) <==> NamesCertificate(p)
  {
    AfterColonIs(p, 0);
    var body := AfterColon(p);
    OccursIff(body, "CN=");
    OccursIff(body, "O=");
    OccursIff(body, "OU=");
    OccursIff(body, "C=");
    hide Contains, Occurs, IsBody, AfterColonFrom;
  }

  lemma TopicPrefixIff(rows: seq<Row>, principal: string)
    ensures HasPrefixedTopicAllow(Normalized(rows), principal) <==> HasTopicPrefix(rows, principal)
  {
    hide Normalized, NormalizedGroup, GroupOf;
    NormalizedMembers(rows);
    if g :| g in Normalized(rows) && g.key.principal == principal && g.key.permission == Allow && g.key.resourceType == Topic && g.key.patternType == PREFIXED {
      var s := RowOfKey(rows, g.key);
    }
    if s :| s in rows && s.principal == principal && s.permission == Allow && s.resourceType == Topic && s.patternType == PREFIXED {
      KeyOfRow(rows, s);
      NormalizedKeyStays(rows, KeyOf(s));
    }
  }

  lemma NormalizedKeyStays(rows: seq<Row>, k: Key)
    ensures NormalizedGroup(GroupOf(rows, k)).key == k
  {
  }

  lemma OnlyCreateIff(g: AclGroup)
    ensures |g.operations| == 1 && Create in g.operations <==> forall op :: op in g.operations <==> op == Create
  {
    if |g.operations| == 1 && Create in g.operations {
      forall op | op in g.operations ensures op == Create {
        if op != Create {
          assert {op, Create} <= g.operations;
          SubsetSmaller({op, Create}, g.operations);
        }
      }
    }
    if forall op :: op in g.operations <==> op == Create { assert g.operations == {Create}; }
  }

  lemma SubsetSmaller(a: set<Operation>, b: set<Operation>)
    requires a <= b
    ensures |a| <= |b|
  {
    assert b == a + (b - a);
  }

  lemma UncoveredIff(input: Input, r: Row, op: Operation)
    requires r.permission == Allow
    ensures var g := NGroup(input, KeyOf(r)); op in UncoveredOps(g, CoveringRules(g, input.rules)) <==> Uncovered(input, r, op)
  {
    var g := NGroup(input, KeyOf(r));
    hide NGroup, Fits, Accounts, Authorises, MatchesRule, RuleCoveredOps, CoveredBy;
    HoldsIff(input, r, op);
    if op != All && op in g.operations {
      CoverLosesNothing(g, input.rules, Concrete(g));
      assert op in CoveredBy(g, CoveringRules(g, input.rules)) * Concrete(g) <==> op in CoveredBy(g, Matching(g, input.rules)) * Concrete(g);
      CoveredByMember(g, Matching(g, input.rules), op);
      MatchingMembers(g, input.rules);
      forall rule ensures MatchesRule(g, rule) <==> Fits(input.rows, r, rule)
                  ensures op in RuleCoveredOps(g, rule) <==> Accounts(rule, op) {
        FitsIff(input, r, rule);
        AccountsIff(g, rule, op);
      }
    }
  }

  lemma ConvertibleWarns(input: Input, groups: seq<AclGroup>, g: AclGroup, w: Warning)
    requires Convertible(g.key) && GroupDelta(input, groups, g).Ok?
    ensures var m := MapPrincipal(g.key.principal, input.principals);
            var rules := CoveringRules(g, input.rules);
            && m.Ok?
            && (w in GroupDelta(input, groups, g).value.warnings <==>
                || w in MtlsWarnings(g, m.value)
                || (rules == [] && w in LoneCreateWarnings(groups, g))
                || (rules != [] && w in CoverageWarnings(g, rules))
                || (w.ConflictWarning? && w.sourceIds == g.sourceIds && (exists rule :: rule in rules && rule.role == w.role)
                    && RoleClass(input, g, m.value.resolved, w.role) == SameRoleOtherResources))
  {
    hide CoveringRules, MapPrincipal, MtlsWarnings, LoneCreateWarnings, CoverageWarnings, ScopePresent;
    var p := MapPrincipal(g.key.principal, input.principals).value.resolved;
    var rules := CoveringRules(g, input.rules);
    var roles := RolesDelta(input, g, p, rules, {});
    assert rules == [] ==> roles == NOTHING;
    hide RolesDelta;
    RolesCollect(input, g, p, rules, {});
    hide RoleDelta, RoleClass;
    forall rule | rule in rules
      ensures w in RoleDelta(input, g, p, rule.role).warnings <==>
              w == ConflictWarning(g.sourceIds, rule.role) && RoleClass(input, g, p, rule.role) == SameRoleOtherResources {
      RoleWarns(input, g, p, rule.role, w);
    }
    assert w in roles.warnings <==> exists rule :: rule in rules && w in RoleDelta(input, g, p, rule.role).warnings;
  }

  lemma RoleWarns(input: Input, g: AclGroup, p: string, role: string, w: Warning)
    ensures w in RoleDelta(input, g, p, role).warnings <==>
            w == ConflictWarning(g.sourceIds, role) && RoleClass(input, g, p, role) == SameRoleOtherResources
  {
    hide ExistingClass, BindingFor;
  }

  lemma MtlsIff(input: Input, g: AclGroup, w: Warning)
    requires MapPrincipal(g.key.principal, input.principals).Ok?
    ensures w in MtlsWarnings(g, MapPrincipal(g.key.principal, input.principals).value) <==>
            w == MtlsDnPassThrough(g.key.principal) && g.key.principal !in input.principals.mappings && NamesCertificate(g.key.principal)
  {
    CertificateIff(g.key.principal);
    hide LooksLikeMtlsDn, NamesCertificate;
  }

  lemma LoneCreateIff(input: Input, r: Row, w: Warning)
    requires r.permission == Allow
    ensures w in LoneCreateWarnings(Normalized(input.rows), NGroup(input, KeyOf(r))) <==>
            && w == LoneCreateOnCluster(r.principal) && r.resourceType == Cluster
            && (forall op :: Authorises(input.rows, r, op) <==> op == Create) && !HasTopicPrefix(input.rows, r.principal)
  {
    hide Authorises, NGroup, Normalized, HasPrefixedTopicAllow, HasTopicPrefix;
    TopicPrefixIff(input.rows, r.principal);
    OnlyCreateIff(NGroup(input, KeyOf(r)));
    forall op ensures op in NGroup(input, KeyOf(r)).operations <==> Authorises(input.rows, r, op) { HoldsIff(input, r, op); }
  }

  lemma CoverageIff(input: Input, r: Row, w: Warning)
    requires r.permission == Allow && DistinctIds(input.rows)
    ensures var g := NGroup(input, KeyOf(r));
            w in CoverageWarnings(g, CoveringRules(g, input.rules)) <==>
            && w.PartialRuleCoverage? && GroupIds(input.rows, r, w.sourceIds)
            && w.missing != {} && (forall op :: op in w.missing <==> Uncovered(input, r, op))
  {
    hide NGroup, CoveringRules, UncoveredOps, Uncovered, GroupIds;
    var g := NGroup(input, KeyOf(r));
    forall op ensures op in UncoveredOps(g, CoveringRules(g, input.rules)) <==> Uncovered(input, r, op) { UncoveredIff(input, r, op); }
    if w.PartialRuleCoverage? {
      IdsIff(input, r, w.sourceIds);
      if forall op :: op in w.missing <==> Uncovered(input, r, op) { assert w.missing == UncoveredOps(g, CoveringRules(g, input.rules)); }
    }
  }

  /** A row's group contributes the warnings that are specified for it. */
  lemma GroupWarnsIff(input: Input, r: Row, w: Warning)
    requires Planned(input).Ok? && DistinctIds(input.rows) && r in input.rows && r.permission == Allow
    ensures Warns(input, Normalized(input.rows), NGroup(input, KeyOf(r)), w) <==> WarnedOf(input, r, w)
  {
    hide Planned, GroupIds, CallsForSome, Conflicts, NGroup, GroupOf, CoveringRules, MapPrincipal, Normalized, GroupDelta;
    hide Uncovered, Authorises, HasTopicPrefix, NamesCertificate, MtlsWarnings, LoneCreateWarnings, CoverageWarnings, RoleClass;
    var g, groups := NGroup(input, KeyOf(r)), Normalized(input.rows);
    KeyOfRow(input.rows, r);
    var d, _ := GroupInPlan(input, KeyOf(r));
    hide KeySet;
    if r.host == "*" {
      ConvertibleWarns(input, groups, g, w);
      NothingSelectedIff(input, r);
      MtlsIff(input, g, w);
      LoneCreateIff(input, r, w);
      CoverageIff(input, r, w);
      if w.ConflictWarning? {
        ConflictIff(input, r, w.role);
        IdsIff(input, r, w.sourceIds);
      }
    } else {
      RestrictedWarns(input, groups, g);
      if w.HostRestrictedWarning? { IdsIff(input, r, w.sourceIds); }
    }
  }

  lemma RestrictedWarns(input: Input, groups: seq<AclGroup>, g: AclGroup)
    requires g.key.permission == Allow && g.key.host != "*"
    ensures GroupDelta(input, groups, g).Ok? && GroupDelta(input, groups, g).value.warnings == [HostRestrictedWarning(g.sourceIds, g.key.host)]
  {
    hide CoveringRules, MapPrincipal, RolesDelta;
  }

  lemma DenyWarnsNothing(input: Input, groups: seq<AclGroup>, g: AclGroup, w: Warning)
    requires Warns(input, groups, g, w)
    ensures g.key.permission == Allow
  {
    hide CoveringRules, MapPrincipal, RolesDelta;
  }

  /** A warning is given iff some Allow row's group calls for it. */
  lemma WarningsExactly(input: Input, w: Warning)
    requires Planned(input).Ok? && DistinctIds(input.rows)
    ensures w in Planned(input).value.warnings <==>
            exists r :: r in input.rows && r.permission == Allow && WarnedOf(input, r, w)
  {
    hide Planned, WarnedOf, NGroup, Normalized, GroupDelta, KeySet;
    var groups := Normalized(input.rows);
    if w in Planned(input).value.warnings {
      PlanFromGroups(input);
      var k :| k in KeySet(input.rows) && Warns(input, groups, NGroup(input, k), w);
      var r := RowOfKey(input.rows, k);
      DenyWarnsNothing(input, groups, NGroup(input, k), w);
      GroupWarnsIff(input, r, w);
    }
    if r :| r in input.rows && r.permission == Allow && WarnedOf(input, r, w) {
      GroupWarnsIff(input, r, w);
      KeyOfRow(input.rows, r);
      var _, _ := GroupInPlan(input, KeyOf(r));
    }
  }

  // ---------------------------------------------------------------------------
  // Order

  lemma {:induction false} RolesOnce(input: Input, g: AclGroup, p: string, rules: seq<Rule>, seen: set<string>)
    ensures RolesDiffer(RolesDelta(input, g, p, rules, seen).bindings)
    ensures forall b :: b in RolesDelta(input, g, p, rules, seen).bindings ==> b.role !in seen
  {
    if rules != [] {
      var role := rules[0].role;
      if role in seen {
        RolesOnce(input, g, p, rules[1..], seen);
      } else {
        RolesOnce(input, g, p, rules[1..], seen + {role});
        OneRole(input, g, p, role);
        var a, rest := RoleDelta(input, g, p, role).bindings, RolesDelta(input, g, p, rules[1..], seen + {role}).bindings;
        assert RolesDelta(input, g, p, rules, seen).bindings == a + rest;
        hide RoleDelta, RolesDelta;
        var all: seq<Binding> := a + rest;
        forall i, j | 0 <= i < j < |all| ensures all[i].role != all[j].role {
          assert all[j] in rest;
          if i < |a| { assert all[i] in a; }
        }
      }
    }
  }

  predicate RolesDiffer(bs: seq<Binding>) { forall i, j :: 0 <= i < j < |bs| ==> bs[i].role != bs[j].role }

  lemma OneRole(input: Input, g: AclGroup, p: string, role: string)
    ensures |RoleDelta(input, g, p, role).bindings| <= 1
    ensures forall b :: b in RoleDelta(input, g, p, role).bindings ==> b.role == role
  {
    hide ExistingClass;
  }

  /** A group gives at most one binding for each role. */
  lemma GroupGivesRolesOnce(input: Input, groups: seq<AclGroup>, g: AclGroup)
    requires GroupDelta(input, groups, g).Ok?
    ensures RolesDiffer(GroupDelta(input, groups, g).value.bindings)
  {
    hide MapPrincipal, CoveringRules, RolesDelta, GroupDelta, Convertible;
    OnlyConvertibleBind(input, groups, g);
    if g.key.permission == Allow && g.key.host == "*" {
      assert Convertible(g.key) by { AllowEverywhere(g.key); }
      var p, _ := ConvertibleParts(input, groups, g);
      RolesOnce(input, g, p, CoveringRules(g, input.rules), {});
    }
  }

  lemma AllowEverywhere(k: Key)
    requires k.permission == Allow && k.host == "*"
    ensures Convertible(k)
  {
  }

  ghost predicate GivenInOrder(input: Input, groups: seq<AclGroup>, gs: seq<AclGroup>, b: Binding, c: Binding) {
    exists g, h :: g in gs && h in gs && Gives(input, groups, g, b) && Gives(input, groups, h, c)
                 && ((g == h && b.role != c.role) || KeyBefore(g.key, h.key))
  }

  ghost predicate AllInOrder(input: Input, groups: seq<AclGroup>, gs: seq<AclGroup>, bs: seq<Binding>) {
    forall i, j :: 0 <= i < j < |bs| ==> GivenInOrder(input, groups, gs, bs[i], bs[j])
  }

  lemma {:induction false} GroupsGiveInOrder(input: Input, groups: seq<AclGroup>, gs: seq<AclGroup>)
    requires GroupsDelta(input, groups, gs).Ok?
    requires forall m, n :: 0 <= m < n < |gs| ==> KeyBefore(gs[m].key, gs[n].key)
    ensures AllInOrder(input, groups, gs, GroupsDelta(input, groups, gs).value.bindings)
  {
    hide GroupDelta, KeyBefore;
    if gs != [] {
      GroupsGiveInOrder(input, groups, gs[1..]);
      GroupsCollect(input, groups, gs[1..]);
      var a, rest := GroupDelta(input, groups, gs[0]).value, GroupsDelta(input, groups, gs[1..]).value;
      assert GroupsDelta(input, groups, gs).value == a.Then(rest);
      GroupGivesRolesOnce(input, groups, gs[0]);
      hide GroupsDelta;
      OneMoreInOrder(input, groups, gs, a.bindings, rest.bindings);
    }
  }

  lemma OneMoreInOrder(input: Input, groups: seq<AclGroup>, gs: seq<AclGroup>, a: seq<Binding>, rest: seq<Binding>)
    requires gs != [] && AllInOrder(input, groups, gs[1..], rest)
    requires forall m, n :: 0 <= m < n < |gs| ==> KeyBefore(gs[m].key, gs[n].key)
    requires RolesDiffer(a) && forall b :: b in a ==> Gives(input, groups, gs[0], b)
    requires forall b :: b in rest ==> exists g :: g in gs[1..] && Gives(input, groups, g, b)
    ensures AllInOrder(input, groups, gs, a + rest)
  {
    hide Gives, KeyBefore;
    var bs := a + rest;
    forall i, j | 0 <= i < j < |bs| ensures GivenInOrder(input, groups, gs, bs[i], bs[j]) {
      if i < |a| {
        assert bs[i] in a;
        if j >= |a| {
          assert bs[j] in rest;
          var h :| h in gs[1..] && Gives(input, groups, h, bs[j]);
          var n :| 0 <= n < |gs[1..]| && gs[1..][n] == h;
          assert h == gs[n + 1];
        } else {
          assert bs[j] in a;
        }
        assert gs[0] in gs;
      } else {
        assert GivenInOrder(input, groups, gs[1..], rest[i - |a|], rest[j - |a|]);
      }
    }
  }

  lemma GivenToRow(input: Input, g: AclGroup, b: Binding, r: Row)
    requires DistinctIds(input.rows) && r in input.rows && r.id in b.sourceIds
    requires g in Normalized(input.rows) && Gives(input, Normalized(input.rows), g, b)
    ensures KeyOf(r) == g.key
  {
    hide Normalized, NGroup, GroupDelta, KeySet, GroupOf, MapPrincipal, CoveringRules, RoleClass;
    GroupIsNGroup(input, g);
    OnlyConvertibleBind(input, Normalized(input.rows), g);
    var _ := ConvertibleBinds(input, Normalized(input.rows), g, b);
    IdNamesRow(input.rows, g.key, r);
  }

  lemma GroupIsNGroup(input: Input, g: AclGroup)
    requires g in Normalized(input.rows)
    ensures g == NGroup(input, g.key)
  {
    hide Normalized, NormalizedGroup, GroupOf;
    NormalizedMembers(input.rows);
  }

  /** The bindings come in the order of their rows' groups, and those of one group have different roles. */
  lemma BindingsInOrder(input: Input, i: nat, j: nat, r: Row, s: Row)
    requires Planned(input).Ok? && DistinctIds(input.rows) && i < j < |Planned(input).value.bindings|
    requires r in input.rows && r.id in Planned(input).value.bindings[i].sourceIds
    requires s in input.rows && s.id in Planned(input).value.bindings[j].sourceIds
    ensures (SameGroup(r, s) && Planned(input).value.bindings[i].role != Planned(input).value.bindings[j].role)
            || KeyBefore(KeyOf(r), KeyOf(s))
  {
    var groups, bs := Normalized(input.rows), Planned(input).value.bindings;
    assert bs == GroupsDelta(input, groups, groups).value.bindings;
    GroupsInOrder(input.rows);
    hide Planned, GroupsDelta, GroupDelta, KeyBefore, Groups, Gives;
    forall m, n | 0 <= m < n < |groups| ensures KeyBefore(groups[m].key, groups[n].key) {
      assert groups[m].key == Groups(input.rows)[m].key && groups[n].key == Groups(input.rows)[n].key;
    }
    hide Normalized;
    GroupsGiveInOrder(input, groups, groups);
    assert GivenInOrder(input, groups, groups, bs[i], bs[j]);
    var g, h :| g in groups && h in groups && Gives(input, groups, g, bs[i]) && Gives(input, groups, h, bs[j])
                && ((g == h && bs[i].role != bs[j].role) || KeyBefore(g.key, h.key));
    GivenToRow(input, g, bs[i], r);
    GivenToRow(input, h, bs[j], s);
  }
}
