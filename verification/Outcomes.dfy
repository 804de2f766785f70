/** When planning succeeds, and a plan in which one row lands in two places. */
module Outcomes {
  import opened Types
  import opened Normalize
  import opened Rules
  import opened Match
  import opened Patterns
  import opened Planner
  import opened Translation
  import opened Reference

  /** What a row needs for the plan to succeed: a principal the configuration maps or lets pass and, if
      some rule fits its group, a cluster for its kind of resource. */
  ghost predicate RowPlannable(input: Input, r: Row) {
    r.permission == Allow && r.host == "*" ==>
      && (r.principal in input.principals.mappings || !input.principals.fallbackFail)
      && ((exists rule :: rule in input.rules && Fits(input.rows, r, rule)) ==> HasCluster(input.scopes, r.resourceType))
  }

  predicate HasCluster(s: Scope, rt: ResourceType) {
    if rt == Subject then s.schemaRegistryCluster != "" else s.kafkaCluster != ""
  }

  lemma {:induction false} AllGroupsSucceed(input: Input, groups: seq<AclGroup>, gs: seq<AclGroup>)
    ensures GroupsDelta(input, groups, gs).Ok? <==> forall g :: g in gs ==> GroupDelta(input, groups, g).Ok?
  {
    hide GroupDelta;
    if gs != [] {
      AllGroupsSucceed(input, groups, gs[1..]);
      assert gs == [gs[0]] + gs[1..];
    }
  }

  lemma GroupSucceedsIff(input: Input, groups: seq<AclGroup>, g: AclGroup)
    ensures GroupDelta(input, groups, g).Ok? <==>
            (Convertible(g.key) ==>
               MapPrincipal(g.key.principal, input.principals).Ok?
               && (CoveringRules(g, input.rules) != [] ==> ScopePresent(input.scopes, g.key.resourceType)))
  {
    hide MapPrincipal, CoveringRules, RolesDelta, MtlsWarnings, LoneCreateWarnings, CoverageWarnings, ScopePresent;
  }

  lemma RowGroupSucceedsIff(input: Input, r: Row)
    requires ValidRules(input.rules) && r in input.rows
    ensures GroupDelta(input, Normalized(input.rows), NGroup(input, KeyOf(r))).Ok? <==> RowPlannable(input, r)
  {
    hide Normalized, NGroup, GroupDelta, Fits, CoveringRules, CallsForSome, ValidRules;
    GroupSucceedsIff(input, Normalized(input.rows), NGroup(input, KeyOf(r)));
    if Plannable(r) {
      NothingSelectedIff(input, r);
      CallsForSomeIff(input, r);
    }
  }

  /** Planning succeeds iff every convertible row can be mapped and, where rules match it, placed. */
  lemma PlanSucceedsIff(input: Input)
    requires ValidRules(input.rules)
    ensures Planned(input).Ok? <==> forall r :: r in input.rows ==> RowPlannable(input, r)
  {
    var groups := Normalized(input.rows);
    AllGroupsSucceed(input, groups, groups);
    NormalizedMembers(input.rows);
    hide NormalizedGroup, GroupOf, Normalized, GroupDelta, RowPlannable, GroupsDelta;
    forall r | r in input.rows ensures NGroup(input, KeyOf(r)) in groups
                               ensures GroupDelta(input, groups, NGroup(input, KeyOf(r))).Ok? <==> RowPlannable(input, r) {
      assert KeyOf(r) in KeySet(input.rows);
      RowGroupSucceedsIff(input, r);
    }
    forall g | g in groups ensures exists r :: r in input.rows && g == NGroup(input, KeyOf(r)) {
      var r :| r in input.rows && KeyOf(r) == g.key;
    }
  }

  lemma {:induction false} SomeGroupFails(input: Input, groups: seq<AclGroup>, gs: seq<AclGroup>)
    requires GroupsDelta(input, groups, gs).Err?
    ensures exists g :: g in gs && GroupDelta(input, groups, g) == Err(GroupsDelta(input, groups, gs).error)
  {
    hide GroupDelta;
    assert gs == [gs[0]] + gs[1..];
    if GroupDelta(input, groups, gs[0]).Err? {
      assert gs[0] in gs;
    } else {
      SomeGroupFails(input, groups, gs[1..]);
      var g :| g in gs[1..] && GroupDelta(input, groups, g) == Err(GroupsDelta(input, groups, gs[1..]).error);
      assert g in gs;
    }
  }

  /** What an error says of a row. */
  ghost predicate Explains(input: Input, e: PlanError, r: Row) {
    match e
    case PrincipalUnmapped(p) => r.principal == p && p !in input.principals.mappings && input.principals.fallbackFail
    case ScopeMissing(rt) => r.resourceType == rt && CallsForSome(input, r) && !HasCluster(input.scopes, rt)
  }

  lemma GroupErrorExplained(input: Input, groups: seq<AclGroup>, r: Row, e: PlanError)
    requires GroupDelta(input, groups, NGroup(input, KeyOf(r))) == Err(e)
    ensures Plannable(r) && Explains(input, e, r)
  {
    hide CoveringRules, RolesDelta, MtlsWarnings, LoneCreateWarnings, CoverageWarnings, NGroup, CallsForSome;
    assert Plannable(r);
    NothingSelectedIff(input, r);
  }

  /** A plan that fails names a row's principal that is not mapped, or a row's kind of resource that has
      no cluster although a rule applies. */
  lemma PlanErrorIsExplained(input: Input)
    requires Planned(input).Err?
    ensures exists r :: r in input.rows && Plannable(r) && Explains(input, Planned(input).error, r)
  {
    var groups := Normalized(input.rows);
    hide Normalized, GroupDelta, GroupsDelta, NGroup, Explains;
    SomeGroupFails(input, groups, groups);
    var g :| g in groups && GroupDelta(input, groups, g) == Err(Planned(input).error);
    GroupIsNGroup(input, g);
    NormalizedHasKey(input.rows, g);
    var r := RowOfKey(input.rows, g.key);
    GroupErrorExplained(input, groups, r, Planned(input).error);
  }

  lemma NormalizedHasKey(rows: seq<Row>, g: AclGroup)
    requires g in Normalized(rows)
    ensures g.key in KeySet(rows)
  {
    hide Normalized, NormalizedGroup, GroupOf, KeySet;
    NormalizedMembers(rows);
  }

  /** A bound group always has a scope. */
  lemma BoundHasScope(input: Input, b: Binding, k: Key)
    requires Planned(input).Ok? && k in KeySet(input.rows) && Convertible(k)
    requires CoveringRules(NGroup(input, k), input.rules) != []
    ensures ScopePresent(input.scopes, k.resourceType)
  {
    hide Planned, Normalized, GroupOf, NormalizedGroup, CoveringRules;
    var _, _ := GroupInPlan(input, k);
    GroupSucceedsIff(input, Normalized(input.rows), NGroup(input, k));
  }

  /** A rule that lists the operation of a row of its kind, in mode any, gets some rule selected. */
  lemma AnyRuleSelects(input: Input, r: Row, rule: Rule)
    requires ValidRules(input.rules) && r in input.rows && rule in input.rules
    requires rule.when.mode == ModeAny && r.operation in rule.when.operations
    requires rule.when.resourceType == r.resourceType && rule.when.permission == r.permission
    ensures CoveringRules(NGroup(input, KeyOf(r)), input.rules) != []
  {
    var g := NGroup(input, KeyOf(r));
    RowInItsGroup(input.rows, r);
    assert r.operation in g.operations by { hide GroupOf; }
    NormalizedHasConcrete(input.rows, r);
    hide NormalizedGroup, GroupOf, CoveringRules;
    assert MatchesRule(g, rule);
    EmptyIffNoMatch(g, input.rules);
  }

  // ---------------------------------------------------------------------------
  // A row in two places

  const ROW: Row := Row(1, "User:a", "*", Read, Topic, "t", LITERAL, Allow)
  const DESCRIBE_RULE: Rule := Rule(When([Describe], ModeAny, Topic, Allow), "R1", "kafka-cluster")
  const READ_RULE: Rule := Rule(When([Read], ModeAny, Topic, Allow), "R2", "kafka-cluster")
  const SCOPES: Scope := Scope("", "", "kafka", "", "", "")

  /** One row, two rules that each cover one of its operations, and an existing binding of the first
      role on another topic. */
  function TwoPlaces(): Input {
    Input([ROW], [DESCRIBE_RULE, READ_RULE], Principals(map[], false), SCOPES,
          [Binding("b0", SkipExists, "User:a", "R1", SCOPES, [Pattern(Topic, "other", LITERAL)], [])],
          (_, _, _, _) => "id")
  }

  /** Reading a topic also lets one describe it. */
  lemma ReadGroup()
    ensures NGroup(TwoPlaces(), KeyOf(ROW)).operations == {Read, Describe}
  {
    var rows := TwoPlaces().rows;
    var g := NGroup(TwoPlaces(), KeyOf(ROW));
    assert rows == [ROW];
    forall op ensures op in g.operations <==> op in {Read, Describe} {
      NormalizedIsWhatRowsGrant(rows, KeyOf(ROW), op);
      assert ROW in rows;
    }
  }

  lemma BothRulesSelected()
    ensures CoveringRules(NGroup(TwoPlaces(), KeyOf(ROW)), TwoPlaces().rules) == [DESCRIBE_RULE, READ_RULE]
  {
    ReadGroup();
    var g, rules := NGroup(TwoPlaces(), KeyOf(ROW)), TwoPlaces().rules;
    hide NormalizedGroup, GroupOf, NGroup;
    assert Concrete(g) == {Read, Describe};
    assert Describe in DESCRIBE_RULE.when.operations && Read in READ_RULE.when.operations;
    assert DESCRIBE_RULE.when.operations[1..] == [] && CoveredFrom(g, []) == {} && ImpliedOps(Describe) == {};
    assert DESCRIBE_RULE.when.operations[0] == Describe;
    assert RuleCoveredOps(g, DESCRIBE_RULE) == {Describe};
    assert Describe in RuleCoveredOps(g, DESCRIBE_RULE) * {Read, Describe};
    assert {Read, Describe} - {Describe} == {Read};
    assert Read in RuleCoveredOps(g, READ_RULE) * {Read};
    assert rules[1..] == [READ_RULE] && rules[1..][1..] == [];
    assert Cover(g, rules[1..], {Read}) == [READ_RULE];
  }

  /** With existing bindings a row need not end up in exactly one place: here it is both bound and
      unmapped. */
  lemma OneRowInTwoPlaces()
    ensures exists input, r :: Planned(input).Ok? && DistinctIds(input.rows) && ValidRules(input.rules) && r in input.rows
                               && Bound(Planned(input).value, r.id) && LeftUnmapped(Planned(input).value, r.id)
  {
    TwoPlacesSucceeds();
    TwoPlacesSplit();
    assert ROW in TwoPlaces().rows && DistinctIds(TwoPlaces().rows);
    hide Planned, Split, TwoPlaces;
    SplitIsBoth(TwoPlaces(), ROW);
  }

  lemma RowFits()
    ensures RowPlannable(TwoPlaces(), ROW)
  {
    hide Fits;
  }

  lemma TwoPlacesSucceeds()
    ensures Planned(TwoPlaces()).Ok? && ValidRules(TwoPlaces().rules)
  {
    var input := TwoPlaces();
    assert ValidRules(input.rules);
    RowFits();
    assert input.rows == [ROW];
    hide NGroup, Planned, RowPlannable, TwoPlaces, ValidRules;
    PlanSucceedsIff(input);
  }

  lemma TwoPlacesSplit()
    ensures Split(TwoPlaces(), KeyOf(ROW))
  {
    var input, k := TwoPlaces(), KeyOf(ROW);
    var rules := CoveringRules(NGroup(input, k), input.rules);
    BothRulesSelected();
    FirstRoleBlocked();
    SecondRoleFree();
    hide RoleClass, NGroup, CoveringRules;
    assert rules == [DESCRIBE_RULE, READ_RULE] && rules[0] in rules && rules[1] in rules;
  }

  lemma FirstRoleBlocked()
    ensures RoleClass(TwoPlaces(), NGroup(TwoPlaces(), KeyOf(ROW)), "User:a", "R1") == SameRoleOtherResources
  {
  }

  lemma SecondRoleFree()
    ensures RoleClass(TwoPlaces(), NGroup(TwoPlaces(), KeyOf(ROW)), "User:a", "R2") == NoMatch
  {
  }
}
