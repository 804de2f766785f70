/** The pipeline end to end: a plan that is applied without failures is found by both kinds of
    verification, and then lets its rows go. */
module Migration {
  import Ordering
  import opened Types
  import opened Kafka
  import opened Normalize
  import Match
  import opened Authorizer
  import opened Planner
  import opened Translation
  import opened Patterns
  import opened Mds
  import Apply
  import opened Verify
  import opened Eligibility
  import Outcomes
  import Reference
  import Rules

  /** A finished apply run without failures over the bindings of a plan, in a world where the bindings
      that were listed as existing are indeed stored. */
  ghost predicate Applied(input: Input, limit: nat, states: seq<Apply.State>, events: seq<Apply.Event>)
    requires Planned(input).Ok?
  {
    var bindings := Planned(input).value.bindings;
    && Apply.Run(bindings, limit, states, events)
    && Apply.Finished(bindings, states[|events|]) && Apply.NoFailure(states[|events|])
    && forall e :: e in input.existing ==> GrantsOf(e) <= states[0].store
  }

  /** Every binding of the plan is then stored: those posted, and those that existed. */
  lemma AppliedIsStored(input: Input, limit: nat, states: seq<Apply.State>, events: seq<Apply.Event>, b: Binding)
    requires Planned(input).Ok? && Applied(input, limit, states, events) && b in Planned(input).value.bindings
    ensures GrantsOf(b) <= states[|events|].store
  {
    var bindings := Planned(input).value.bindings;
    hide Planned;
    Apply.FinalStore(bindings, limit, states, events);
    if b.action != SkipExists {
      var i :| 0 <= i < |bindings| && bindings[i] == b;
      Apply.WantedHas(bindings, i);
    } else {
      hide Apply.Run, Apply.Finished, Apply.NoFailure, Apply.Wanted;
      Reference.SkippedIsHeld(input, b);
      var e :| e in input.existing && e.principal == b.principal && e.role == b.role && e.scope == b.scope
               && multiset(e.patterns) == multiset(b.patterns);
      Ordering.MemberOfPermutation(e.patterns, b.patterns);
      assert GrantsOf(e) == GrantsOf(b);
    }
  }

  /** Every binding of the plan is then found, whichever listing the service gives. */
  lemma AppliedPlanExists(
      input: Input, limit: nat, states: seq<Apply.State>, events: seq<Apply.Event>, b: Binding, listed: seq<Binding>)
    requires Planned(input).Ok? && b in Planned(input).value.bindings
    requires Applied(input, limit, states, events)
    requires Listing(states[|events|].store, b.principal, b.scope, listed)
    ensures ExistsVerdict(b, Some(listed)).status == BindingExists
  {
    AppliedIsStored(input, limit, states, events, b);
    var _ := BindingOrigin(input, b);
    hide Planned, Listing, Applied;
    MatchedIff(states[|events|].store, b, listed);
  }

  /** The service beside its store: role definitions, and the groups it resolves a principal to. */
  datatype Service = Service(roles: string -> Option<RoleOps>, groups: string -> set<string>)

  /** The principals whose roles count for a principal: itself and its groups. */
  function Holders(server: Service, principal: string): set<string> { {principal} + server.groups(principal) }

  /** A lookup reply names, for each of the holders and each role it has at the scope, the stored
      patterns; the client runs over all of them alike. */
  ghost predicate Reply(store: Store, holders: set<string>, scope: Scope, entries: seq<RoleEntry>) {
    && (forall h, role, p :: h in holders && p in PatternsAt(store, h, role, scope) ==>
          exists e :: e in entries && e.role == role && p in e.patterns)
    && (forall e, p :: e in entries && p in e.patterns ==> exists h :: h in holders && p in PatternsAt(store, h, e.role, scope))
  }

  /** What the role definitions of the service grant. */
  predicate Defines(server: Service, role: string, rt: ResourceType, op: Operation) {
    server.roles(role).Some? && op in OpsFor(server.roles(role).value, rt)
  }

  /** Some role stored for one of the holders at the scope, on a pattern that includes `p`, lists `op`
      itself. */
  ghost predicate StoreAllows(store: Store, server: Service, principal: string, scope: Scope, op: Operation, p: Pattern) {
    exists h, role, q :: h in Holders(server, principal) && q in PatternsAt(store, h, role, scope)
                         && Includes(q, p) && Defines(server, role, p.resourceType, op)
  }

  /** The service answers a lookup from what it stores. */
  ghost predicate Truthful(store: Store, server: Service, t: Task, answer: Option<seq<Grant>>) {
    answer.Some? && exists entries :: Reply(store, Holders(server, t.principal), t.scope, entries) && Grants(answer.value, entries, server)
  }

  ghost predicate Grants(grants: seq<Grant>, entries: seq<RoleEntry>, server: Service) {
    forall g :: g in grants <==> g in GrantsFor(entries, server.roles)
  }

  /** A lookup is allowed iff the store allows it. */
  lemma LookupIff(
      store: Store, server: Service, principal: string, scope: Scope, entries: seq<RoleEntry>, grants: seq<Grant>,
      op: Operation, p: Pattern)
    requires Reply(store, Holders(server, principal), scope, entries) && Grants(grants, entries, server)
    ensures LookupAllowed(grants, op, p) <==> StoreAllows(store, server, principal, scope, op, p)
  {
    LookupAllowedIff(grants, op, p);
    hide PatternsAt, Holders, LookupAllowed;
    if LookupAllowed(grants, op, p) {
      var g :| g in grants && g.operation == op && Includes(g.pattern, p);
      var e, q, o :| e in entries && server.roles(e.role).Some? && q in e.patterns
                     && o in OpsFor(server.roles(e.role).value, q.resourceType) && g == Grant(o, q);
      var h :| h in Holders(server, principal) && q in PatternsAt(store, h, e.role, scope);
      assert Defines(server, e.role, p.resourceType, op);
    }
    if StoreAllows(store, server, principal, scope, op, p) {
      var h, role, q :| h in Holders(server, principal) && q in PatternsAt(store, h, role, scope)
                        && Includes(q, p) && Defines(server, role, p.resourceType, op);
      var e :| e in entries && e.role == role && q in e.patterns;
      assert Grant(op, q) in GrantsFor(entries, server.roles);
    }
  }

  ghost predicate AllTruthful(d: Deletion, store: Store, server: Service)
    requires Planned(d.input).Ok? && |d.answers| == |TasksOf(Bindings(d))|
  {
    forall i :: 0 <= i < |d.answers| ==> Truthful(store, server, TasksOf(Bindings(d))[i], d.answers[i])
  }

  /** Whether the store allows an operation on a row's pattern, for the principal and at the scope the
      row was planned for. */
  ghost predicate OperationAllowed(input: Input, r: Row, op: Operation, store: Store, server: Service) {
    var m := MapPrincipal(r.principal, input.principals);
    m.Ok? && StoreAllows(store, server, m.value.resolved, ApplyScope(input.scopes, r.resourceType), op, PatternOf(r))
  }

  /** Whether the store confirms a row: its own operation. */
  ghost predicate RowAllowed(input: Input, r: Row, store: Store, server: Service) {
    OperationAllowed(input, r, r.operation, store, server)
  }

  lemma ConfirmedIff(d: Deletion, vs: seq<Verdict>, r: Row, store: Store, server: Service, i: nat)
    requires Verified(d, vs) && d.capable && AllTruthful(d, store, server) && r in d.input.rows
    requires i < |d.answers| && TasksOf(Bindings(d))[i].sourceId == r.id
    ensures Confirmed(d, r, d.answers[i]) <==> RowAllowed(d.input, r, store, server)
  {
    assert |d.answers| == |TasksOf(Bindings(d))|;
    hide Planned, MapPrincipal, LookupAllowed, StoreAllows, TasksOf, Reply, Grants, Verdicts;
    TaskOfRow(d, i, r);
    var t := TasksOf(Bindings(d))[i];
    assert Truthful(store, server, t, d.answers[i]);
    var entries :| Reply(store, Holders(server, t.principal), t.scope, entries) && Grants(d.answers[i].value, entries, server);
    LookupIff(store, server, t.principal, t.scope, entries, d.answers[i].value, r.operation, PatternOf(r));
  }

  /** When the answers come from a store, a row goes iff some listed binding with an id carries it and
      the store allows its own operation: some stored role lists that very operation. */
  lemma PickedFromStoreIff(d: Deletion, vs: seq<Verdict>, r: Row, store: Store, server: Service)
    requires Verified(d, vs) && d.capable && AllTruthful(d, store, server) && r in d.input.rows
    ensures r in Picked(d, vs) <==>
            (exists b :: b in Bindings(d) && Listed(d.principals, b.principal) && r.id in b.sourceIds && b.id != "")
            && RowAllowed(d.input, r, store, server)
  {
    PickedIff(d, vs, r);
    TasksAreThePairs(Bindings(d));
    var tasks := TasksOf(Bindings(d));
    hide Planned, TasksOf, Confirmed, Picked, RowAllowed, Verdicts;
    forall i | 0 <= i < |d.answers| && tasks[i].sourceId == r.id
      ensures Confirmed(d, r, d.answers[i]) <==> RowAllowed(d.input, r, store, server) {
      ConfirmedIff(d, vs, r, store, server, i);
    }
    if r in Picked(d, vs) {
      var b :| b in Bindings(d) && Listed(d.principals, b.principal) && r.id in b.sourceIds && b.id != "" && AllConfirmed(d, b, r);
      assert Task(b.id, b.principal, b.role, b.scope, r.id) in tasks;
    }
  }

  /** What the plan translates is stored after a failure-free apply: if the roles grant what the rules
      say of them, the store allows every operation a convertible row authorises, unless the plan
      warned that the operation is uncovered or left it unmapped. */
  lemma RequestIsAllowed(
      input: Input, r: Row, q: Request, limit: nat, states: seq<Apply.State>, events: seq<Apply.Event>, server: Service)
    requires Planned(input).Ok? && r in input.rows && r.permission == Allow && r.host == "*"
    requires KnownPatternType(r.patternType) && Matches(r, q) && Applied(input, limit, states, events)
    requires RolesGrantTheirRules((role, rt, op) => Defines(server, role, rt, op), input.rules, q.operation)
    ensures Fate(input, r, q.operation, states[|events|].store, server)
  {
    var store := states[|events|].store;
    hide Planned, MapPrincipal, Applied, Defines, KeySet, GroupOf, NGroup, RoleClass, Match.CoveringRules, Warned, Blocked, Matches;
    hide OperationAllowed, RolesGrantTheirRules;
    var defines := (role, rt, op) => Defines(server, role, rt, op);
    TranslationPreservesMeaning(input, r, q, defines);
    var p, mapped := Planned(input).value, MapPrincipal(r.principal, input.principals).value.resolved;
    if Granted(p, defines, mapped, r, q.operation) {
      var b :| b in p.bindings && b.principal == mapped && b.patterns == [PatternOf(r)] && r.id in b.sourceIds
               && defines(b.role, r.resourceType, q.operation);
      AppliedIsStored(input, limit, states, events, b);
      StoredIsAllowed(input, r, b, q.operation, store, server);
    }
  }

  /** What a stored binding's role lists is allowed to its rows. */
  lemma StoredIsAllowed(input: Input, r: Row, b: Binding, op: Operation, store: Store, server: Service)
    requires Planned(input).Ok? && b in Planned(input).value.bindings && b.patterns == [PatternOf(r)] && GrantsOf(b) <= store
    requires MapPrincipal(r.principal, input.principals).Ok?
    requires b.principal == MapPrincipal(r.principal, input.principals).value.resolved && Defines(server, b.role, r.resourceType, op)
    ensures OperationAllowed(input, r, op, store, server)
  {
    hide Planned, MapPrincipal, Defines, KeySet, GroupOf, NGroup, RoleClass, Match.CoveringRules;
    var k := BindingOrigin(input, b);
    assert KeyPattern(k) == b.patterns[0] == PatternOf(r);
    GrantsPresent(store, b);
    assert b.principal in Holders(server, b.principal) && PatternOf(r) in PatternsAt(store, b.principal, b.role, b.scope);
    assert Includes(PatternOf(r), PatternOf(r));
  }

  /** The three fates of an operation a row authorises. */
  ghost predicate Fate(input: Input, r: Row, op: Operation, store: Store, server: Service)
    requires Planned(input).Ok?
  {
    || OperationAllowed(input, r, op, store, server)
    || Warned(Planned(input).value, r, op)
    || Blocked(Planned(input).value, (role, rt, o) => Defines(server, role, rt, o), r, op)
  }

  lemma OwnRequest(r: Row, q: Request)
    requires r.permission == Allow && r.host == "*" && KnownPatternType(r.patternType) && r.operation != All
    requires q == Request(r.principal, "", r.operation, r.resourceType, r.resourceName)
    ensures Matches(r, q)
  {
  }

  /** In particular its own operation, of which the rules say nothing if it is `All`. */
  lemma TranslatedIsAllowed(
      input: Input, r: Row, limit: nat, states: seq<Apply.State>, events: seq<Apply.Event>, server: Service)
    requires Planned(input).Ok? && r in input.rows && r.permission == Allow && r.host == "*"
    requires KnownPatternType(r.patternType) && Applied(input, limit, states, events)
    requires r.operation != All ==>
               RolesGrantTheirRules((role, rt, op) => Defines(server, role, rt, op), input.rules, r.operation)
    ensures r.operation == All || Fate(input, r, r.operation, states[|events|].store, server)
  {
    if r.operation != All {
      var q := Request(r.principal, "", r.operation, r.resourceType, r.resourceName);
      OwnRequest(r, q);
      hide Planned, Applied, Matches, Fate;
      RequestIsAllowed(input, r, q, limit, states, events, server);
    }
  }

  /** The same for the lookup itself: it succeeds for what is translated, and for a row whose own
      operation is `All` iff some stored role lists `All`. */
  lemma TranslatedIsConfirmed(
      input: Input, r: Row, limit: nat, states: seq<Apply.State>, events: seq<Apply.Event>,
      server: Service, entries: seq<RoleEntry>, grants: seq<Grant>)
    requires Planned(input).Ok? && r in input.rows && r.permission == Allow && r.host == "*"
    requires KnownPatternType(r.patternType) && Applied(input, limit, states, events)
    requires r.operation != All ==>
               RolesGrantTheirRules((role, rt, op) => Defines(server, role, rt, op), input.rules, r.operation)
    requires MapPrincipal(r.principal, input.principals).Ok?
    requires Reply(states[|events|].store, Holders(server, MapPrincipal(r.principal, input.principals).value.resolved),
                   ApplyScope(input.scopes, r.resourceType), entries)
    requires Grants(grants, entries, server)
    ensures var p := Planned(input).value;
            if r.operation == All then
              LookupAllowed(grants, All, PatternOf(r)) <==>
              StoreAllows(states[|events|].store, server, MapPrincipal(r.principal, input.principals).value.resolved,
                          ApplyScope(input.scopes, r.resourceType), All, PatternOf(r))
            else
              || LookupAllowed(grants, r.operation, PatternOf(r))
              || Warned(p, r, r.operation)
              || Blocked(p, (role, rt, op) => Defines(server, role, rt, op), r, r.operation)
  {
    var store := states[|events|].store;
    hide Planned, MapPrincipal, Applied, Defines, LookupAllowed, StoreAllows, Reply, Grants, Warned, Blocked;
    var mapped := MapPrincipal(r.principal, input.principals).value.resolved;
    TranslatedIsAllowed(input, r, limit, states, events, server);
    LookupIff(store, server, mapped, ApplyScope(input.scopes, r.resourceType), entries, grants, r.operation, PatternOf(r));
  }

  /** The pipeline end to end: after a failure-free apply and an effective verification answered from
      the store, a bound row whose operation the plan neither warned about nor left blocked is picked
      for deletion, except that a row of `All` is picked iff some stored role lists `All`. */
  lemma MigratedRowGoes(
      d: Deletion, vs: seq<Verdict>, r: Row, b: Binding, limit: nat, states: seq<Apply.State>, events: seq<Apply.Event>,
      server: Service)
    requires Verified(d, vs) && d.capable && r in d.input.rows && KnownPatternType(r.patternType)
    requires b in Bindings(d) && r.id in b.sourceIds && b.id != "" && Listed(d.principals, b.principal)
    requires Applied(d.input, limit, states, events) && AllTruthful(d, states[|events|].store, server)
    requires r.operation != All ==>
               RolesGrantTheirRules((role, rt, op) => Defines(server, role, rt, op), d.input.rules, r.operation)
    requires !Warned(Planned(d.input).value, r, r.operation)
    requires !Blocked(Planned(d.input).value, (role, rt, op) => Defines(server, role, rt, op), r, r.operation)
    ensures r in Picked(d, vs) <==>
            r.operation != All || StoreAllows(states[|events|].store, server, b.principal, b.scope, All, PatternOf(r))
  {
    var store := states[|events|].store;
    hide Planned, MapPrincipal, Picked, Defines, Applied, Warned, Blocked, TasksOf, StoreAllows, Verdicts;
    hide KeySet, GroupOf, NGroup, RoleClass, Match.CoveringRules, Truthful;
    PickedFromStoreIff(d, vs, r, store, server);
    BindingsNeverWiden(d.input, b, r);
    var k := BindingOrigin(d.input, b);
    assert KeyPattern(k) == b.patterns[0] == PatternOf(r);
    TranslatedIsAllowed(d.input, r, limit, states, events, server);
  }

  // ---------------------------------------------------------------------------
  // Access survives

  /** Migration keeps access: after a failure-free apply, every request the inventory authorises is
      authorised by the rows that are left, or some row that went matches it and then the store allows
      the very operation requested, or the plan warned of it or left it unmapped. */
  lemma MigrationKeepsAccess(
      d: Deletion, vs: seq<Verdict>, q: Request, limit: nat, states: seq<Apply.State>, events: seq<Apply.Event>, server: Service)
    requires Verified(d, vs) && KnownPatterns(d.input.rows) && Authorized(d.input.rows, q)
    requires Applied(d.input, limit, states, events)
    requires RolesGrantTheirRules((role, rt, op) => Defines(server, role, rt, op), d.input.rules, q.operation)
    ensures Authorized(Left(d, vs), q)
            || exists r :: r in Picked(d, vs) && KnownPatternType(r.patternType) && Matches(r, q)
                           && Fate(d.input, r, q.operation, states[|events|].store, server)
  {
    hide Planned, Applied, Picked, Matches, Fate, Verdicts;
    if !Authorized(Left(d, vs), q) {
      var r := GoneMatch(d, vs, q);
      RequestIsAllowed(d.input, r, q, limit, states, events, server);
    }
  }

  // ---------------------------------------------------------------------------
  // A row of `All` that stays

  lemma ReplyExists(store: Store, holders: set<string>, scope: Scope) returns (entries: seq<RoleEntry>)
    ensures Reply(store, holders, scope, entries)
    decreases |holders|
  {
    entries := [];
    if holders != {} {
      var h :| h in holders;
      var rest := ReplyExists(store, holders - {h}, scope);
      var own := ReplyOfOne(store, h, scope);
      entries := own + rest;
      hide PatternsAt;
      forall x, role, p | x in holders && p in PatternsAt(store, x, role, scope)
        ensures exists e :: e in entries && e.role == role && p in e.patterns {
        if x == h {
          var e :| e in own && e.role == role && p in e.patterns;
          assert e in entries;
        } else {
          assert x in holders - {h};
          var e :| e in rest && e.role == role && p in e.patterns;
          assert e in entries;
        }
      }
      forall e, p | e in entries && p in e.patterns ensures exists x :: x in holders && p in PatternsAt(store, x, e.role, scope) {
        if e in own {
          assert p in PatternsAt(store, h, e.role, scope);
        } else {
          var x :| x in holders - {h} && p in PatternsAt(store, x, e.role, scope);
        }
      }
    }
  }

  lemma ReplyOfOne(store: Store, h: string, scope: Scope) returns (entries: seq<RoleEntry>)
    ensures forall role, p :: p in PatternsAt(store, h, role, scope) ==> exists e :: e in entries && e.role == role && p in e.patterns
    ensures forall e, p :: e in entries && p in e.patterns ==> p in PatternsAt(store, h, e.role, scope)
  {
    var roles := set g | g in store && g.principal == h && g.clusters == Clusters(scope) :: g.role;
    var listed := Apply.ListRoles(store, h, scope, roles);
    entries := seq(|listed|, i requires 0 <= i < |listed| => RoleEntry(listed[i].role, listed[i].patterns));
    forall role, p | p in PatternsAt(store, h, role, scope) ensures exists e :: e in entries && e.role == role && p in e.patterns {
      HasPattern(store, h, role, scope, p);
      assert Stored(h, role, Clusters(scope), p).role in roles;
      var b :| b in listed && b.role == role;
      var i :| 0 <= i < |listed| && listed[i] == b;
      assert entries[i] in entries && Aggregates(store, b);
    }
    forall e, p | e in entries && p in e.patterns ensures p in PatternsAt(store, h, e.role, scope) {
      var i :| 0 <= i < |listed| && entries[i] == e;
      assert listed[i] in listed && Aggregates(store, listed[i]);
    }
  }

  /** Every plan can be verified truthfully against every store. */
  lemma TruthfulVerification(input: Input, store: Store, server: Service) returns (d: Deletion, vs: seq<Verdict>)
    requires Planned(input).Ok? && DistinctIds(input.rows)
    ensures d.input == input && d.capable && !d.acceptUnknown && d.principals == []
    ensures Verified(d, vs) && AllTruthful(d, store, server)
  {
    hide Planned, TasksOf, Reply, OperationsById, ResourcesById;
    var tasks := TasksOf(Planned(input).value.bindings);
    var answers: seq<Option<seq<Grant>>> := [];
    while |answers| < |tasks|
      invariant |answers| <= |tasks|
      invariant forall i :: 0 <= i < |answers| ==> Truthful(store, server, tasks[i], answers[i])
    {
      var t := tasks[|answers|];
      var entries := ReplyExists(store, Holders(server, t.principal), t.scope);
      var grants := Apply.Enumerate(GrantsFor(entries, server.roles));
      assert Grants(grants, entries, server);
      answers := answers + [Some(grants)];
    }
    d := Deletion(input, true, answers, false, []);
    vs := seq(|tasks|, i requires 0 <= i < |tasks| =>
      EvalEffective(OperationsById(input.rows), ResourcesById(input.rows), true, tasks[i], answers[i]));
    forall i | 0 <= i < |vs| ensures IsVerdict(input.rows, tasks, true, answers, false, vs[i], i) {}
  }

  const ALL_ROW: Row := Row(1, "User:a", "*", All, Topic, "t", LITERAL, Allow)
  const ALL_RULE: Rules.Rule := Rules.Rule(Rules.When([All], Rules.ModeAny, Topic, Allow), "ResourceOwner", "kafka-cluster")

  /** One row of `All` and the rule for it. */
  function AllOnTopic(): Input {
    Input([ALL_ROW], [ALL_RULE], Principals(map[], false), Outcomes.SCOPES, [], (_, _, _, _) => "id")
  }

  /** A role that lists every operation of a topic, which the marker `All` is not. */
  function OwnerOps(role: string): Option<RoleOps> {
    if role == "ResourceOwner" then Some(map[Topic := AllImpliedOps(Topic)]) else None
  }

  function Owner(): Service { Service(OwnerOps, _ => {}) }

  lemma OwnerHasNoMarker(role: string, rt: ResourceType)
    ensures !Defines(Owner(), role, rt, All)
  {
  }

  lemma AllOnTopicSucceeds()
    ensures Planned(AllOnTopic()).Ok? && DistinctIds(AllOnTopic().rows) && ALL_ROW in AllOnTopic().rows
    ensures AllOnTopic().existing == [] && Rules.ValidRules(AllOnTopic().rules)
  {
    AllOnTopicShape();
    AllOnTopicFits();
    hide Planned, Outcomes.RowPlannable, AllOnTopic, Rules.ValidRules;
    Outcomes.PlanSucceedsIff(AllOnTopic());
  }

  lemma AllOnTopicShape()
    ensures AllOnTopic().rows == [ALL_ROW] && DistinctIds(AllOnTopic().rows) && ALL_ROW in AllOnTopic().rows
    ensures AllOnTopic().existing == [] && Rules.ValidRules(AllOnTopic().rules)
    ensures AllOnTopic().principals == Principals(map[], false) && AllOnTopic().scopes == Outcomes.SCOPES
    ensures ALL_RULE in AllOnTopic().rules
  {
  }

  lemma AllOnTopicFits()
    ensures Outcomes.RowPlannable(AllOnTopic(), ALL_ROW)
  {
    AllOnTopicShape();
    hide Reference.Fits, AllOnTopic;
  }

  /** A row of `All` is bound, nothing is warned about, the apply is clean and the roles grant every
      operation the row authorises, yet the row is reported missing and not picked. */
  ghost predicate BoundButStays(
      d: Deletion, vs: seq<Verdict>, r: Row, states: seq<Apply.State>, events: seq<Apply.Event>, server: Service) {
    && Verified(d, vs) && d.capable && r in d.input.rows && r.permission == Allow && r.host == "*"
    && Applied(d.input, 4, states, events) && AllTruthful(d, states[|events|].store, server)
    && Bound(Planned(d.input).value, r.id) && !LeftUnmapped(Planned(d.input).value, r.id) && !Warned(Planned(d.input).value, r, r.operation)
    && (forall op :: op != All && KafkaGrants(r.resourceType, r.operation, op) ==>
          RolesGrantTheirRules((role, rt, o) => Defines(server, role, rt, o), d.input.rules, op))
    && (exists i :: 0 <= i < |vs| && vs[i].sourceId == r.id && vs[i].status == EffectiveMissing)
    && r !in Picked(d, vs)
  }

  lemma OwnerGrantsTheRest(op: Operation)
    requires op != All && KafkaGrants(Topic, All, op)
    ensures RolesGrantTheirRules((role, rt, o) => Defines(Owner(), role, rt, o), AllOnTopic().rules, op)
  {
    assert AllOnTopic().rules == [ALL_RULE];
    assert Defines(Owner(), "ResourceOwner", Topic, op);
  }

  /** A lookup the service denies is reported missing. */
  lemma DeniedIsMissing(d: Deletion, vs: seq<Verdict>, r: Row, i: nat)
    requires Verified(d, vs) && d.capable && r in d.input.rows && i < |vs| && TasksOf(Bindings(d))[i].sourceId == r.id
    requires d.answers[i].Some? && !Confirmed(d, r, d.answers[i])
    ensures vs[i].sourceId == r.id && vs[i].status == EffectiveMissing
  {
    hide Planned, OperationsById, ResourcesById, LookupAllowed, TasksOf;
    SourceOfRow(d.input.rows, r);
    assert IsVerdict(d.input.rows, TasksOf(Bindings(d)), d.capable, d.answers, d.acceptUnknown, vs[i], i);
  }

  /** Where the store does not allow a bound row's own operation, some verdict says so. */
  lemma SomeVerdictMissing(d: Deletion, vs: seq<Verdict>, r: Row, store: Store, server: Service) returns (i: nat)
    requires Verified(d, vs) && d.capable && AllTruthful(d, store, server) && r in d.input.rows
    requires Bound(Planned(d.input).value, r.id) && !RowAllowed(d.input, r, store, server)
    ensures i < |vs| && vs[i].sourceId == r.id && vs[i].status == EffectiveMissing
  {
    hide Planned, TasksOf, Confirmed, RowAllowed, Verified, Grants, Reply;
    OneAnswerPerTask(d, vs);
    TasksAreThePairs(Bindings(d));
    var b :| b in Bindings(d) && r.id in b.sourceIds;
    var t := Task(b.id, b.principal, b.role, b.scope, r.id);
    assert t in TasksOf(Bindings(d));
    i :| 0 <= i < |vs| && TasksOf(Bindings(d))[i] == t;
    ConfirmedIff(d, vs, r, store, server, i);
    assert Truthful(store, server, t, d.answers[i]);
    DeniedIsMissing(d, vs, r, i);
  }

  lemma NothingWarned(input: Input)
    requires Planned(input).Ok?
    ensures forall w :: w in Planned(input).value.warnings && w.PartialRuleCoverage? ==> All !in w.missing
  {
    hide Normalized, GroupDelta;
    WarnedFromGroups(input, Normalized(input.rows), Normalized(input.rows));
  }

  lemma {:induction false} WarnedFromGroups(input: Input, groups: seq<AclGroup>, gs: seq<AclGroup>)
    requires GroupsDelta(input, groups, gs).Ok?
    ensures forall w :: w in GroupsDelta(input, groups, gs).value.warnings && w.PartialRuleCoverage? ==> All !in w.missing
  {
    if gs != [] {
      WarnedFromGroups(input, groups, gs[1..]);
      GroupNeverWarnsOfAll(input, groups, gs[0]);
      hide GroupDelta;
    }
  }

  lemma GroupNeverWarnsOfAll(input: Input, groups: seq<AclGroup>, g: AclGroup)
    requires GroupDelta(input, groups, g).Ok?
    ensures forall w :: w in GroupDelta(input, groups, g).value.warnings && w.PartialRuleCoverage? ==> All !in w.missing
  {
    var p := MapPrincipal(g.key.principal, input.principals);
    hide MapPrincipal, Match.CoveringRules, Match.CoveredBy, ScopePresent, HasPrefixedTopicAllow;
    if p.Ok? { RolesNeverWarnOfCoverage(input, g, p.value.resolved, Match.CoveringRules(g, input.rules), {}); }
    hide RolesDelta;
  }

  lemma {:induction false} RolesNeverWarnOfCoverage(input: Input, g: AclGroup, p: string, rules: seq<Rules.Rule>, seen: set<string>)
    ensures forall w :: w in RolesDelta(input, g, p, rules, seen).warnings ==> !w.PartialRuleCoverage?
  {
    if rules != [] {
      RolesNeverWarnOfCoverage(input, g, p, rules[1..], seen);
      RolesNeverWarnOfCoverage(input, g, p, rules[1..], seen + {rules[0].role});
      assert forall w :: w in RoleDelta(input, g, p, rules[0].role).warnings ==> !w.PartialRuleCoverage? by { hide ExistingClass, BindingFor; }
      hide RoleDelta;
    }
  }

  lemma AllRowMayStay()
    ensures exists d, vs, r: Row, states, events, server :: r.operation == All && BoundButStays(d, vs, r, states, events, server)
  {
    hide Planned, AllOnTopic, Picked, TasksOf, Verified, AllTruthful, Applied, Bound, LeftUnmapped, Warned, RowAllowed, BoundButStays;
    AllOnTopicSucceeds();
    var states, events := AllOnTopicApplies();
    var d, vs := TruthfulVerification(AllOnTopic(), states[|events|].store, Owner());
    AllRowStays(d, vs, states, events);
    assert BoundButStays(d, vs, ALL_ROW, states, events, Owner());
  }

  lemma AllOnTopicApplies() returns (states: seq<Apply.State>, events: seq<Apply.Event>)
    ensures Planned(AllOnTopic()).Ok? && |states| == |events| + 1 && Applied(AllOnTopic(), 4, states, events)
  {
    hide Planned, AllOnTopic, Apply.Finished, Apply.NoFailure;
    AllOnTopicSucceeds();
    assert Apply.Clamp(4) == 4;
    states, events := Apply.CleanRunExists(Planned(AllOnTopic()).value.bindings, 4, {});
  }

  lemma AllRowIsPlaced()
    ensures Planned(AllOnTopic()).Ok?
    ensures var p := Planned(AllOnTopic()).value;
            Bound(p, ALL_ROW.id) && !LeftUnmapped(p, ALL_ROW.id) && !Warned(p, ALL_ROW, All)
  {
    hide Planned, AllOnTopic, Match.CoveringRules, NGroup;
    AllOnTopicSucceeds();
    assert ALL_RULE in AllOnTopic().rules by { AllOnTopicShape(); }
    assert All in ALL_RULE.when.operations;
    Outcomes.AnyRuleSelects(AllOnTopic(), ALL_ROW, ALL_RULE);
    FreshRowIsBound(AllOnTopic(), ALL_ROW);
    FreshPlanPartitions(AllOnTopic(), ALL_ROW);
    NothingWarned(AllOnTopic());
  }

  lemma OwnerNeverAllowsAll(input: Input, store: Store)
    ensures !RowAllowed(input, ALL_ROW, store, Owner())
  {
    forall role, rt ensures !Defines(Owner(), role, rt, All) { OwnerHasNoMarker(role, rt); }
    hide MapPrincipal, Defines, PatternsAt;
  }

  lemma AllRowStays(d: Deletion, vs: seq<Verdict>, states: seq<Apply.State>, events: seq<Apply.Event>)
    requires d.input == AllOnTopic() && Verified(d, vs) && d.capable
    requires |states| == |events| + 1 && Applied(AllOnTopic(), 4, states, events)
    requires AllTruthful(d, states[|events|].store, Owner())
    ensures BoundButStays(d, vs, ALL_ROW, states, events, Owner())
  {
    var store := states[|events|].store;
    hide Planned, AllOnTopic, Picked, TasksOf, Verified, AllTruthful, Applied, Bound, LeftUnmapped, Warned, RowAllowed, RolesGrantTheirRules;
    hide KafkaGrants;
    AllOnTopicSucceeds();
    AllRowIsPlaced();
    OwnerNeverAllowsAll(d.input, store);
    PickedFromStoreIff(d, vs, ALL_ROW, store, Owner());
    var _ := SomeVerdictMissing(d, vs, ALL_ROW, store, Owner());
    forall op | op != All && KafkaGrants(ALL_ROW.resourceType, ALL_ROW.operation, op)
      ensures RolesGrantTheirRules((role, rt, o) => Defines(Owner(), role, rt, o), d.input.rules, op) {
      OwnerGrantsTheRest(op);
    }
  }
}
