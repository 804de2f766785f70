/** The generator of DENY removals and the gates of each removal (pkg/aclrbac/delete/deny). */
module DenyGates {
  import opened Types
  import opened Kafka
  import opened Normalize
  import opened Authorizer
  import opened DenyAnalysis
  import opened Planner
  import opened Rules
  import opened Match
  import opened Translation
  import opened Outcomes
  import Reference
  import opened Mds
  import opened Scripts
  import opened RoundTrip
  import opened Broker

  /** The generator's map of statuses: the last entry of an id wins. */
  function LastStatus(es: seq<DenyEntry>, id: int): Option<DenyStatus> {
    if es == [] then None
    else if es[|es| - 1].sourceId == id then Some(es[|es| - 1].status)
    else LastStatus(es[..|es| - 1], id)
  }

  /** The gate's scan: the first entry of an id wins. */
  function DenyStatusFor(es: seq<DenyEntry>, id: int): Option<DenyStatus> {
    if es == [] then None else if es[0].sourceId == id then Some(es[0].status) else DenyStatusFor(es[1..], id)
  }

  function FindRow(rows: seq<Row>, id: int): Option<Row> {
    if rows == [] then None else if rows[0].id == id then Some(rows[0]) else FindRow(rows[1..], id)
  }

  predicate Removable(p: Plan, principals: seq<string>, r: Row) {
    && r.permission == Deny && r.principal in principals && !IsWildcardPrincipal(r.principal)
    && InRejected(p, r.id) && LastStatus(p.denyAnalysis, r.id) == Some(SafeToRemove)
  }

  function RemovableRows(p: Plan, principals: seq<string>, rows: seq<Row>): seq<Row> {
    if rows == [] then [] else
      var r := rows[|rows| - 1];
      RemovableRows(p, principals, rows[..|rows| - 1]) + (if Removable(p, principals, r) then [r] else [])
  }

  lemma {:induction false} RemovableMembers(p: Plan, principals: seq<string>, rows: seq<Row>, r: Row)
    ensures r in RemovableRows(p, principals, rows) <==> r in rows && Removable(p, principals, r)
  {
    if rows != [] {
      assert rows == rows[..|rows| - 1] + [rows[|rows| - 1]];
      RemovableMembers(p, principals, rows[..|rows| - 1], r);
    }
  }

  /** The walk keeps the order: what is picked of a list is what is picked of its parts. */
  lemma {:induction false} RemovableConcat(p: Plan, principals: seq<string>, a: seq<Row>, b: seq<Row>)
    ensures RemovableRows(p, principals, a + b) == RemovableRows(p, principals, a) + RemovableRows(p, principals, b)
  {
    hide Removable;
    if b == [] {
      assert a + b == a;
    } else {
      assert (a + b)[..|a + b| - 1] == a + b[..|b| - 1];
      RemovableConcat(p, principals, a, b[..|b| - 1]);
    }
  }

  method PickEligibleDeny(p: Plan, rows: seq<Row>, principals: seq<string>) returns (out: seq<Row>)
    ensures out == RemovableRows(p, principals, rows)
  {
    var principalSet: set<string> := {};
    for i := 0 to |principals|
      invariant forall x :: x in principalSet <==> x in principals[..i]
    {
      assert principals[..i + 1] == principals[..i] + [principals[i]];
      principalSet := principalSet + {principals[i]};
    }
    assert principals[..|principals|] == principals;
    var denyStatus: map<int, DenyStatus> := map[];
    for i := 0 to |p.denyAnalysis|
      invariant forall id :: LastStatus(p.denyAnalysis[..i], id) == if id in denyStatus then Some(denyStatus[id]) else None
    {
      var e := p.denyAnalysis[i];
      assert p.denyAnalysis[..i + 1][..i] == p.denyAnalysis[..i];
      denyStatus := denyStatus[e.sourceId := e.status];
    }
    assert p.denyAnalysis[..|p.denyAnalysis|] == p.denyAnalysis;
    out := [];
    for i := 0 to |rows|
      invariant out == RemovableRows(p, principals, rows[..i])
    {
      var r := rows[i];
      assert rows[..i + 1][..i] == rows[..i];
      if r.permission != Deny { continue; }
      if r.principal !in principalSet { continue; }
      if IsWildcardPrincipal(r.principal) { continue; }
      if !InRejected(p, r.id) { continue; }
      if r.id in denyStatus && denyStatus[r.id] == SafeToRemove { out := out + [r]; }
    }
    assert rows[..|rows|] == rows;
  }

  // ---------------------------------------------------------------------------
  // One removal

  datatype Refusal =
    | EnvUnreadable | BadHandshake | PlanChanged | VerifyOfOtherPlan | AclsUnreadable | NoSuchRow | NotDeny
    | WildcardPrincipal | PlanUnreadable | AclsChanged | NotRejected | NoAnalysis | NotSafe(status: DenyStatus)
    | NoMdsToken | NoMdsClient

  datatype Outcome =
    | Refused(why: Refusal)
    | AuthFailed
    | SkippedUnknown
    | SkippedWouldGrant
    | Removed(args: seq<string>)
    | RemovalFailed(args: seq<string>)

  /** What the service answered to the live check. */
  datatype Live = Grants(grants: seq<Grant>) | LookupFailed(auth: bool)

  /** What the call finds around it: which of its files can be read, the token of runtime.env and the
      caller's, the outcomes of the three hash comparisons, and whether the client comes up. */
  datatype Evidence = Evidence(
    envRead: bool, envToken: string, callerToken: string, planIntact: bool, verifyBound: bool, aclsRead: bool,
    planRead: bool, aclsMatch: bool, tokenResolved: bool, clientBuilt: bool)

  /** The scope of the live check: that of the plan's first binding. */
  function PlanScope(p: Plan): Scope {
    if p.bindings == [] then Scope("", "", "", "", "", "") else p.bindings[0].scope
  }

  /** Each gate's reason to refuse, on its own. */
  predicate Blocks(e: Evidence, p: Plan, rows: seq<Row>, id: int, w: Refusal) {
    match w
    case EnvUnreadable => !e.envRead
    case BadHandshake => e.envToken == "" || e.envToken != e.callerToken
    case PlanChanged => !e.planIntact
    case VerifyOfOtherPlan => !e.verifyBound
    case AclsUnreadable => !e.aclsRead
    case NoSuchRow => FindRow(rows, id).None?
    case NotDeny => FindRow(rows, id).Some? && FindRow(rows, id).value.permission != Deny
    case WildcardPrincipal => FindRow(rows, id).Some? && IsWildcardPrincipal(FindRow(rows, id).value.principal)
    case PlanUnreadable => !e.planRead
    case AclsChanged => !e.aclsMatch
    case NotRejected => !InRejected(p, id)
    case NoAnalysis => DenyStatusFor(p.denyAnalysis, id).None?
    case NotSafe(s) => DenyStatusFor(p.denyAnalysis, id) == Some(s) && s != SafeToRemove
    case NoMdsToken => !e.tokenResolved
    case NoMdsClient => !e.clientBuilt
  }

  /** The order of the gates. */
  function GateNumber(w: Refusal): nat {
    match w
    case EnvUnreadable => 0 case BadHandshake => 1 case PlanChanged => 2 case VerifyOfOtherPlan => 3
    case AclsUnreadable => 4 case NoSuchRow => 5 case NotDeny => 6 case WildcardPrincipal => 7 case PlanUnreadable => 8
    case AclsChanged => 9 case NotRejected => 10 case NoAnalysis => 11 case NotSafe(_) => 12 case NoMdsToken => 13
    case NoMdsClient => 14
  }

  predicate Trusted(e: Evidence) {
    && e.envRead && e.envToken != "" && e.envToken == e.callerToken && e.planIntact && e.verifyBound
    && e.aclsRead && e.planRead && e.aclsMatch && e.tokenResolved && e.clientBuilt
  }

  /** The gates in order, then the live check and the removal; `live` is the answer at the plan's scope
      and `exec` says whether an invocation works. A refusal names the first gate that blocks. */
  method RunOne(
    e: Evidence, p: Plan, rows: seq<Row>, id: int, live: (string, Scope) -> Live, o: Options, exec: seq<string> -> bool)
    returns (out: Outcome)
    ensures out.Refused? <==> !(Trusted(e) && PassesGates(p, rows, id))
    ensures out.Refused? ==> Blocks(e, p, rows, id, out.why) && forall w :: Blocks(e, p, rows, id, w) ==> GateNumber(out.why) <= GateNumber(w)
    ensures Trusted(e) && PassesGates(p, rows, id) ==>
              var r := FindRow(rows, id).value;
              match live(r.principal, PlanScope(p))
              case Grants(gs) =>
                out == if PrincipalGrantOverlaps(gs, r.operation, PatternOf(r)) then SkippedWouldGrant
                       else if exec(DenyRemoveArgs(r, o)) then Removed(DenyRemoveArgs(r, o))
                       else RemovalFailed(DenyRemoveArgs(r, o))
              case LookupFailed(auth) => out == if auth then AuthFailed else SkippedUnknown
  {
    hide DenyRemoveArgs, PrincipalGrantOverlaps, FindRow, DenyStatusFor, InRejected, IsWildcardPrincipal;
    if !e.envRead { return Refused(EnvUnreadable); }
    if e.envToken == "" || e.envToken != e.callerToken { return Refused(BadHandshake); }
    if !e.planIntact { return Refused(PlanChanged); }
    if !e.verifyBound { return Refused(VerifyOfOtherPlan); }
    if !e.aclsRead { return Refused(AclsUnreadable); }
    var found := FindRow(rows, id);
    if found.None? { return Refused(NoSuchRow); }
    var row := found.value;
    if row.permission != Deny { return Refused(NotDeny); }
    if IsWildcardPrincipal(row.principal) { return Refused(WildcardPrincipal); }
    if !e.planRead { return Refused(PlanUnreadable); }
    if !e.aclsMatch { return Refused(AclsChanged); }
    if !InRejected(p, id) { return Refused(NotRejected); }
    var status := DenyStatusFor(p.denyAnalysis, id);
    if status.None? { return Refused(NoAnalysis); }
    if status.value != SafeToRemove { return Refused(NotSafe(status.value)); }
    if !e.tokenResolved { return Refused(NoMdsToken); }
    if !e.clientBuilt { return Refused(NoMdsClient); }
    match live(row.principal, PlanScope(p)) {
      case LookupFailed(auth) => return if auth then AuthFailed else SkippedUnknown;
      case Grants(grants) =>
        if PrincipalGrantOverlaps(grants, row.operation, PatternOf(row)) { return SkippedWouldGrant; }
        var args := DenyRemoveArgs(row, o);
        return if exec(args) then Removed(args) else RemovalFailed(args);
    }
  }

  predicate PassesGates(p: Plan, rows: seq<Row>, id: int) {
    var found := FindRow(rows, id);
    && found.Some? && found.value.permission == Deny && !IsWildcardPrincipal(found.value.principal)
    && InRejected(p, id) && DenyStatusFor(p.denyAnalysis, id) == Some(SafeToRemove)
  }

  lemma {:induction false} FindRowFinds(rows: seq<Row>, id: int)
    ensures FindRow(rows, id).Some? ==> FindRow(rows, id).value in rows && FindRow(rows, id).value.id == id
    ensures FindRow(rows, id).None? ==> forall r :: r in rows ==> r.id != id
  {
    if rows != [] {
      FindRowFinds(rows[1..], id);
      assert rows == [rows[0]] + rows[1..];
    }
  }

  /** All entries of an id agree, so first and last coincide. */
  ghost predicate OneStatus(es: seq<DenyEntry>, id: int, s: DenyStatus) {
    DenyEntry(id, s) in es && forall e :: e in es && e.sourceId == id ==> e.status == s
  }

  lemma {:induction false} LastStatusIs(es: seq<DenyEntry>, id: int, s: DenyStatus)
    requires OneStatus(es, id, s)
    ensures LastStatus(es, id) == Some(s)
  {
    var init, last := es[..|es| - 1], es[|es| - 1];
    assert es == init + [last];
    if last.sourceId != id { LastStatusIs(init, id, s); }
  }

  lemma {:induction false} FirstStatusIs(es: seq<DenyEntry>, id: int, s: DenyStatus)
    requires OneStatus(es, id, s)
    ensures DenyStatusFor(es, id) == Some(s)
  {
    assert es == [es[0]] + es[1..];
    if es[0].sourceId != id { FirstStatusIs(es[1..], id, s); }
  }

  /** Both readers of the analysis find the planner's status of a DENY row. */
  lemma AnalysisReadsBack(input: Input, r: Row)
    requires Planned(input).Ok? && DistinctIds(input.rows) && r in input.rows && r.permission == Deny
    ensures LastStatus(Planned(input).value.denyAnalysis, r.id) == Some(StatusIn(input.rows, r))
    ensures DenyStatusFor(Planned(input).value.denyAnalysis, r.id) == Some(StatusIn(input.rows, r))
  {
    hide Normalized, AllowEntries, StatusAgainst, DenyEntries, GroupsDelta;
    var es := DenyEntries(input.rows, AllowEntries(Normalized(input.rows)));
    assert es == Planned(input).value.denyAnalysis;
    var s := StatusIn(input.rows, r);
    hide Planned;
    forall e ensures e in es <==> exists x :: x in input.rows && x.permission == Deny && e == DenyEntry(x.id, StatusIn(input.rows, x)) {
      DenyEntriesMembers(input.rows, AllowEntries(Normalized(input.rows)), e);
    }
    forall e | e in es && e.sourceId == r.id ensures e.status == s {
      var x :| x in input.rows && x.permission == Deny && e == DenyEntry(x.id, StatusIn(input.rows, x));
      SameIdSameRow(input.rows, x, r);
    }
    assert OneStatus(es, r.id, s);
    LastStatusIs(es, r.id, s);
    FirstStatusIs(es, r.id, s);
  }

  lemma WildcardIsUnknown(rows: seq<Row>, r: Row)
    ensures StatusIn(rows, r) == SafeToRemove ==> !IsWildcardPrincipal(r.principal)
  {
  }

  ghost predicate SafeDeny(rows: seq<Row>, r: Row) {
    r in rows && r.permission == Deny && StatusIn(rows, r) == SafeToRemove
  }

  /** The generator picks exactly the SAFE_TO_REMOVE DENY rows of the listed principals. */
  lemma GeneratorPicksTheSafeOnes(input: Input, principals: seq<string>, r: Row)
    requires Planned(input).Ok? && DistinctIds(input.rows)
    ensures r in RemovableRows(Planned(input).value, principals, input.rows) <==>
            SafeDeny(input.rows, r) && r.principal in principals
  {
    var p := Planned(input).value;
    RemovableMembers(p, principals, input.rows, r);
    if r in input.rows && r.permission == Deny {
      AnalysisReadsBack(input, r);
      NoRowIsLost(input, r);
      WildcardIsUnknown(input.rows, r);
    }
    hide Planned, StatusIn, IsWildcardPrincipal, LastStatus;
  }

  /** The gates of a single removal let through exactly the SAFE_TO_REMOVE DENY rows. */
  lemma GatesPassTheSafeOnes(input: Input, id: int)
    requires Planned(input).Ok? && DistinctIds(input.rows)
    ensures PassesGates(Planned(input).value, input.rows, id) <==> exists r :: SafeDeny(input.rows, r) && r.id == id
    ensures forall r :: r in input.rows && r.id == id ==> FindRow(input.rows, id) == Some(r)
  {
    var p, found := Planned(input).value, FindRow(input.rows, id);
    FindRowFinds(input.rows, id);
    if found.Some? {
      var r := found.value;
      if r.permission == Deny {
        AnalysisReadsBack(input, r);
        NoRowIsLost(input, r);
        WildcardIsUnknown(input.rows, r);
      }
      forall x | x in input.rows && x.id == id ensures x == r { SameIdSameRow(input.rows, x, r); }
    }
    hide Planned, StatusIn, IsWildcardPrincipal, DenyStatusFor, FindRow;
  }

  /** What the generator emits, no gate refuses: the two agree on every row of a listed principal. */
  lemma GeneratorAgreesWithGates(input: Input, principals: seq<string>, r: Row)
    requires Planned(input).Ok? && DistinctIds(input.rows) && r in input.rows && r.principal in principals
    ensures r in RemovableRows(Planned(input).value, principals, input.rows) <==>
            PassesGates(Planned(input).value, input.rows, r.id)
  {
    GeneratorPicksTheSafeOnes(input, principals, r);
    GatesPassTheSafeOnes(input, r.id);
    hide Planned, StatusIn, RemovableRows, PassesGates;
    forall x | SafeDeny(input.rows, x) && x.id == r.id ensures x == r { SameIdSameRow(input.rows, x, r); }
  }

  // ---------------------------------------------------------------------------
  // What removal does

  /** Removing SAFE_TO_REMOVE rows changes no decision even after other rows, such as migrated Allow
      rows, are gone. */
  lemma SafeRemovalAfterOthers(rows: seq<Row>, others: set<int>, safe: set<int>, q: Request)
    requires KnownPatterns(rows) && AllSafe(rows, safe)
    ensures Authorized(Without(Without(rows, others), safe), q) == Authorized(Without(rows, others), q)
  {
    var mid := Without(rows, others);
    var left := Without(mid, safe);
    hide StatusIn, Matches, Without;
    if Authorized(left, q) && !Authorized(mid, q) {
      var r :| r in left && r.permission == Allow && Matches(r, q);
      var d :| d in mid && d.permission == Deny && Matches(d, q);
      assert d.id in safe;
      SafeRowHidesNothing(rows, d, r, q);
    }
    if Authorized(mid, q) {
      var r :| r in mid && r.permission == Allow && Matches(r, q);
      assert r in left;
    }
  }

  /** Whatever subset of the emitted removals has happened, in whatever order, and whatever else was
      removed before, every decision is the same. */
  lemma GeneratedRemovalsChangeNothing(input: Input, principals: seq<string>, others: set<int>, ids: seq<int>, q: Request)
    requires Planned(input).Ok? && DistinctIds(input.rows) && KnownPatterns(input.rows)
    requires forall id :: id in ids ==> exists r :: r in RemovableRows(Planned(input).value, principals, input.rows) && r.id == id
    ensures var rows := Without(input.rows, others);
            KnownPatterns(RemoveInOrder(rows, ids)) && Authorized(RemoveInOrder(rows, ids), q) == Authorized(rows, q)
  {
    var rows, done := Without(input.rows, others), set i | i in ids;
    RemoveInOrderIsWithout(rows, ids);
    forall r | r in input.rows && r.id in done ensures r.permission == Deny && StatusIn(input.rows, r) == SafeToRemove {
      assert r.id in ids;
      var x :| x in RemovableRows(Planned(input).value, principals, input.rows) && x.id == r.id;
      GeneratorPicksTheSafeOnes(input, principals, x);
      SameIdSameRow(input.rows, x, r);
    }
    hide Planned, StatusIn, Matches, Without, RemovableRows;
    SafeRemovalAfterOthers(input.rows, others, done, q);
  }

  // ---------------------------------------------------------------------------
  // The live check

  /** Some concrete operation on some name is both granted by `g` and denied by `d`: an `All` grants
      every operation of its resource type, and an operation also what it implies. */
  ghost predicate Touches(g: Grant, d: Row)
    requires d.permission == Deny && KnownPatternType(d.patternType)
  {
    && KnownPatternType(g.pattern.patternType) && g.pattern.resourceType == d.resourceType
    && (exists op :: SharedOperation(g, d, op)) && (exists n :: SharedName(g, d, n))
  }

  predicate SharedOperation(g: Grant, d: Row, op: Operation) {
    op != All && KafkaGrants(d.resourceType, g.operation, op) && RowCoversOperation(d, op)
  }

  predicate SharedName(g: Grant, d: Row, n: string)
    requires KnownPatternType(g.pattern.patternType) && KnownPatternType(d.patternType)
  {
    Denotes(g.pattern.patternType, g.pattern.name, n) && Denotes(d.patternType, d.resourceName, n)
  }

  ghost predicate TouchesDeny(grants: seq<Grant>, d: Row)
    requires d.permission == Deny && KnownPatternType(d.patternType)
  {
    exists g :: g in grants && Touches(g, d)
  }

  ghost predicate KnownGrants(grants: seq<Grant>) { forall g :: g in grants ==> KnownPatternType(g.pattern.patternType) }

  /** What is denied is shared by a grant of the very same operation. */
  lemma SameOperationShared(g: Grant, d: Row)
    requires d.permission == Deny && g.operation == d.operation
    ensures exists op :: SharedOperation(g, d, op)
  {
    EveryTypeDescribes(d.resourceType);
    assert SharedOperation(g, d, if d.operation == All then Describe else d.operation);
  }

  /** What the live check sees: of the grants that touch the denied set, those that name the DENY's very
      operation. So it never skips a removal for want of a touching grant. */
  lemma LiveCheckSeesIff(grants: seq<Grant>, d: Row)
    requires d.permission == Deny && KnownPatternType(d.patternType) && KnownGrants(grants)
    ensures PrincipalGrantOverlaps(grants, d.operation, PatternOf(d)) <==>
            exists g :: g in grants && Touches(g, d) && g.operation == d.operation
  {
    hide SharedOperation, Denotes;
    forall g | g in grants
      ensures PatternsOverlap(g.pattern.patternType, g.pattern.name, d.patternType, d.resourceName) <==> exists n :: SharedName(g, d, n) {
      OverlapIsIntersection(g.pattern.patternType, g.pattern.name, d.patternType, d.resourceName);
      if n :| Denotes(g.pattern.patternType, g.pattern.name, n) && Denotes(d.patternType, d.resourceName, n) {
        assert SharedName(g, d, n);
      }
    }
    forall g | g in grants && g.operation == d.operation ensures exists op :: SharedOperation(g, d, op) { SameOperationShared(g, d); }
  }

  ghost predicate ExactFor(grants: seq<Grant>, d: Row)
    requires d.permission == Deny && KnownPatternType(d.patternType)
  {
    PrincipalGrantOverlaps(grants, d.operation, PatternOf(d)) <==> TouchesDeny(grants, d)
  }

  ghost predicate NamesOperations(grants: seq<Grant>) { forall g :: g in grants ==> g.operation != All }

  /** An operation no other one stands for: not `All` and not implied. */
  predicate OnlyItself(op: Operation) { op != All && op != Describe && op != DescribeConfigs }

  /** A grant on the DENY's own pattern is missed iff it names another operation with a shared one. */
  lemma MissedGrant(d: Row, granted: Operation, op: Operation)
    requires d.permission == Deny && KnownPatternType(d.patternType) && granted != d.operation
    requires SharedOperation(Grant(granted, PatternOf(d)), d, op)
    ensures KnownGrants([Grant(granted, PatternOf(d))]) && !ExactFor([Grant(granted, PatternOf(d))], d)
  {
    var g := Grant(granted, PatternOf(d));
    assert SharedName(g, d, d.resourceName);
    assert g in [g] && Touches(g, d);
    LiveCheckSeesIff([g], d);
  }

  /** The live check finds everything that touches the denied set, for all grants that name single
      operations, iff the DENY's operation is neither `All` nor implied by another. */
  lemma LiveCheckIsExact(d: Row)
    requires d.permission == Deny && KnownPatternType(d.patternType)
    ensures (forall grants :: KnownGrants(grants) && NamesOperations(grants) ==> ExactFor(grants, d)) <==> OnlyItself(d.operation)
  {
    if OnlyItself(d.operation) {
      forall grants | KnownGrants(grants) && NamesOperations(grants) ensures ExactFor(grants, d) {
        LiveCheckSeesIff(grants, d);
        forall g | g in grants && Touches(g, d) ensures g.operation == d.operation {
          var op :| SharedOperation(g, d, op);
        }
      }
    } else {
      var granted := if d.operation == DescribeConfigs then AlterConfigs else Write;
      var op := if d.operation == All then Write else d.operation;
      assert NamesOperations([Grant(granted, PatternOf(d))]);
      MissedGrant(d, granted, op);
    }
  }

  /** The same with grants of `All`: the DENY's operation must moreover not be one that `All` grants on
      its resource type. */
  lemma LiveCheckAndGrantsOfAll(d: Row)
    requires d.permission == Deny && KnownPatternType(d.patternType)
    ensures (forall grants :: KnownGrants(grants) ==> ExactFor(grants, d)) <==>
            OnlyItself(d.operation) && d.resourceType !in TypesOf(d.operation)
  {
    if OnlyItself(d.operation) && d.resourceType !in TypesOf(d.operation) {
      forall grants | KnownGrants(grants) ensures ExactFor(grants, d) {
        LiveCheckSeesIff(grants, d);
        forall g | g in grants && Touches(g, d) ensures g.operation == d.operation {
          var op :| SharedOperation(g, d, op);
        }
      }
    } else if OnlyItself(d.operation) {
      MissedGrant(d, All, d.operation);
    } else {
      LiveCheckIsExact(d);
    }
  }

  function DenyOnTopic(op: Operation): Row { Row(1, "User:a", "*", op, Topic, "t", LITERAL, Deny) }

  /** Three grants on topic t that the live check misses: `All` against a DENY of Read, Write against a
      DENY of Describe, and Read against a DENY of `All`. */
  lemma LiveCheckMisses()
    ensures forall granted, denied :: (granted, denied) in {(All, Read), (Write, Describe), (Read, All)} ==>
              var d, grants := DenyOnTopic(denied), [Grant(granted, Pattern(Topic, "t", LITERAL))];
              TouchesDeny(grants, d) && !PrincipalGrantOverlaps(grants, d.operation, PatternOf(d))
  {
    forall granted, denied | (granted, denied) in {(All, Read), (Write, Describe), (Read, All)}
      ensures var d, grants := DenyOnTopic(denied), [Grant(granted, Pattern(Topic, "t", LITERAL))];
              TouchesDeny(grants, d) && !PrincipalGrantOverlaps(grants, d.operation, PatternOf(d)) {
      var d, g := DenyOnTopic(denied), Grant(granted, Pattern(Topic, "t", LITERAL));
      assert PatternOf(d) == g.pattern;
      var op := if denied == All then Read else denied;
      assert SharedOperation(g, d, op) && SharedName(g, d, "t");
      assert g in [g] && Touches(g, d);
    }
  }

  /** The live check asks at the scope of the row's own resource type iff the plan's first binding is
      for a Subject just when the row is; without bindings it asks at the empty scope. */
  lemma LiveScopeIff(input: Input, rt: ResourceType)
    requires Planned(input).Ok?
    ensures var p, own := Planned(input).value, ApplyScope(input.scopes, rt);
            PlanScope(p) == own <==>
            if p.bindings == [] then own == Scope("", "", "", "", "", "")
            else p.bindings[0].patterns != [] && (p.bindings[0].patterns[0].resourceType == Subject <==> rt == Subject)
  {
    hide Planned, NGroup, GroupOf, MapPrincipal, CoveringRules, RoleClass, KeySet;
    var p := Planned(input).value;
    if p.bindings != [] {
      var k := BindingOrigin(input, p.bindings[0]);
      BoundHasScope(input, p.bindings[0], k);
    }
  }

  const SUBJECT_ROW: Row := Row(1, "User:a", "*", Read, Subject, "s", LITERAL, Allow)
  const SUBJECT_RULE: Rule := Rule(When([Read], ModeAny, Subject, Allow), "DeveloperRead", "schema-registry")

  /** A Subject is allowed and a topic denied; groups sort the Subject first. */
  function SubjectFirst(): Input {
    Input([SUBJECT_ROW, DENIED], [SUBJECT_RULE], Principals(map[], false), Scope("", "", "kafka", "registry", "", ""), [],
          (_, _, _, _) => "id")
  }

  lemma SubjectFirstShape()
    ensures SubjectFirst().rows == [SUBJECT_ROW, DENIED] && SUBJECT_ROW in SubjectFirst().rows && DENIED in SubjectFirst().rows
    ensures DistinctIds(SubjectFirst().rows) && ValidRules(SubjectFirst().rules) && KnownPatterns(SubjectFirst().rows)
    ensures forall r :: r in SubjectFirst().rows ==> r == SUBJECT_ROW || r == DENIED
    ensures SubjectFirst().rules == [SUBJECT_RULE] && SubjectFirst().existing == []
    ensures SubjectFirst().principals == Principals(map[], false) && SubjectFirst().scopes == Scope("", "", "kafka", "registry", "", "")
  {
  }

  lemma SubjectFirstSucceeds()
    ensures Planned(SubjectFirst()).Ok?
  {
    SubjectFirstShape();
    forall r | r in SubjectFirst().rows ensures RowPlannable(SubjectFirst(), r) {
      hide Reference.Fits, SubjectFirst;
    }
    hide Planned, RowPlannable, SubjectFirst, ValidRules;
    PlanSucceedsIff(SubjectFirst());
  }

  /** The only bindings of that plan are for the Subject. */
  lemma SubjectFirstBindings()
    ensures Planned(SubjectFirst()).Ok?
    ensures var bs := Planned(SubjectFirst()).value.bindings;
            bs != [] && bs[0].patterns != [] && bs[0].patterns[0].resourceType == Subject
  {
    hide Planned, CoveringRules, NGroup, SubjectFirst, GroupOf, MapPrincipal, RoleClass, KeySet, NormalizedGroup;
    SubjectFirstSucceeds();
    SubjectFirstShape();
    assert Read in SUBJECT_RULE.when.operations;
    AnyRuleSelects(SubjectFirst(), SUBJECT_ROW, SUBJECT_RULE);
    FreshRowIsBound(SubjectFirst(), SUBJECT_ROW);
    var bs := Planned(SubjectFirst()).value.bindings;
    var b :| b in bs && SUBJECT_ROW.id in b.sourceIds;
    var k := BindingOrigin(SubjectFirst(), bs[0]);
    assert k == KeyOf(SUBJECT_ROW) by { KeyIsARow(SubjectFirst().rows, k); }
  }

  lemma KeyIsARow(rows: seq<Row>, k: Key)
    requires k in KeySet(rows)
    ensures exists r :: r in rows && KeyOf(r) == k
  {
  }

  lemma NothingInsideDeniedTopic()
    ensures !GrantsInsideDeny([SUBJECT_ROW, DENIED], DENIED)
  {
    hide PrincipalCovers, RowCoversOperation;
  }

  lemma SubjectFirstDenyIsSafe()
    ensures SafeDeny(SubjectFirst().rows, DENIED)
  {
    SubjectFirstShape();
    assert !IsWildcardPrincipal("User:a") by { assert "User:a"[5] == 'a'; }
    NothingInsideDeniedTopic();
    hide StatusIn, GrantsInsideDeny, IsWildcardPrincipal, SubjectFirst;
    ClassificationIsExact(SubjectFirst().rows, DENIED);
    UnknownOnlyWildcard(SubjectFirst().rows, DENIED);
  }

  /** Two bindings of a plan share their scope iff both are for Subjects or neither is. */
  lemma SharedScopeIff(input: Input, b: Binding, c: Binding)
    requires Planned(input).Ok? && b in Planned(input).value.bindings && c in Planned(input).value.bindings
    ensures b.patterns != [] && c.patterns != []
    ensures b.scope == c.scope <==> (b.patterns[0].resourceType == Subject <==> c.patterns[0].resourceType == Subject)
  {
    hide Planned, NGroup, GroupOf, MapPrincipal, CoveringRules, RoleClass, KeySet;
    var k := BindingOrigin(input, b);
    var l := BindingOrigin(input, c);
    BoundHasScope(input, b, k);
    BoundHasScope(input, c, l);
  }

  /** A Subject and a topic, both allowed. */
  function TwoScopes(): Input {
    Input([SUBJECT_ROW, ALLOWED.(id := 2)], [SUBJECT_RULE, READ_RULE], Principals(map[], false),
          Scope("", "", "kafka", "registry", "", ""), [], (_, _, _, _) => "id")
  }

  lemma TwoScopesShape()
    ensures TwoScopes().rows == [SUBJECT_ROW, ALLOWED.(id := 2)] && DistinctIds(TwoScopes().rows)
    ensures SUBJECT_ROW in TwoScopes().rows && ALLOWED.(id := 2) in TwoScopes().rows && ValidRules(TwoScopes().rules)
    ensures SUBJECT_RULE in TwoScopes().rules && READ_RULE in TwoScopes().rules && TwoScopes().existing == []
    ensures TwoScopes().principals == Principals(map[], false) && TwoScopes().scopes == Scope("", "", "kafka", "registry", "", "")
    ensures Read in SUBJECT_RULE.when.operations && Read in READ_RULE.when.operations
  {
    assert TwoScopes().rules == [SUBJECT_RULE, READ_RULE];
  }

  lemma TwoScopesSucceeds()
    ensures Planned(TwoScopes()).Ok?
  {
    TwoScopesShape();
    forall r | r in TwoScopes().rows ensures RowPlannable(TwoScopes(), r) {
      hide Reference.Fits, TwoScopes;
    }
    hide Planned, RowPlannable, TwoScopes, ValidRules;
    PlanSucceedsIff(TwoScopes());
  }

  /** So the bindings of a plan need not share one scope. */
  lemma ScopesMayDiffer()
    ensures exists input, b, c :: Planned(input).Ok? && b in Planned(input).value.bindings && c in Planned(input).value.bindings
                                  && b.scope != c.scope
  {
    TwoScopesShape();
    TwoScopesSucceeds();
    AnyRuleSelects(TwoScopes(), SUBJECT_ROW, SUBJECT_RULE);
    AnyRuleSelects(TwoScopes(), ALLOWED.(id := 2), READ_RULE);
    hide Planned, CoveringRules, NGroup, TwoScopes, MapPrincipal;
    FreshRowIsBound(TwoScopes(), SUBJECT_ROW);
    FreshRowIsBound(TwoScopes(), ALLOWED.(id := 2));
    var bs := Planned(TwoScopes()).value.bindings;
    var b :| b in bs && SUBJECT_ROW.id in b.sourceIds;
    var c :| c in bs && 2 in c.sourceIds;
    BindingsNeverWiden(TwoScopes(), b, SUBJECT_ROW);
    BindingsNeverWiden(TwoScopes(), c, ALLOWED.(id := 2));
    SharedScopeIff(TwoScopes(), b, c);
  }

  /** And a removal on a topic may be checked at the scope of the schema registry. */
  lemma LiveScopeMayDiffer()
    ensures exists input, d :: Planned(input).Ok? && DistinctIds(input.rows) && SafeDeny(input.rows, d)
                               && PlanScope(Planned(input).value) != ApplyScope(input.scopes, d.resourceType)
  {
    SubjectFirstShape();
    SubjectFirstBindings();
    SubjectFirstDenyIsSafe();
    hide Planned, SubjectFirst, SafeDeny, PlanScope, ApplyScope;
    LiveScopeIff(SubjectFirst(), DENIED.resourceType);
  }

  /** The live check asks about the DENY row's own principal. That is the principal its Allow rows were
      bound to iff the configuration maps it to itself. */
  lemma LivePrincipalIff(input: Input, d: Row, r: Row, b: Binding)
    requires Planned(input).Ok? && DistinctIds(input.rows) && r in input.rows && r.principal == d.principal
    requires b in Planned(input).value.bindings && r.id in b.sourceIds
    ensures MapPrincipal(d.principal, input.principals).Ok?
    ensures d.principal == b.principal <==> MapPrincipal(d.principal, input.principals).value.resolved == d.principal
  {
    hide Planned, MapPrincipal;
    BindingsNeverWiden(input, b, r);
  }

  const ALLOWED: Row := Row(1, "User:a", "*", Read, Topic, "t", LITERAL, Allow)
  const DENIED: Row := Row(2, "User:a", "*", Read, Topic, "other", LITERAL, Deny)

  /** User:a is mapped to User:b; one topic is allowed and another denied. */
  function Remapped(): Input {
    Input([ALLOWED, DENIED], [READ_RULE], Principals(map["User:a" := "User:b"], false), SCOPES, [], (_, _, _, _) => "id")
  }

  lemma RemappedRows()
    ensures Remapped().rows == [ALLOWED, DENIED] && ALLOWED in Remapped().rows && DENIED in Remapped().rows
    ensures DistinctIds(Remapped().rows) && ValidRules(Remapped().rules) && KnownPatterns(Remapped().rows)
    ensures forall r :: r in Remapped().rows ==> r == ALLOWED || r == DENIED
    ensures Remapped().principals == Principals(map["User:a" := "User:b"], false) && Remapped().scopes == SCOPES
    ensures Remapped().existing == [] && Remapped().rules == [READ_RULE]
  {
  }

  lemma RemappedSucceeds()
    ensures Planned(Remapped()).Ok?
  {
    hide Planned, Remapped, ValidRules, NGroup, MatchesRule;
    RemappedRows();
    forall r | r in Remapped().rows ensures RowPlannable(Remapped(), r) { RemappedRowFits(r); }
    hide RowPlannable;
    PlanSucceedsIff(Remapped());
  }

  lemma RemappedRowFits(r: Row)
    requires r == ALLOWED || r == DENIED
    ensures RowPlannable(Remapped(), r)
  {
    RemappedRows();
    hide Reference.Fits, Remapped, ValidRules, DistinctIds, KnownPatterns;
  }

  lemma RemappedRowIsBound() returns (b: Binding)
    ensures Planned(Remapped()).Ok? && b in Planned(Remapped()).value.bindings && ALLOWED.id in b.sourceIds
  {
    RemappedSucceeds();
    RemappedRows();
    assert Remapped().existing == [] && Remapped().rules == [READ_RULE] && Read in READ_RULE.when.operations;
    AnyRuleSelects(Remapped(), ALLOWED, READ_RULE);
    hide Planned, CoveringRules, NGroup, Remapped;
    FreshRowIsBound(Remapped(), ALLOWED);
    b :| b in Planned(Remapped()).value.bindings && ALLOWED.id in b.sourceIds;
  }

  lemma NothingInsideDenied()
    ensures !GrantsInsideDeny([ALLOWED, DENIED], DENIED)
  {
    hide PrincipalCovers, RowCoversOperation;
    assert |"t"| != |"other"|;
    if r, q :| r in [ALLOWED, DENIED] && r.permission == Allow && MatchesIgnoringHost(r, q) && MatchesIgnoringHost(DENIED, q) {
      assert false;
    }
  }

  lemma RemappedDenyIsSafe()
    ensures SafeDeny(Remapped().rows, DENIED)
  {
    RemappedRows();
    assert !IsWildcardPrincipal("User:a") by { assert "User:a"[5] == 'a'; }
    NothingInsideDenied();
    hide StatusIn, GrantsInsideDeny, IsWildcardPrincipal;
    ClassificationIsExact(Remapped().rows, DENIED);
    UnknownOnlyWildcard(Remapped().rows, DENIED);
  }

  /** So a removal may be checked against another principal than the one the plan bound. */
  lemma LivePrincipalMayDiffer()
    ensures exists input, d, r, b: Binding :: Planned(input).Ok? && DistinctIds(input.rows) && SafeDeny(input.rows, d)
                                     && r in input.rows && r.principal == d.principal && r.id in b.sourceIds
                                     && b in Planned(input).value.bindings && b.principal != d.principal
  {
    RemappedRows();
    var b := RemappedRowIsBound();
    RemappedDenyIsSafe();
    assert MapPrincipal("User:a", Remapped().principals).value.resolved == "User:b" && "User:a"[5] != "User:b"[5];
    hide Planned, Remapped, SafeDeny, MapPrincipal;
    LivePrincipalIff(Remapped(), DENIED, ALLOWED, b);
  }

  // ---------------------------------------------------------------------------
  // From plan to broker

  /** The emitted removals take exactly the picked DENY ACLs from any broker, or those before the first
      removal that fails, and the rollback script puts them back. */
  lemma DenyDeleteThenRollbackOfPicked(input: Input, principals: seq<string>, o: Options, works: nat -> bool, store: set<Acl>, i: nat)
    requires Planned(input).Ok? && DistinctIds(input.rows)
    requires forall r :: r in RemovableRows(Planned(input).value, principals, input.rows) ==> KnownRow(r) && HasFlag(r)
    requires FirstFailure(works, 0, i, |RemovableRows(Planned(input).value, principals, input.rows)|)
    ensures var picked := RemovableRows(Planned(input).value, principals, input.rows);
            && Execute(DenyRemoveCommands(picked, o), works, Idle(store, 0)).store == store - AclsOf(picked[..i])
            && (AclsOf(picked) <= store ==> RunScript(DenyAddText(picked, o), Always, store - AclsOf(picked[..i])) == Some(store))
  {
    hide RunScript, DenyAddText, AclsOf, Planned, RemovableRows, Execute;
    var picked := RemovableRows(Planned(input).value, principals, input.rows);
    forall r | r in picked ensures KnownRow(r) && DenyExpressible(r) {
      RemovableMembers(Planned(input).value, principals, input.rows, r);
    }
    DenyDeleteThenRollback(picked, o, works, store, i);
  }
}
