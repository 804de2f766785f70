/** Which rows a verified plan lets go (pkg/aclrbac/delete/common/eligibility.go, pkg/aclrbac/delete/acls/acls.go). */
module Eligibility {
  import opened Ordering
  import opened Types
  import opened Kafka
  import opened Normalize
  import opened Authorizer
  import Apply
  import opened Patterns
  import opened Match
  import DenyAnalysis
  import opened Rules
  import opened Outcomes
  import Reference
  import opened Planner
  import opened Translation
  import opened Mds
  import opened Verify
  import opened Scripts
  import opened RoundTrip
  import opened Broker

  predicate Acceptable(s: Status) { s == EffectiveOk || s == BindingExists }

  datatype PairKey = PairKey(bindingId: string, sourceId: int)

  predicate Speaks(v: Verdict, k: PairKey) { v.bindingId != "" && v.bindingId == k.bindingId && v.sourceId == k.sourceId }

  /** One unacceptable verdict outweighs any number of acceptable ones. */
  predicate Seen(vs: seq<Verdict>, k: PairKey) { exists v | v in vs :: Speaks(v, k) }

  predicate AllAcceptable(vs: seq<Verdict>, k: PairKey) { forall v | v in vs :: Speaks(v, k) ==> Acceptable(v.status) }

  /** A row of a binding may go if its own verdicts are all acceptable or, when it has none, those of
      the binding as a whole. */
  predicate PairEligible(vs: seq<Verdict>, bindingId: string, id: int) {
    var k := if Seen(vs, PairKey(bindingId, id)) then PairKey(bindingId, id) else PairKey(bindingId, 0);
    Seen(vs, k) && AllAcceptable(vs, k)
  }

  function EligibleOf(vs: seq<Verdict>, bindingId: string, ids: seq<int>): seq<int> {
    if ids == [] then [] else
      var id := ids[|ids| - 1];
      EligibleOf(vs, bindingId, ids[..|ids| - 1]) + (if PairEligible(vs, bindingId, id) then [id] else [])
  }

  predicate Listed(principals: seq<string>, p: string) { principals == [] || p in principals }

  function EligibleIds(bs: seq<Binding>, vs: seq<Verdict>, principals: seq<string>): seq<int> {
    if bs == [] then [] else
      var b := bs[|bs| - 1];
      EligibleIds(bs[..|bs| - 1], vs, principals) +
      (if Listed(principals, b.principal) then EligibleOf(vs, b.id, b.sourceIds) else [])
  }

  lemma {:induction false} EligibleOfMembers(vs: seq<Verdict>, bindingId: string, ids: seq<int>, id: int)
    ensures id in EligibleOf(vs, bindingId, ids) <==> id in ids && PairEligible(vs, bindingId, id)
  {
    if ids != [] {
      assert ids == ids[..|ids| - 1] + [ids[|ids| - 1]];
      EligibleOfMembers(vs, bindingId, ids[..|ids| - 1], id);
    }
  }

  ghost predicate EligibleUnder(b: Binding, vs: seq<Verdict>, principals: seq<string>, id: int) {
    Listed(principals, b.principal) && id in b.sourceIds && PairEligible(vs, b.id, id)
  }

  /** Eligibility is per (binding, row): one eligible pair is enough for a row two bindings share. */
  lemma {:induction false} EligibleIdsMembers(bs: seq<Binding>, vs: seq<Verdict>, principals: seq<string>, id: int)
    ensures id in EligibleIds(bs, vs, principals) <==> exists b :: b in bs && EligibleUnder(b, vs, principals, id)
  {
    if bs != [] {
      var init, last := bs[..|bs| - 1], bs[|bs| - 1];
      assert bs == init + [last];
      EligibleIdsMembers(init, vs, principals, id);
      EligibleOfMembers(vs, last.id, last.sourceIds, id);
      hide PairEligible, EligibleOf;
      assert (exists b :: b in bs && EligibleUnder(b, vs, principals, id)) <==>
             (exists b :: b in init && EligibleUnder(b, vs, principals, id)) || EligibleUnder(last, vs, principals, id);
    }
  }

  lemma {:induction false} EligibleOfConcat(vs: seq<Verdict>, bindingId: string, a: seq<int>, b: seq<int>)
    ensures EligibleOf(vs, bindingId, a + b) == EligibleOf(vs, bindingId, a) + EligibleOf(vs, bindingId, b)
  {
    hide PairEligible;
    if b == [] {
      assert a + b == a;
    } else {
      assert (a + b)[..|a + b| - 1] == a + b[..|b| - 1];
      EligibleOfConcat(vs, bindingId, a, b[..|b| - 1]);
    }
  }

  /** The ids come in plan order: those of a list of bindings are those of its parts, one after the other. */
  lemma {:induction false} EligibleIdsConcat(a: seq<Binding>, b: seq<Binding>, vs: seq<Verdict>, principals: seq<string>)
    ensures EligibleIds(a + b, vs, principals) == EligibleIds(a, vs, principals) + EligibleIds(b, vs, principals)
  {
    hide EligibleOf, Listed;
    if b == [] {
      assert a + b == a;
    } else {
      assert (a + b)[..|a + b| - 1] == a + b[..|b| - 1];
      EligibleIdsConcat(a, b[..|b| - 1], vs, principals);
    }
  }

  lemma SeenOneMore(vs: seq<Verdict>, v: Verdict)
    ensures forall k :: Seen(vs + [v], k) <==> Seen(vs, k) || Speaks(v, k)
    ensures forall k :: AllAcceptable(vs + [v], k) <==> AllAcceptable(vs, k) && (Speaks(v, k) ==> Acceptable(v.status))
  {
  }

  /** One state per pair that some verdict speaks for: whether all of them are acceptable. */
  method FoldVerdicts(vs: seq<Verdict>) returns (stateByPair: map<PairKey, bool>)
    ensures forall k :: k in stateByPair <==> Seen(vs, k)
    ensures forall k :: k in stateByPair ==> stateByPair[k] == AllAcceptable(vs, k)
  {
    stateByPair := map[];
    for i := 0 to |vs|
      invariant forall k :: k in stateByPair <==> Seen(vs[..i], k)
      invariant forall k :: k in stateByPair ==> stateByPair[k] == AllAcceptable(vs[..i], k)
    {
      var v := vs[i];
      assert vs[..i + 1] == vs[..i] + [v];
      SeenOneMore(vs[..i], v);
      if v.bindingId != "" {
        var k := PairKey(v.bindingId, v.sourceId);
        stateByPair := stateByPair[k := if k in stateByPair then stateByPair[k] && Acceptable(v.status) else Acceptable(v.status)];
      }
    }
    assert vs[..|vs|] == vs;
  }

  /** Folds the verdicts, then walks the bindings. */
  method EligibleACLs(bs: seq<Binding>, vs: seq<Verdict>, principals: seq<string>) returns (out: seq<int>)
    ensures out == EligibleIds(bs, vs, principals)
  {
    var stateByPair := FoldVerdicts(vs);
    var principalSet: set<string> := {};
    for i := 0 to |principals|
      invariant forall p :: p in principalSet <==> p in principals[..i]
    {
      assert principals[..i + 1] == principals[..i] + [principals[i]];
      principalSet := principalSet + {principals[i]};
    }
    assert principals[..|principals|] == principals;
    assert principals != [] ==> principals[0] in principalSet;
    hide Seen, AllAcceptable;
    out := [];
    for n := 0 to |bs|
      invariant out == EligibleIds(bs[..n], vs, principals)
    {
      var b := bs[n];
      assert bs[..n + 1][..n] == bs[..n];
      if |principalSet| > 0 && b.principal !in principalSet { continue; }
      assert Listed(principals, b.principal);
      var whole := PairKey(b.id, 0);
      ghost var before := out;
      for j := 0 to |b.sourceIds|
        invariant out == before + EligibleOf(vs, b.id, b.sourceIds[..j])
      {
        var id := b.sourceIds[j];
        assert b.sourceIds[..j + 1][..j] == b.sourceIds[..j];
        var k := PairKey(b.id, id);
        if k in stateByPair {
          if stateByPair[k] { out := out + [id]; }
        } else if whole in stateByPair && stateByPair[whole] {
          out := out + [id];
        }
      }
      assert b.sourceIds[..|b.sourceIds|] == b.sourceIds;
    }
    assert bs[..|bs|] == bs;
  }

  /** The order of the verdicts does not matter, not even for the order of the ids. */
  lemma EligibleIgnoresVerdictOrder(bs: seq<Binding>, vs: seq<Verdict>, vs': seq<Verdict>, principals: seq<string>)
    requires multiset(vs) == multiset(vs')
    ensures EligibleIds(bs, vs, principals) == EligibleIds(bs, vs', principals)
  {
    MemberOfPermutation(vs, vs');
    forall id: string, n ensures PairEligible(vs, id, n) == PairEligible(vs', id, n) {}
    SameEligible(bs, vs, vs', principals);
  }

  lemma {:induction false} SameEligibleOf(vs: seq<Verdict>, vs': seq<Verdict>, bindingId: string, ids: seq<int>)
    requires forall id: string, n :: PairEligible(vs, id, n) == PairEligible(vs', id, n)
    ensures EligibleOf(vs, bindingId, ids) == EligibleOf(vs', bindingId, ids)
  {
    if ids != [] { SameEligibleOf(vs, vs', bindingId, ids[..|ids| - 1]); }
  }

  lemma {:induction false} SameEligible(bs: seq<Binding>, vs: seq<Verdict>, vs': seq<Verdict>, principals: seq<string>)
    requires forall id: string, n :: PairEligible(vs, id, n) == PairEligible(vs', id, n)
    ensures EligibleIds(bs, vs, principals) == EligibleIds(bs, vs', principals)
  {
    hide PairEligible;
    if bs != [] {
      SameEligible(bs[..|bs| - 1], vs, vs', principals);
      SameEligibleOf(vs, vs', bs[|bs| - 1].id, bs[|bs| - 1].sourceIds);
    }
  }

  /** The rows with the given ids, in inventory order. */
  function RowsWith(rows: seq<Row>, ids: set<int>): seq<Row> {
    if rows == [] then [] else
      RowsWith(rows[..|rows| - 1], ids) + (if rows[|rows| - 1].id in ids then [rows[|rows| - 1]] else [])
  }

  lemma {:induction false} RowsWithMembers(rows: seq<Row>, ids: set<int>, r: Row)
    ensures r in RowsWith(rows, ids) <==> r in rows && r.id in ids
  {
    if rows != [] {
      assert rows == rows[..|rows| - 1] + [rows[|rows| - 1]];
      RowsWithMembers(rows[..|rows| - 1], ids, r);
    }
  }

  /** The walk keeps the order: what is picked of a list is what is picked of its parts. */
  lemma {:induction false} RowsWithConcat(a: seq<Row>, b: seq<Row>, ids: set<int>)
    ensures RowsWith(a + b, ids) == RowsWith(a, ids) + RowsWith(b, ids)
  {
    if b == [] {
      assert a + b == a;
    } else {
      assert (a + b)[..|a + b| - 1] == a + b[..|b| - 1];
      RowsWithConcat(a, b[..|b| - 1], ids);
    }
  }

  method PickRows(rows: seq<Row>, ids: seq<int>) returns (out: seq<Row>)
    ensures out == RowsWith(rows, set i | i in ids)
  {
    var wanted: set<int> := {};
    for i := 0 to |ids|
      invariant forall id :: id in wanted <==> id in ids[..i]
    {
      assert ids[..i + 1] == ids[..i] + [ids[i]];
      wanted := wanted + {ids[i]};
    }
    assert ids[..|ids|] == ids;
    assert wanted == (set i | i in ids) by { forall i ensures i in wanted <==> i in ids {} }
    out := [];
    for i := 0 to |rows|
      invariant out == RowsWith(rows[..i], wanted)
    {
      assert rows[..i + 1][..i] == rows[..i];
      if rows[i].id in wanted { out := out + [rows[i]]; }
    }
    assert rows[..|rows|] == rows;
  }

  // ---------------------------------------------------------------------------
  // Deletion is confirmed

  /** Everything the deletion of a planned inventory depends on: the plan's input, the service's
      replies (one per lookup) and the operator's choices. */
  datatype Deletion = Deletion(
    input: Input, capable: bool, answers: seq<Option<seq<Grant>>>, acceptUnknown: bool, principals: seq<string>)

  function Bindings(d: Deletion): seq<Binding>
    requires Planned(d.input).Ok?
  {
    Planned(d.input).value.bindings
  }

  function Picked(d: Deletion, vs: seq<Verdict>): seq<Row>
    requires Planned(d.input).Ok?
  {
    RowsWith(d.input.rows, set i | i in EligibleIds(Bindings(d), vs, d.principals))
  }

  ghost predicate Verified(d: Deletion, vs: seq<Verdict>) {
    Planned(d.input).Ok? && DistinctIds(d.input.rows)
    && Verdicts(d.input.rows, Bindings(d), d.capable, d.answers, d.acceptUnknown, vs)
  }

  /** The service said yes to the row's own operation and resource; with `acceptUnknown`, it may also
      not have answered at all. */
  predicate Confirmed(d: Deletion, r: Row, answer: Option<seq<Grant>>) {
    if d.capable && answer.Some? then LookupAllowed(answer.value, r.operation, PatternOf(r)) else d.acceptUnknown
  }

  ghost predicate AllConfirmed(d: Deletion, b: Binding, r: Row)
    requires Planned(d.input).Ok? && |d.answers| == |TasksOf(Bindings(d))|
  {
    forall i :: 0 <= i < |d.answers| && TasksOf(Bindings(d))[i].bindingId == b.id && TasksOf(Bindings(d))[i].sourceId == r.id
      ==> Confirmed(d, r, d.answers[i])
  }

  lemma VerdictMeans(d: Deletion, vs: seq<Verdict>, i: nat, r: Row)
    requires Verified(d, vs) && i < |vs| && r in d.input.rows && TasksOf(Bindings(d))[i].sourceId == r.id
    ensures vs[i].bindingId == TasksOf(Bindings(d))[i].bindingId && vs[i].sourceId == r.id
    ensures Acceptable(vs[i].status) <==> Confirmed(d, r, d.answers[i])
  {
    SourceOfRow(d.input.rows, r);
    hide Planned, OperationsById, ResourcesById, LookupAllowed, TasksOf;
    assert IsVerdict(d.input.rows, TasksOf(Bindings(d)), d.capable, d.answers, d.acceptUnknown, vs[i], i);
  }

  /** A pair of the plan is eligible iff its binding has an id and every lookup for it was confirmed. */
  lemma PairEligibleIff(d: Deletion, vs: seq<Verdict>, b: Binding, r: Row)
    requires Verified(d, vs) && b in Bindings(d) && r in d.input.rows && r.id in b.sourceIds
    ensures PairEligible(vs, b.id, r.id) <==> b.id != "" && AllConfirmed(d, b, r)
  {
    TasksAreThePairs(Bindings(d));
    var tasks := TasksOf(Bindings(d));
    var t := Task(b.id, b.principal, b.role, b.scope, r.id);
    assert t in tasks;
    var n :| 0 <= n < |tasks| && tasks[n] == t;
    forall i | 0 <= i < |vs|
      ensures vs[i].bindingId == tasks[i].bindingId && vs[i].sourceId == tasks[i].sourceId
      ensures tasks[i].sourceId == r.id ==> (Acceptable(vs[i].status) <==> Confirmed(d, r, d.answers[i])) {
      assert IsVerdict(d.input.rows, tasks, d.capable, d.answers, d.acceptUnknown, vs[i], i);
      if tasks[i].sourceId == r.id { VerdictMeans(d, vs, i, r); }
    }
    hide Planned, TasksOf, Confirmed, Acceptable, IsVerdict, Verdicts;
    var k := PairKey(b.id, r.id);
    assert Seen(vs, k) <==> b.id != "" by { if b.id != "" { assert Speaks(vs[n], k); } }
    if b.id != "" && AllConfirmed(d, b, r) {
      forall v | v in vs && Speaks(v, k) ensures Acceptable(v.status) {
        var i :| 0 <= i < |vs| && vs[i] == v;
      }
    }
    if b.id != "" && AllAcceptable(vs, k) {
      forall i | 0 <= i < |d.answers| && tasks[i].bindingId == b.id && tasks[i].sourceId == r.id
        ensures Confirmed(d, r, d.answers[i]) {
        assert Speaks(vs[i], k);
      }
    }
  }

  /** After a bindings-exist run every row inherits its binding's verdict: it may go iff each binding
      with that id was listed with all its patterns. Here row ids must not be 0. */
  lemma ExistsModeEligibleIff(bs: seq<Binding>, answers: seq<Option<seq<Binding>>>, vs: seq<Verdict>, b: Binding, id: int)
    requires |answers| == |bs| == |vs| && forall i :: 0 <= i < |bs| ==> vs[i] == ExistsVerdict(bs[i], answers[i])
    requires b in bs && id != 0
    ensures PairEligible(vs, b.id, id) <==>
            b.id != "" && forall i :: 0 <= i < |bs| && bs[i].id == b.id ==> answers[i].Some? && Matched(answers[i].value, bs[i])
  {
    hide Matched;
    var k := PairKey(b.id, 0);
    var n :| 0 <= n < |bs| && bs[n] == b;
    forall v | v in vs ensures v.sourceId == 0 {
      var i :| 0 <= i < |vs| && vs[i] == v;
    }
    assert !Seen(vs, PairKey(b.id, id));
    assert Seen(vs, k) <==> b.id != "" by { if b.id != "" { assert Speaks(vs[n], k); } }
    if b.id != "" && forall i :: 0 <= i < |bs| && bs[i].id == b.id ==> answers[i].Some? && Matched(answers[i].value, bs[i]) {
      forall v | v in vs && Speaks(v, k) ensures Acceptable(v.status) {
        var i :| 0 <= i < |vs| && vs[i] == v;
      }
    }
    if b.id != "" && AllAcceptable(vs, k) {
      forall i | 0 <= i < |bs| && bs[i].id == b.id ensures answers[i].Some? && Matched(answers[i].value, bs[i]) {
        assert Speaks(vs[i], k);
      }
    }
  }

  /** Exactly the rows of some listed binding with an id, all of whose lookups were confirmed, go. */
  lemma PickedIff(d: Deletion, vs: seq<Verdict>, r: Row)
    requires Verified(d, vs) && r in d.input.rows
    ensures r in Picked(d, vs) <==>
            exists b :: b in Bindings(d) && Listed(d.principals, b.principal) && r.id in b.sourceIds
                        && b.id != "" && AllConfirmed(d, b, r)
  {
    RowsWithMembers(d.input.rows, (set i | i in EligibleIds(Bindings(d), vs, d.principals)), r);
    EligibleIdsMembers(Bindings(d), vs, d.principals, r.id);
    hide Planned, TasksOf, Confirmed, RowsWith, EligibleIds;
    if b :| b in Bindings(d) && EligibleUnder(b, vs, d.principals, r.id) {
      PairEligibleIff(d, vs, b, r);
    }
    if b :| b in Bindings(d) && Listed(d.principals, b.principal) && r.id in b.sourceIds && b.id != "" && AllConfirmed(d, b, r) {
      PairEligibleIff(d, vs, b, r);
      assert EligibleUnder(b, vs, d.principals, r.id);
    }
  }

  lemma OneAnswerPerTask(d: Deletion, vs: seq<Verdict>)
    requires Verified(d, vs)
    ensures Planned(d.input).Ok? && DistinctIds(d.input.rows) && |d.answers| == |TasksOf(Bindings(d))| == |vs|
  {
    hide Planned, TasksOf;
  }

  /** A lookup that was not confirmed keeps its row back iff no other listed binding has all of its own
      lookups for the row confirmed. */
  lemma BadLookupBlocks(d: Deletion, vs: seq<Verdict>, r: Row, i: nat)
    requires Verified(d, vs) && r in d.input.rows && i < |d.answers|
    requires TasksOf(Bindings(d))[i].sourceId == r.id && !Confirmed(d, r, d.answers[i])
    ensures r in Picked(d, vs) <==>
            exists b :: b in Bindings(d) && b.id != TasksOf(Bindings(d))[i].bindingId && Listed(d.principals, b.principal)
                        && r.id in b.sourceIds && b.id != "" && AllConfirmed(d, b, r)
  {
    hide Planned, TasksOf, Confirmed, Picked;
    PickedIff(d, vs, r);
  }

  /** The answers of a service that confirms a row for the binding with one id and fails every other
      lookup. */
  lemma OnlyAnswered(tasks: seq<Task>, r: Row, bindingId: string) returns (answers: seq<Option<seq<Grant>>>)
    ensures |answers| == |tasks|
    ensures forall i :: 0 <= i < |tasks| ==>
              answers[i] == if tasks[i].bindingId == bindingId then Some([Grant(r.operation, PatternOf(r))]) else None
  {
    answers := seq(|tasks|, i requires 0 <= i < |tasks| =>
      if tasks[i].bindingId == bindingId then Some([Grant(r.operation, PatternOf(r))]) else None);
  }

  lemma OwnGrantConfirms(r: Row)
    ensures LookupAllowed([Grant(r.operation, PatternOf(r))], r.operation, PatternOf(r))
  {
    assert Covers([Grant(r.operation, PatternOf(r))][0], r.operation, PatternOf(r));
  }

  lemma VerdictsExist(d: Deletion) returns (vs: seq<Verdict>)
    requires Planned(d.input).Ok? && DistinctIds(d.input.rows) && |d.answers| == |TasksOf(Bindings(d))|
    ensures Verified(d, vs)
  {
    hide Planned, TasksOf, OperationsById, ResourcesById, EvalEffective;
    var tasks := TasksOf(Bindings(d));
    vs := seq(|tasks|, i requires 0 <= i < |tasks| =>
      Accepting(d.acceptUnknown, EvalEffective(OperationsById(d.input.rows), ResourcesById(d.input.rows), d.capable, tasks[i], d.answers[i])));
    forall i | 0 <= i < |vs| ensures IsVerdict(d.input.rows, tasks, d.capable, d.answers, d.acceptUnknown, vs[i], i) {}
  }

  /** A lookup that brought no answer is reported unknown. */
  lemma NoAnswerIsUnknown(d: Deletion, vs: seq<Verdict>, i: nat, t: Task)
    requires Verified(d, vs) && !d.acceptUnknown && i < |vs| && TasksOf(Bindings(d))[i] == t && d.answers[i].None?
    ensures vs[i] == Verdict(t.bindingId, t.sourceId, EffectiveUnknown)
  {
    hide Planned, TasksOf, OperationsById, ResourcesById;
    assert IsVerdict(d.input.rows, TasksOf(Bindings(d)), d.capable, d.answers, d.acceptUnknown, vs[i], i);
  }

  /** A row goes although unknowns are not accepted and one of its lookups brought no answer. */
  ghost predicate GoesThoughUnknown(d: Deletion, vs: seq<Verdict>, r: Row) {
    && Verified(d, vs) && d.capable && !d.acceptUnknown && r in Picked(d, vs)
    && exists i :: 0 <= i < |vs| && vs[i].sourceId == r.id && vs[i].status == EffectiveUnknown
  }

  /** In every plan that binds a row twice, under different ids, this can happen: the lookup for one
      binding is answered and the one for the other fails in transit. */
  lemma SharedRowMayGo(input: Input, r: Row, b: Binding, c: Binding) returns (d: Deletion, vs: seq<Verdict>)
    requires Planned(input).Ok? && DistinctIds(input.rows) && r in input.rows
    requires b in Planned(input).value.bindings && r.id in b.sourceIds && b.id != ""
    requires c in Planned(input).value.bindings && r.id in c.sourceIds && c.id != b.id
    ensures d.input == input && d.principals == [] && GoesThoughUnknown(d, vs, r)
  {
    hide Planned, TasksOf, Verified, Picked, LookupAllowed;
    var tasks := TasksOf(Planned(input).value.bindings);
    var answers := OnlyAnswered(tasks, r, b.id);
    d := Deletion(input, true, answers, false, []);
    vs := VerdictsExist(d);
    OneAnswerPerTask(d, vs);
    OwnGrantConfirms(r);
    assert AllConfirmed(d, b, r);
    PickedIff(d, vs, r);
    TasksAreThePairs(Bindings(d));
    var t := Task(c.id, c.principal, c.role, c.scope, r.id);
    assert t in tasks;
    var i :| 0 <= i < |tasks| && tasks[i] == t;
    NoAnswerIsUnknown(d, vs, i, t);
  }

  /** The task of a row's binding asks about the principal and the scope the row was planned for. */
  lemma TaskOfRow(d: Deletion, i: nat, r: Row)
    requires Planned(d.input).Ok? && DistinctIds(d.input.rows) && r in d.input.rows
    requires i < |TasksOf(Bindings(d))| && TasksOf(Bindings(d))[i].sourceId == r.id
    ensures var t := TasksOf(Bindings(d))[i]; var m := MapPrincipal(r.principal, d.input.principals);
            m.Ok? && t.principal == m.value.resolved && t.scope == ApplyScope(d.input.scopes, r.resourceType)
    ensures r.permission == Allow && r.host == "*"
  {
    TasksAreThePairs(Bindings(d));
    var t := TasksOf(Bindings(d))[i];
    assert t in TasksOf(Bindings(d));
    hide Planned, TasksOf, MapPrincipal, KeySet, GroupOf, NGroup, RoleClass, CoveringRules;
    var b :| b in Bindings(d) && TaskFor(t, b);
    BindingsNeverWiden(d.input, b, r);
    var k := BindingOrigin(d.input, b);
    assert KeyPattern(k) == b.patterns[0] == PatternOf(r);
  }

  /** The service gave the same answer whenever it was asked about the same principal and scope. */
  ghost predicate Consistent(d: Deletion)
    requires Planned(d.input).Ok? && |d.answers| == |TasksOf(Bindings(d))|
  {
    forall i, j :: 0 <= i < |d.answers| && 0 <= j < |d.answers| && SameQuestion(TasksOf(Bindings(d))[i], TasksOf(Bindings(d))[j])
      ==> d.answers[i] == d.answers[j]
  }

  predicate SameQuestion(t: Task, u: Task) { t.principal == u.principal && t.scope == u.scope }

  ghost predicate EveryLookupConfirmed(d: Deletion, r: Row)
    requires Planned(d.input).Ok? && |d.answers| == |TasksOf(Bindings(d))|
  {
    forall i :: 0 <= i < |d.answers| && TasksOf(Bindings(d))[i].sourceId == r.id ==> Confirmed(d, r, d.answers[i])
  }

  /** Then no bad lookup is outvoted: a row goes iff some listed binding with an id carries it and every
      lookup for it, under whichever binding, was confirmed. */
  lemma ConsistentPicksIff(d: Deletion, vs: seq<Verdict>, r: Row)
    requires Verified(d, vs) && Consistent(d) && r in d.input.rows
    ensures r in Picked(d, vs) <==>
            (exists b :: b in Bindings(d) && Listed(d.principals, b.principal) && r.id in b.sourceIds && b.id != "")
            && EveryLookupConfirmed(d, r)
  {
    hide Planned, TasksOf, Confirmed, Picked, Verified, Consistent, AllConfirmed, EveryLookupConfirmed;
    OneAnswerPerTask(d, vs);
    PickedIff(d, vs, r);
    TasksAreThePairs(Bindings(d));
    forall b | EveryLookupConfirmed(d, r) ensures AllConfirmed(d, b, r) { EveryMeansAll(d, b, r); }
    if b :| b in Bindings(d) && Listed(d.principals, b.principal) && r.id in b.sourceIds && b.id != "" && AllConfirmed(d, b, r) {
      var t := Task(b.id, b.principal, b.role, b.scope, r.id);
      assert t in TasksOf(Bindings(d));
      var n :| 0 <= n < |d.answers| && TasksOf(Bindings(d))[n] == t;
      AllSpeaksOf(d, b, r, n);
      OneSpeaksForAll(d, r, n);
    }
  }

  lemma EveryMeansAll(d: Deletion, b: Binding, r: Row)
    requires Planned(d.input).Ok? && |d.answers| == |TasksOf(Bindings(d))| && EveryLookupConfirmed(d, r)
    ensures AllConfirmed(d, b, r)
  {
    hide Planned, TasksOf, Confirmed;
  }

  lemma AllSpeaksOf(d: Deletion, b: Binding, r: Row, n: nat)
    requires Planned(d.input).Ok? && n < |d.answers| == |TasksOf(Bindings(d))| && AllConfirmed(d, b, r)
    requires TasksOf(Bindings(d))[n].bindingId == b.id && TasksOf(Bindings(d))[n].sourceId == r.id
    ensures Confirmed(d, r, d.answers[n])
  {
    hide Planned, TasksOf, Confirmed;
  }

  /** One confirmed lookup of a row speaks for all of them. */
  lemma OneSpeaksForAll(d: Deletion, r: Row, n: nat)
    requires Planned(d.input).Ok? && DistinctIds(d.input.rows) && r in d.input.rows
    requires n < |d.answers| == |TasksOf(Bindings(d))| && Consistent(d)
    requires TasksOf(Bindings(d))[n].sourceId == r.id && Confirmed(d, r, d.answers[n])
    ensures EveryLookupConfirmed(d, r)
  {
    hide Planned, TasksOf, Confirmed, MapPrincipal;
    var tasks := TasksOf(Bindings(d));
    TaskOfRow(d, n, r);
    forall i | 0 <= i < |d.answers| && tasks[i].sourceId == r.id ensures Confirmed(d, r, d.answers[i]) {
      TaskOfRow(d, i, r);
      assert SameQuestion(tasks[n], tasks[i]);
    }
  }

  // ---------------------------------------------------------------------------
  // Mode bindings-exist

  /** A bindings-exist run over a plan, answered from what the service stores. */
  ghost predicate Checked(input: Input, store: Store, answers: seq<Option<seq<Binding>>>, vs: seq<Verdict>) {
    && Planned(input).Ok? && DistinctIds(input.rows)
    && var bs := Planned(input).value.bindings;
       |answers| == |bs| == |vs|
       && forall i :: 0 <= i < |bs| ==>
            answers[i].Some? && Listing(store, bs[i].principal, bs[i].scope, answers[i].value) && vs[i] == ExistsVerdict(bs[i], answers[i])
  }

  lemma ListingsExist(store: Store, bs: seq<Binding>) returns (answers: seq<Option<seq<Binding>>>)
    ensures |answers| == |bs|
    ensures forall i :: 0 <= i < |bs| ==> answers[i].Some? && Listing(store, bs[i].principal, bs[i].scope, answers[i].value)
  {
    hide Listing;
    answers := [];
    while |answers| < |bs|
      invariant |answers| <= |bs|
      invariant forall i :: 0 <= i < |answers| ==> answers[i].Some? && Listing(store, bs[i].principal, bs[i].scope, answers[i].value)
    {
      var b := bs[|answers|];
      var listed := Apply.ListingExists(store, b.principal, b.scope);
      answers := answers + [Some(listed)];
    }
  }

  /** A verdict of such a run is BINDING_EXISTS iff the service stores all of the binding. */
  lemma CheckedMeans(input: Input, store: Store, answers: seq<Option<seq<Binding>>>, vs: seq<Verdict>, i: nat)
    requires Checked(input, store, answers, vs) && i < |vs|
    ensures var b := Planned(input).value.bindings[i];
            && vs[i].bindingId == b.id && vs[i].status == (if GrantsOf(b) <= store then BindingExists else BindingMissing)
            && Matched(answers[i].value, b) == (GrantsOf(b) <= store)
  {
    hide Planned, Listing, KeySet, GroupOf, NGroup, RoleClass, CoveringRules, MapPrincipal;
    var b := Planned(input).value.bindings[i];
    var k := BindingOrigin(input, b);
    MatchedIff(store, b, answers[i].value);
  }

  /** In this mode a row goes iff some listed binding with an id carries it and every binding with that
      id is stored in full; what holds of the row's other bindings plays no part. */
  lemma CheckedRowGoesIff(
      input: Input, store: Store, answers: seq<Option<seq<Binding>>>, vs: seq<Verdict>, principals: seq<string>, id: int)
    requires Checked(input, store, answers, vs) && id != 0
    ensures var bs := Planned(input).value.bindings;
            id in EligibleIds(bs, vs, principals) <==>
            exists b :: b in bs && Listed(principals, b.principal) && id in b.sourceIds && b.id != ""
                        && AllStored(bs, b.id, store)
  {
    hide Planned, EligibleIds, Matched, PairEligible, GrantsOf, Listing, ExistsVerdict;
    var bs := Planned(input).value.bindings;
    EligibleIdsMembers(bs, vs, principals, id);
    forall b | b in bs ensures PairEligible(vs, b.id, id) <==> b.id != "" && AllStored(bs, b.id, store) {
      CheckedPairEligibleIff(input, store, answers, vs, b, id);
    }
    hide Checked, AllStored;
  }

  ghost predicate AllStored(bs: seq<Binding>, bindingId: string, store: Store) {
    forall c :: c in bs && c.id == bindingId ==> GrantsOf(c) <= store
  }

  lemma CheckedPairEligibleIff(
      input: Input, store: Store, answers: seq<Option<seq<Binding>>>, vs: seq<Verdict>, b: Binding, id: int)
    requires Checked(input, store, answers, vs) && b in Planned(input).value.bindings && id != 0
    ensures PairEligible(vs, b.id, id) <==> b.id != "" && AllStored(Planned(input).value.bindings, b.id, store)
  {
    hide Planned, Matched, PairEligible, GrantsOf, Listing, ExistsVerdict;
    var bs := Planned(input).value.bindings;
    forall i | 0 <= i < |bs| ensures Matched(answers[i].value, bs[i]) <==> GrantsOf(bs[i]) <= store {
      CheckedMeans(input, store, answers, vs, i);
    }
    ExistsModeEligibleIff(bs, answers, vs, b, id);
    if AllStored(bs, b.id, store) { assert forall i :: 0 <= i < |bs| ==> bs[i] in bs; }
  }

  /** One row, two roles, and ids that tell the roles apart. */
  function TwoRoles(): Input { TwoPlaces().(existing := [], bindingId := (_, role, _, _) => role) }

  lemma TwoRolesShape()
    ensures TwoRoles().rows == [ROW] && DistinctIds(TwoRoles().rows) && ROW in TwoRoles().rows
    ensures TwoRoles().existing == [] && ValidRules(TwoRoles().rules)
    ensures TwoRoles().principals == Principals(map[], false) && TwoRoles().scopes == SCOPES
  {
  }

  lemma TwoRolesFit()
    ensures RowPlannable(TwoRoles(), ROW)
  {
    TwoRolesShape();
    hide Reference.Fits, TwoRoles;
  }

  lemma TwoRolesSucceed()
    ensures Planned(TwoRoles()).Ok? && DistinctIds(TwoRoles().rows) && ROW in TwoRoles().rows && TwoRoles().existing == []
  {
    TwoRolesShape();
    TwoRolesFit();
    hide Planned, RowPlannable, TwoRoles, ValidRules;
    PlanSucceedsIff(TwoRoles());
  }

  lemma TwoRolesRules()
    ensures CoveringRules(NGroup(TwoRoles(), KeyOf(ROW)), TwoRoles().rules) == [DESCRIBE_RULE, READ_RULE]
  {
    BothRulesSelected();
    assert TwoRoles().rows == TwoPlaces().rows && TwoRoles().rules == TwoPlaces().rules;
    hide CoveringRules, TwoPlaces, TwoRoles, NormalizedGroup, GroupOf;
  }

  lemma NothingBlocks(input: Input, g: AclGroup, p: string, role: string)
    requires input.existing == []
    ensures RoleClass(input, g, p, role) == NoMatch
  {
    hide BindingFor;
  }

  lemma TwoRolesBind(rule: Rule) returns (b: Binding)
    requires rule == DESCRIBE_RULE || rule == READ_RULE
    ensures Planned(TwoRoles()).Ok? && b in Planned(TwoRoles()).value.bindings
    ensures b.role == rule.role && ROW.id in b.sourceIds && b.patterns == [PatternOf(ROW)]
  {
    TwoRolesSucceed();
    TwoRolesRules();
    var input := TwoRoles();
    var g := NGroup(input, KeyOf(ROW));
    assert rule in [DESCRIBE_RULE, READ_RULE];
    hide Planned, CoveringRules, NGroup, TwoRoles, MapPrincipal, RoleClass;
    b := SelectedRolePlaced(input, ROW, rule);
    NothingBlocks(input, g, b.principal, rule.role);
  }

  /** All bindings of that plan differ at most in role, which is their id. */
  lemma TwoRolesIds(b: Binding)
    requires Planned(TwoRoles()).Ok? && b in Planned(TwoRoles()).value.bindings
    ensures b.id == b.role && b.patterns == [PatternOf(ROW)]
    ensures b.principal == MapPrincipal(ROW.principal, TwoRoles().principals).value.resolved
    ensures b.scope == ApplyScope(TwoRoles().scopes, Topic)
  {
    TwoRolesShape();
    assert TwoRoles().bindingId(b.principal, b.role, b.scope, b.patterns) == b.role;
    hide Planned, GroupOf, NGroup, RoleClass, CoveringRules, MapPrincipal, TwoRoles, ApplyScope;
    var k := BindingOrigin(TwoRoles(), b);
    assert k == KeyOf(ROW);
  }

  /** So an access that was not confirmed everywhere need not keep its row back, in the mode that
      promises it. */
  lemma UnknownRowMayGo()
    ensures exists d, vs, r :: GoesThoughUnknown(d, vs, r)
  {
    TwoRolesSucceed();
    var b := TwoRolesBind(DESCRIBE_RULE);
    var c := TwoRolesBind(READ_RULE);
    TwoRolesIds(b);
    TwoRolesIds(c);
    assert "R1"[1] != "R2"[1];
    hide Planned, TwoRoles, GoesThoughUnknown;
    var d, vs := SharedRowMayGo(TwoRoles(), ROW, b, c);
  }

  /** A row that two bindings share may go although one of them is missing. */
  ghost predicate GoesThoughMissing(
      input: Input, store: Store, answers: seq<Option<seq<Binding>>>, vs: seq<Verdict>, i: nat, id: int) {
    && Checked(input, store, answers, vs) && i < |vs|
    && id in Planned(input).value.bindings[i].sourceIds && vs[i].status == BindingMissing
    && id in EligibleIds(Planned(input).value.bindings, vs, [])
  }

  lemma MissingRowMayGo()
    ensures exists input, store, answers, vs, i, id :: GoesThoughMissing(input, store, answers, vs, i, id)
  {
    TwoRolesSucceed();
    var b1 := TwoRolesBind(DESCRIBE_RULE);
    var b2 := TwoRolesBind(READ_RULE);
    hide Planned, TwoRoles, GrantsOf, Checked, DistinctIds, GoesThoughMissing;
    var answers, vs := CheckExists(TwoRoles(), GrantsOf(b1));
    var i := SecondRoleMissing(b1, b2, answers, vs);
    assert GoesThoughMissing(TwoRoles(), GrantsOf(b1), answers, vs, i, ROW.id);
  }

  lemma SecondRoleMissing(b: Binding, c: Binding, answers: seq<Option<seq<Binding>>>, vs: seq<Verdict>) returns (i: nat)
    requires Checked(TwoRoles(), GrantsOf(b), answers, vs) && b.role == "R1" && c.role == "R2"
    requires b in Planned(TwoRoles()).value.bindings && ROW.id in b.sourceIds
    requires c in Planned(TwoRoles()).value.bindings && ROW.id in c.sourceIds && c.patterns != []
    ensures GoesThoughMissing(TwoRoles(), GrantsOf(b), answers, vs, i, ROW.id)
  {
    hide Planned, TwoRoles, GrantsOf, AllStored, EligibleIds, Listing, ExistsVerdict;
    OnlyRoleStored(b);
    CheckedRowGoesIff(TwoRoles(), GrantsOf(b), answers, vs, [], ROW.id);
    assert "R1"[1] != "R2"[1];
    OtherRoleNotStored(b, c);
    i := CheckedMissing(TwoRoles(), GrantsOf(b), answers, vs, c);
  }

  /** Every plan can be checked against every store. */
  lemma CheckExists(input: Input, store: Store) returns (answers: seq<Option<seq<Binding>>>, vs: seq<Verdict>)
    requires Planned(input).Ok? && DistinctIds(input.rows)
    ensures Checked(input, store, answers, vs) && |vs| == |Planned(input).value.bindings|
  {
    hide Planned, Listing, ExistsVerdict;
    var bs := Planned(input).value.bindings;
    answers := ListingsExist(store, bs);
    vs := seq(|bs|, i requires 0 <= i < |bs| => ExistsVerdict(bs[i], answers[i]));
  }

  lemma CheckedMissing(input: Input, store: Store, answers: seq<Option<seq<Binding>>>, vs: seq<Verdict>, b: Binding) returns (i: nat)
    requires Checked(input, store, answers, vs) && b in Planned(input).value.bindings && !(GrantsOf(b) <= store)
    ensures i < |vs| == |Planned(input).value.bindings|
    ensures Planned(input).value.bindings[i] == b && vs[i].status == BindingMissing
  {
    hide Planned, Listing, ExistsVerdict, GrantsOf;
    i :| 0 <= i < |vs| && Planned(input).value.bindings[i] == b;
    CheckedMeans(input, store, answers, vs, i);
  }

  lemma OtherRoleNotStored(b: Binding, c: Binding)
    requires b.role != c.role && c.patterns != []
    ensures !(GrantsOf(c) <= GrantsOf(b))
  {
    assert Stored(c.principal, c.role, Clusters(c.scope), c.patterns[0]) in GrantsOf(c);
  }

  /** The plan of one row has one binding per role, so equal ids mean equal grants. */
  lemma OnlyRoleStored(b: Binding)
    requires Planned(TwoRoles()).Ok? && b in Planned(TwoRoles()).value.bindings
    ensures b.id == b.role && AllStored(Planned(TwoRoles()).value.bindings, b.id, GrantsOf(b))
  {
    TwoRolesIds(b);
    hide Planned, TwoRoles, GrantsOf;
    var bs := Planned(TwoRoles()).value.bindings;
    forall c | c in bs && c.id == b.id ensures GrantsOf(c) <= GrantsOf(b) {
      TwoRolesIds(c);
      SameGrants(b, c);
    }
  }

  lemma SameGrants(b: Binding, c: Binding)
    requires b.principal == c.principal && b.role == c.role && b.scope == c.scope && b.patterns == c.patterns
    ensures GrantsOf(b) == GrantsOf(c)
  {
  }

  // ---------------------------------------------------------------------------
  // What a picked row is

  /** Every row that goes is an Allow row for every host, as its host-less argument list presupposes,
      and, unless unknowns were accepted, its own operation was granted to the principal it maps to on
      a set of names containing its own. */
  lemma DeletionIsConfirmed(d: Deletion, vs: seq<Verdict>, r: Row) returns (b: Binding, i: nat)
    requires Verified(d, vs) && r in Picked(d, vs)
    ensures r in d.input.rows && r.permission == Allow && r.host == "*"
    ensures b in Bindings(d) && r.id in b.sourceIds && b.patterns == [PatternOf(r)] && Listed(d.principals, b.principal)
    ensures MapPrincipal(r.principal, d.input.principals).Ok?
    ensures b.principal == MapPrincipal(r.principal, d.input.principals).value.resolved
    ensures i < |d.answers| && TasksOf(Bindings(d))[i] == Task(b.id, b.principal, b.role, b.scope, r.id)
    ensures !d.acceptUnknown ==> d.capable && d.answers[i].Some? && LookupAllowed(d.answers[i].value, r.operation, PatternOf(r))
    ensures !d.acceptUnknown && KnownPatternType(r.patternType) ==>
              exists g :: g in d.answers[i].value && g.operation == r.operation && g.pattern.resourceType == r.resourceType
                          && KnownPatternType(g.pattern.patternType) && ContainsAll(g, PatternOf(r))
  {
    hide Planned, TasksOf, RowsWith, EligibleIds, LookupAllowed, MapPrincipal, ContainsAll, IsVerdict;
    RowsWithMembers(d.input.rows, (set i | i in EligibleIds(Bindings(d), vs, d.principals)), r);
    PickedIff(d, vs, r);
    b :| b in Bindings(d) && Listed(d.principals, b.principal) && r.id in b.sourceIds && b.id != "" && AllConfirmed(d, b, r);
    BindingsNeverWiden(d.input, b, r);
    TasksAreThePairs(Bindings(d));
    var t := Task(b.id, b.principal, b.role, b.scope, r.id);
    assert t in TasksOf(Bindings(d));
    i :| 0 <= i < |TasksOf(Bindings(d))| && TasksOf(Bindings(d))[i] == t;
    assert Confirmed(d, r, d.answers[i]);
    if !d.acceptUnknown { AllowedMeansContained(d.answers[i].value, r.operation, PatternOf(r)); }
  }

  /** The inventory without the rows that went. */
  function Left(d: Deletion, vs: seq<Verdict>): seq<Row>
    requires Planned(d.input).Ok?
  {
    Without(d.input.rows, set r | r in Picked(d, vs) :: r.id)
  }

  /** A request that loses its authorisation matched a row that went: DENY rows all stay. */
  lemma GoneMatch(d: Deletion, vs: seq<Verdict>, q: Request) returns (r: Row)
    requires Verified(d, vs) && KnownPatterns(d.input.rows) && Authorized(d.input.rows, q) && !Authorized(Left(d, vs), q)
    ensures r in Picked(d, vs) && r in d.input.rows && r.permission == Allow && r.host == "*" && Matches(r, q)
  {
    hide Planned, Picked, Matches, Verdicts;
    r :| r in d.input.rows && r.permission == Allow && Matches(r, q);
    if r !in Left(d, vs) {
      var s :| s in Picked(d, vs) && s.id == r.id;
      var _, _ := DeletionIsConfirmed(d, vs, s);
      DenyAnalysis.SameIdSameRow(d.input.rows, r, s);
    }
  }

  /** The service answered, for a row that went, with a grant of the row's own operation on the requested
      name to the principal the row maps to. It is the requested operation itself iff the row names it. */
  ghost predicate AnsweredFor(d: Deletion, r: Row, q: Request, i: nat, g: Grant)
    requires Planned(d.input).Ok? && |d.answers| == |TasksOf(Bindings(d))|
  {
    var m := MapPrincipal(r.principal, d.input.principals);
    && i < |d.answers| && m.Ok? && TasksOf(Bindings(d))[i].principal == m.value.resolved && TasksOf(Bindings(d))[i].sourceId == r.id
    && d.answers[i].Some? && g in d.answers[i].value && g.operation == r.operation
    && KafkaGrants(q.resourceType, g.operation, q.operation)
    && g.pattern.resourceType == q.resourceType && KnownPatternType(g.pattern.patternType)
    && Denotes(g.pattern.patternType, g.pattern.name, q.resource)
  }

  /** Deletion keeps access: with no unknowns accepted, every request the inventory authorises is
      authorised by the rows that are left, or some row that went matches it and the service granted
      that row's operation, which authorises the requested one, on the requested name. */
  lemma DeletionKeepsAccess(d: Deletion, vs: seq<Verdict>, q: Request)
    requires Verified(d, vs) && !d.acceptUnknown && KnownPatterns(d.input.rows) && Authorized(d.input.rows, q)
    ensures |d.answers| == |TasksOf(Bindings(d))|
    ensures Authorized(Left(d, vs), q)
            || exists r, i, g :: r in Picked(d, vs) && r in d.input.rows && Matches(r, q) && AnsweredFor(d, r, q, i, g)
  {
    hide Planned, Picked, TasksOf, MapPrincipal, LookupAllowed, ContainsAll, Without, Verdicts;
    OneAnswerPerTask(d, vs);
    if !Authorized(Left(d, vs), q) {
      var r := GoneMatch(d, vs, q);
      var b, i := DeletionIsConfirmed(d, vs, r);
      var g :| g in d.answers[i].value && g.operation == r.operation && g.pattern.resourceType == r.resourceType
               && KnownPatternType(g.pattern.patternType) && ContainsAll(g, PatternOf(r));
      ContainedName(g, r, q);
      assert AnsweredFor(d, r, q, i, g);
    }
  }

  lemma ContainedName(g: Grant, r: Row, q: Request)
    requires KnownPatternType(g.pattern.patternType) && KnownPatternType(r.patternType) && ContainsAll(g, PatternOf(r))
    requires r.permission == Allow && Matches(r, q)
    ensures Denotes(g.pattern.patternType, g.pattern.name, q.resource) && r.resourceType == q.resourceType
    ensures KafkaGrants(q.resourceType, r.operation, q.operation)
  {
    assert Denotes(PatternOf(r).patternType, PatternOf(r).name, q.resource);
  }

  /** From plan to broker: the generated script takes exactly the picked ACLs from any broker, or those
      before the first removal that fails, and the rollback script puts them back. Subjects and renamed
      clusters have no argument list. */
  lemma DeleteThenRollbackOfPicked(d: Deletion, vs: seq<Verdict>, o: Options, works: nat -> bool, store: set<Acl>, i: nat)
    requires Verified(d, vs) && forall r :: r in Picked(d, vs) ==> KnownRow(r) && HasFlag(r)
    requires FirstFailure(works, 0, i, |Picked(d, vs)|)
    ensures RunScript(RemoveText(Picked(d, vs), o), works, store) == Some(store - AclsOf(Picked(d, vs)[..i]))
    ensures AclsOf(Picked(d, vs)) <= store ==>
              RunScript(AddText(Picked(d, vs), o), Always, store - AclsOf(Picked(d, vs)[..i])) == Some(store)
  {
    hide Picked, RunScript, RemoveText, AddText, AclsOf;
    forall r | r in Picked(d, vs) ensures KnownRow(r) && AllowExpressible(r) {
      var _, _ := DeletionIsConfirmed(d, vs, r);
    }
    DeleteThenRollback(Picked(d, vs), o, works, store, i);
  }
}
