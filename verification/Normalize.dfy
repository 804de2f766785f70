/** Grouping of ACL rows and closure of the operation sets (pkg/aclrbac/normalize). */
module Normalize {
  import opened Ordering
  import opened Types
  import opened Kafka

  datatype Key = Key(
    principal: string, host: string, resourceType: ResourceType,
    resourceName: string, patternType: PatternType, permission: Permission)

  datatype AclGroup = AclGroup(key: Key, operations: set<Operation>, sourceIds: seq<int>)

  function KeyOf(r: Row): Key {
    Key(r.principal, r.host, r.resourceType, r.resourceName, r.patternType, r.permission)
  }

  /** The fields the group comparator looks at, in its order. */
  function KeyFields(k: Key): seq<string> {
    [k.principal, ResourceText(k.resourceType), k.resourceName, k.patternType, PermissionText(k.permission), k.host]
  }

  predicate KeyLess(a: Key, b: Key) { FieldsLess(KeyFields(a), KeyFields(b)) }

  predicate GroupLess(a: AclGroup, b: AclGroup) { KeyLess(a.key, b.key) }

  /** The comparator is a total order on the full key: no two keys tie. */
  lemma KeyLessIsOrder()
    ensures StrictTotalOrder(KeyLess)
  {
    FieldsLessIsOrder();
    forall a, b ensures KeyLess(a, b) || a == b || KeyLess(b, a) {
      var s, t := KeyFields(a), KeyFields(b);
      if s == t {
        assert s[0] == t[0] && s[1] == t[1] && s[2] == t[2] && s[3] == t[3] && s[4] == t[4] && s[5] == t[5];
        TextsInjective(a.resourceType, b.resourceType);
      }
    }
    forall a, b, c | KeyLess(a, b) && KeyLess(b, c) ensures KeyLess(a, c) {}
    forall a ensures !KeyLess(a, a) {}
  }

  // ---------------------------------------------------------------------------
  // Grouping

  function OpsOf(rows: seq<Row>, k: Key): set<Operation> {
    set r | r in rows && KeyOf(r) == k :: r.operation
  }

  function IdsOf(rows: seq<Row>, k: Key): seq<int> {
    if rows == [] then []
    else IdsOf(rows[..|rows| - 1], k) + (if KeyOf(rows[|rows| - 1]) == k then [rows[|rows| - 1].id] else [])
  }

  function KeySet(rows: seq<Row>): set<Key> {
    set r | r in rows :: KeyOf(r)
  }

  lemma KeySetStep(rows: seq<Row>, r: Row)
    ensures KeySet(rows + [r]) == KeySet(rows) + {KeyOf(r)}
  {
  }

  function DistinctKeys(rows: seq<Row>): (ks: seq<Key>)
    ensures NoDuplicates(ks)
    ensures forall k :: k in ks <==> k in KeySet(rows)
  {
    if rows == [] then [] else
      var ks := DistinctKeys(rows[..|rows| - 1]);
      var last := rows[|rows| - 1];
      assert rows == rows[..|rows| - 1] + [last];
      KeySetStep(rows[..|rows| - 1], last);
      if KeyOf(last) in ks then ks else ks + [KeyOf(last)]
  }

  function GroupOf(rows: seq<Row>, k: Key): AclGroup {
    AclGroup(k, OpsOf(rows, k), Sort(IntLess, IdsOf(rows, k)))
  }

  function SortedKeys(rows: seq<Row>): (ks: seq<Key>) {
    Sort(KeyLess, DistinctKeys(rows))
  }

  /** What grouping yields: one group per key, in key order. */
  function Groups(rows: seq<Row>): (gs: seq<AclGroup>) {
    var ks := SortedKeys(rows);
    seq(|ks|, i requires 0 <= i < |ks| => GroupOf(rows, ks[i]))
  }

  lemma IdsOfMembers(rows: seq<Row>, k: Key)
    ensures forall x :: x in IdsOf(rows, k) <==> exists r :: r in rows && KeyOf(r) == k && r.id == x
  {
  }

  lemma SortedKeysMembers(rows: seq<Row>)
    ensures NoDuplicates(SortedKeys(rows))
    ensures forall k :: k in SortedKeys(rows) <==> k in KeySet(rows)
  {
    MemberOfPermutation(SortedKeys(rows), DistinctKeys(rows));
    PermutationNoDuplicates(DistinctKeys(rows), SortedKeys(rows));
  }

  /** A group is in the result iff it is the group of some row's key, and no key has two groups. */
  lemma GroupsMembers(rows: seq<Row>)
    ensures forall g :: g in Groups(rows) ==> g.key in KeySet(rows) && g == GroupOf(rows, g.key)
    ensures forall k :: k in KeySet(rows) ==> GroupOf(rows, k) in Groups(rows)
    ensures forall i, j :: 0 <= i < j < |Groups(rows)| ==> Groups(rows)[i].key != Groups(rows)[j].key
  {
    var ks, gs := SortedKeys(rows), Groups(rows);
    SortedKeysMembers(rows);
    forall g | g in gs ensures g.key in KeySet(rows) && g == GroupOf(rows, g.key) {
      var i :| 0 <= i < |gs| && gs[i] == g;
      assert ks[i] in ks;
    }
    forall k | k in KeySet(rows) ensures GroupOf(rows, k) in gs {
      assert k in ks;
      var i :| 0 <= i < |ks| && ks[i] == k;
      assert gs[i] == GroupOf(rows, k);
    }
  }

  /** Groups are ordered by principal, then resource type, name, pattern type, permission and host. */
  ghost predicate KeyBefore(a: Key, b: Key) {
    if a.principal != b.principal then TextBefore(a.principal, b.principal)
    else if a.resourceType != b.resourceType then TextBefore(ResourceText(a.resourceType), ResourceText(b.resourceType))
    else if a.resourceName != b.resourceName then TextBefore(a.resourceName, b.resourceName)
    else if a.patternType != b.patternType then TextBefore(a.patternType, b.patternType)
    else if a.permission != b.permission then a.permission == Allow
    else TextBefore(a.host, b.host)
  }

  lemma FieldsLessFrom(a: seq<string>, b: seq<string>, i: nat)
    requires i < |a| == |b|
    ensures FieldsLess(a[i..], b[i..]) <==> if a[i] != b[i] then TextBefore(a[i], b[i]) else FieldsLess(a[i + 1..], b[i + 1..])
  {
    assert a[i..][1..] == a[i + 1..] && b[i..][1..] == b[i + 1..];
    StringLessIff(a[i], b[i]);
    FieldsLessIsOrder();
    hide StringLess, TextBefore;
  }

  lemma SixFields(s: seq<string>, t: seq<string>)
    requires |s| == 6 == |t|
    ensures FieldsLess(s, t) <==>
            if s[0] != t[0] then TextBefore(s[0], t[0]) else if s[1] != t[1] then TextBefore(s[1], t[1])
            else if s[2] != t[2] then TextBefore(s[2], t[2]) else if s[3] != t[3] then TextBefore(s[3], t[3])
            else if s[4] != t[4] then TextBefore(s[4], t[4]) else TextBefore(s[5], t[5])
  {
    hide FieldsLess, TextBefore;
    FieldsLessFrom(s, t, 0);
    FieldsLessFrom(s, t, 1);
    FieldsLessFrom(s, t, 2);
    FieldsLessFrom(s, t, 3);
    FieldsLessFrom(s, t, 4);
    FieldsLessFrom(s, t, 5);
    assert s[0..] == s && t[0..] == t;
    NoFieldsLeft(s[6..], t[6..]);
    TextNotBeforeItself(s[5]);
  }

  lemma KeyLessIff(a: Key, b: Key)
    ensures KeyLess(a, b) <==> KeyBefore(a, b)
  {
    hide FieldsLess, TextBefore, ResourceText;
    SixFields(KeyFields(a), KeyFields(b));
    TextsInjective(a.resourceType, b.resourceType);
    PermissionsOrdered();
  }

  lemma PermissionsOrdered()
    ensures TextBefore(PermissionText(Allow), PermissionText(Deny)) && !TextBefore(PermissionText(Deny), PermissionText(Allow))
  {
    BeforeAfterNone("Allow", "Deny");
    StringLessIff("Deny", "Allow");
  }

  lemma NoFieldsLeft(s: seq<string>, t: seq<string>)
    requires s == [] && t == []
    ensures !FieldsLess(s, t)
  {
  }

  lemma TextNotBeforeItself(s: string)
    ensures !TextBefore(s, s)
  {
    StringLessIff(s, s);
    FieldsLessIsOrder();
  }

  /** The groups come in that order, and the ids of each ascend. */
  lemma GroupsInOrder(rows: seq<Row>)
    ensures forall i, j :: 0 <= i < j < |Groups(rows)| ==> KeyBefore(Groups(rows)[i].key, Groups(rows)[j].key)
    ensures forall g, i, j :: g in Groups(rows) && 0 <= i < j < |g.sourceIds| ==> g.sourceIds[i] <= g.sourceIds[j]
  {
    KeyLessIsOrder();
    SortSorts(KeyLess, DistinctKeys(rows));
    SortedKeysMembers(rows);
    hide Sort, KeyBefore, KeyLess, IdsOf, OpsOf;
    var ks, gs := SortedKeys(rows), Groups(rows);
    forall i, j | 0 <= i < j < |gs| ensures KeyBefore(gs[i].key, gs[j].key) {
      assert !KeyLess(ks[j], ks[i]) && ks[i] != ks[j];
      KeyLessIff(ks[i], ks[j]);
    }
    forall g | g in gs ensures forall i, j :: 0 <= i < j < |g.sourceIds| ==> g.sourceIds[i] <= g.sourceIds[j] {
      GroupsMembers(rows);
      SortSorts(IntLess, IdsOf(rows, g.key));
    }
  }

  /** Every row is accounted for in exactly the group of its key. */
  lemma RowInItsGroup(rows: seq<Row>, r: Row)
    requires r in rows
    ensures GroupOf(rows, KeyOf(r)) in Groups(rows)
    ensures r.operation in GroupOf(rows, KeyOf(r)).operations
    ensures r.id in GroupOf(rows, KeyOf(r)).sourceIds
  {
    GroupsMembers(rows);
    IdsOfMembers(rows, KeyOf(r));
    MemberOfPermutation(IdsOf(rows, KeyOf(r)), Sort(IntLess, IdsOf(rows, KeyOf(r))));
  }

  lemma {:induction false} IdsOfConcat(a: seq<Row>, b: seq<Row>, k: Key)
    ensures IdsOf(a + b, k) == IdsOf(a, k) + IdsOf(b, k)
  {
    if b == [] {
      assert a + b == a;
    } else {
      var init := b[..|b| - 1];
      assert (a + b)[..|a + b| - 1] == a + init;
      IdsOfConcat(a, init, k);
    }
  }

  lemma {:induction false} IdsOfPermutes(s: seq<Row>, t: seq<Row>, k: Key)
    requires multiset(s) == multiset(t)
    ensures multiset(IdsOf(s, k)) == multiset(IdsOf(t, k))
    decreases |s|
  {
    hide IdsOf;
    MemberOfPermutation(s, t);
    if s != [] {
      var init, last := s[..|s| - 1], s[|s| - 1];
      assert s == init + [last];
      var before, after := SplitAround(t, last);
      assert multiset(init) == multiset(s) - multiset{last};
      IdsOfPermutes(init, before + after, k);
      IdsOfConcat(init, [last], k);
      IdsAround(before, last, after, k);
    }
  }

  lemma SplitAround(t: seq<Row>, r: Row) returns (before: seq<Row>, after: seq<Row>)
    requires r in t
    ensures t == before + ([r] + after)
    ensures multiset(before + after) == multiset(t) - multiset{r}
  {
    var j :| 0 <= j < |t| && t[j] == r;
    before, after := t[..j], t[j + 1..];
    assert t == before + ([r] + after);
    WithoutOne(before, r, after);
  }

  lemma WithoutOne(before: seq<Row>, r: Row, after: seq<Row>)
    ensures multiset(before + after) == multiset(before + ([r] + after)) - multiset{r}
  {
  }

  lemma IdsAround(before: seq<Row>, r: Row, after: seq<Row>, k: Key)
    ensures multiset(IdsOf(before + ([r] + after), k)) == multiset(IdsOf(before + after, k)) + multiset(IdsOf([r], k))
  {
    IdsOfConcat(before, after, k);
    IdsOfConcat(before, [r] + after, k);
    IdsOfConcat([r], after, k);
    hide IdsOf;
  }

  lemma GroupOfIgnoresOrder(s: seq<Row>, t: seq<Row>, k: Key)
    requires multiset(s) == multiset(t)
    ensures GroupOf(s, k) == GroupOf(t, k)
  {
    MemberOfPermutation(s, t);
    assert OpsOf(s, k) == OpsOf(t, k);
    IdsOfPermutes(s, t, k);
    SortIgnoresOrder(IntLess, IdsOf(s, k), IdsOf(t, k));
  }

  lemma SortedKeysIgnoreOrder(s: seq<Row>, t: seq<Row>)
    requires multiset(s) == multiset(t)
    ensures SortedKeys(s) == SortedKeys(t)
  {
    MemberOfPermutation(s, t);
    var a, b := DistinctKeys(s), DistinctKeys(t);
    forall k ensures k in a <==> k in b {}
    SameElementsPermute(a, b);
    KeyLessIsOrder();
    SortIgnoresOrder(KeyLess, a, b);
  }

  /** Grouping does not depend on the order of the rows. */
  lemma GroupsIgnoreOrder(s: seq<Row>, t: seq<Row>)
    requires multiset(s) == multiset(t)
    ensures Groups(s) == Groups(t)
  {
    SortedKeysIgnoreOrder(s, t);
    forall k ensures GroupOf(s, k) == GroupOf(t, k) { GroupOfIgnoresOrder(s, t, k); }
  }

  function KeysOf(gs: seq<AclGroup>): (ks: seq<Key>)
    ensures |ks| == |gs| && forall i :: 0 <= i < |gs| ==> ks[i] == gs[i].key
  {
    if gs == [] then [] else [gs[0].key] + KeysOf(gs[1..])
  }

  lemma {:induction false} KeysOfAppend(gs: seq<AclGroup>, g: AclGroup)
    ensures KeysOf(gs + [g]) == KeysOf(gs) + [g.key]
  {
    if gs != [] {
      assert (gs + [g])[1..] == gs[1..] + [g];
      KeysOfAppend(gs[1..], g);
    }
  }

  lemma {:induction false} InsertCommutesWithKeys(g: AclGroup, gs: seq<AclGroup>)
    ensures KeysOf(Insert(GroupLess, g, gs)) == Insert(KeyLess, g.key, KeysOf(gs))
  {
    if gs != [] && GroupLess(gs[0], g) {
      InsertCommutesWithKeys(g, gs[1..]);
    }
  }

  lemma {:induction false} SortCommutesWithKeys(gs: seq<AclGroup>)
    ensures KeysOf(Sort(GroupLess, gs)) == Sort(KeyLess, KeysOf(gs))
  {
    if gs != [] {
      SortCommutesWithKeys(gs[1..]);
      InsertCommutesWithKeys(gs[0], Sort(GroupLess, gs[1..]));
    }
  }

  /** Sorting the groups of all keys by the comparator gives the one result, in whatever order
      the groups were produced. */
  lemma SortedGroupsUnique(rows: seq<Row>, out: seq<AclGroup>)
    requires NoDuplicates(KeysOf(out))
    requires forall k :: k in KeysOf(out) <==> k in DistinctKeys(rows)
    requires forall g :: g in out ==> g == GroupOf(rows, g.key)
    ensures Sort(GroupLess, out) == Groups(rows)
  {
    var sorted, gs := Sort(GroupLess, out), Groups(rows);
    SortCommutesWithKeys(out);
    SameElementsPermute(KeysOf(out), DistinctKeys(rows));
    KeyLessIsOrder();
    SortIgnoresOrder(KeyLess, KeysOf(out), DistinctKeys(rows));
    assert KeysOf(sorted) == SortedKeys(rows);
    MemberOfPermutation(sorted, out);
    forall i | 0 <= i < |sorted| ensures sorted[i] == gs[i] {
      assert sorted[i] in sorted && sorted[i].key == KeysOf(sorted)[i];
    }
  }

  /** The table of groups the first loop builds: ids still in input order. */
  ghost predicate Indexes(idx: map<Key, AclGroup>, rows: seq<Row>) {
    && idx.Keys == KeySet(rows)
    && (forall k :: k in idx ==> idx[k] == AclGroup(k, OpsOf(rows, k), IdsOf(rows, k)))
  }

  lemma IndexesStep(idx: map<Key, AclGroup>, rows: seq<Row>, r: Row)
    requires Indexes(idx, rows)
    ensures var k := KeyOf(r);
            var g := if k in idx then idx[k] else AclGroup(k, {}, []);
            Indexes(idx[k := AclGroup(k, g.operations + {r.operation}, g.sourceIds + [r.id])], rows + [r])
  {
    KeySetStep(rows, r);
    hide OpsOf, IdsOf;
    forall k ensures OpsOf(rows + [r], k) == OpsOf(rows, k) + (if KeyOf(r) == k then {r.operation} else {})
             ensures IdsOf(rows + [r], k) == IdsOf(rows, k) + (if KeyOf(r) == k then [r.id] else []) {
      GroupStep(rows, r, k);
    }
    if KeyOf(r) !in idx {
      forall q | q in rows ensures KeyOf(q) != KeyOf(r) { assert KeyOf(q) in KeySet(rows); }
      NoRowsNoGroup(rows, KeyOf(r));
    }
    hide KeySet, KeyOf;
  }

  lemma GroupStep(rows: seq<Row>, r: Row, k: Key)
    ensures OpsOf(rows + [r], k) == OpsOf(rows, k) + (if KeyOf(r) == k then {r.operation} else {})
    ensures IdsOf(rows + [r], k) == IdsOf(rows, k) + (if KeyOf(r) == k then [r.id] else [])
  {
  }

  lemma {:induction false} NoRowsNoGroup(rows: seq<Row>, k: Key)
    requires forall r :: r in rows ==> KeyOf(r) != k
    ensures OpsOf(rows, k) == {} && IdsOf(rows, k) == []
  {
    if rows != [] { NoRowsNoGroup(rows[..|rows| - 1], k); }
  }

  /** First loop: rows are added to the group of their key. */
  method IndexRows(rows: seq<Row>) returns (idx: map<Key, AclGroup>)
    ensures Indexes(idx, rows)
  {
    idx := map[];
    assert Indexes(idx, []);
    hide *;
    for n := 0 to |rows|
      invariant Indexes(idx, rows[..n])
    {
      var r := rows[n];
      var k := KeyOf(r);
      IndexesStep(idx, rows[..n], r);
      assert rows[..n] + [r] == rows[..n + 1];
      var g := if k in idx then idx[k] else AclGroup(k, {}, []);
      idx := idx[k := AclGroup(k, g.operations + {r.operation}, g.sourceIds + [r.id])];
    }
    assert rows[..|rows|] == rows;
  }

  /** The groups collected so far from the table, `todo` being the keys not yet visited. */
  ghost predicate Collected(idx: map<Key, AclGroup>, todo: set<Key>, out: seq<AclGroup>) {
    && todo <= idx.Keys
    && NoDuplicates(KeysOf(out))
    && (forall k :: k in KeysOf(out) <==> k in idx.Keys - todo)
    && (forall g :: g in out ==> g.key in idx && g == idx[g.key].(sourceIds := Sort(IntLess, idx[g.key].sourceIds)))
  }

  lemma CollectedStep(idx: map<Key, AclGroup>, todo: set<Key>, out: seq<AclGroup>, k: Key)
    requires Collected(idx, todo, out) && k in todo && idx[k].key == k
    ensures Collected(idx, todo - {k}, out + [idx[k].(sourceIds := Sort(IntLess, idx[k].sourceIds))])
  {
    var g := idx[k].(sourceIds := Sort(IntLess, idx[k].sourceIds));
    hide KeysOf, Sort;
    KeysOfAppend(out, g);
    assert k !in KeysOf(out);
    NoDuplicatesAppend(KeysOf(out), k);
    forall j ensures j in KeysOf(out + [g]) <==> j in idx.Keys - (todo - {k}) {
      assert j in KeysOf(out) + [k] <==> j in KeysOf(out) || j == k;
    }
    forall h | h in out + [g] ensures h.key in idx && h == idx[h.key].(sourceIds := Sort(IntLess, idx[h.key].sourceIds)) {
      assert h in out || h == g;
    }
  }

  /** Groups the rows. The second loop visits the table in an arbitrary order, as iteration over
      a Go map does; the result is the same for every order. */
  method GroupRows(rows: seq<Row>) returns (out: seq<AclGroup>)
    ensures out == Groups(rows)
  {
    var idx := IndexRows(rows);
    out := [];
    var todo := idx.Keys;
    while todo != {}
      invariant Collected(idx, todo, out)
      decreases |todo|
    {
      var k :| k in todo;
      CollectedStep(idx, todo, out, k);
      out := out + [idx[k].(sourceIds := Sort(IntLess, idx[k].sourceIds))];
      todo := todo - {k};
    }
    SortedGroupsUnique(rows, out);
    out := Sort(GroupLess, out);
  }

  // ---------------------------------------------------------------------------
  // Closure of the operation sets

  /** The operations `All` stands for, per resource type. */
  function AllImpliedOps(rt: ResourceType): set<Operation> {
    match rt
    case Cluster => {Create, Describe, Alter, DescribeConfigs, AlterConfigs, ClusterAction, IdempotentWrite}
    case Topic => {Read, Write, Create, Delete, Alter, Describe, DescribeConfigs, AlterConfigs}
    case Group => {Read, Delete, Describe}
    case TransactionalId => {Write, Describe}
    case DelegationToken => {Describe}
    case Subject => {Read, Write, Describe, Delete}
  }

  /** The operations an allowed operation grants implicitly. */
  function ImpliedOps(op: Operation): set<Operation> {
    match op
    case Read | Write | Delete | Alter => {Describe}
    case AlterConfigs => {DescribeConfigs}
    case _ => {}
  }

  function ImpliedBy(ops: set<Operation>): set<Operation> {
    set op, implied | op in ops && implied in ImpliedOps(op) :: implied
  }

  function ExpandedAll(g: AclGroup): AclGroup {
    if All in g.operations then g.(operations := g.operations + AllImpliedOps(g.key.resourceType)) else g
  }

  function ExpandedImplied(g: AclGroup): AclGroup {
    if g.key.permission != Allow then g else g.(operations := g.operations + ImpliedBy(g.operations))
  }

  function NormalizedGroup(g: AclGroup): (r: AclGroup)
    ensures r.key == g.key && r.sourceIds == g.sourceIds
  {
    ExpandedImplied(ExpandedAll(g))
  }

  function Normalized(rows: seq<Row>): (gs: seq<AclGroup>)
  {
    var gs := Groups(rows);
    seq(|gs|, i requires 0 <= i < |gs| => NormalizedGroup(gs[i]))
  }

  method ExpandAll(g: AclGroup) returns (r: AclGroup)
    ensures r == ExpandedAll(g)
  {
    if All !in g.operations { return g; }
    var ops := {};
    var todo := g.operations;
    while todo != {}
      invariant ops + todo == g.operations
    {
      var op :| op in todo;
      ops, todo := ops + {op}, todo - {op};
    }
    todo := AllImpliedOps(g.key.resourceType);
    while todo != {}
      invariant ops + todo == g.operations + AllImpliedOps(g.key.resourceType)
    {
      var op :| op in todo;
      ops, todo := ops + {op}, todo - {op};
    }
    r := g.(operations := ops);
  }

  /** The additions are collected before anything is added, in an arbitrary visiting order. */
  method ExpandImplied(g: AclGroup) returns (r: AclGroup)
    ensures r == ExpandedImplied(g)
  {
    if g.key.permission != Allow { return g; }
    var add := {};
    var done, todo := {}, g.operations;
    while todo != {}
      invariant done + todo == g.operations && add == ImpliedBy(done)
      decreases |todo|
    {
      var op :| op in todo;
      assert ImpliedBy(done + {op}) == ImpliedBy(done) + ImpliedOps(op);
      add, done, todo := add + ImpliedOps(op), done + {op}, todo - {op};
    }
    assert done == g.operations;
    if add == {} {
      assert g.operations + ImpliedBy(g.operations) == g.operations;
      return g;
    }
    r := g.(operations := g.operations + add);
  }

  method NormalizeRows(rows: seq<Row>) returns (out: seq<AclGroup>)
    ensures out == Normalized(rows)
  {
    hide Groups, ImpliedBy, AllImpliedOps;
    var groups := GroupRows(rows);
    out := [];
    for i := 0 to |groups|
      invariant |out| == i && forall j :: 0 <= j < i ==> out[j] == NormalizedGroup(groups[j])
    {
      var a := ExpandAll(groups[i]);
      var b := ExpandImplied(a);
      out := out + [b];
    }
  }

  /** The two tables say what Kafka does. */
  lemma TablesAreKafkas(rt: ResourceType, granted: Operation, op: Operation)
    ensures op in AllImpliedOps(rt) <==> rt in TypesOf(op)
    ensures op in ImpliedOps(granted) <==> Implies(granted, op)
  {
  }

  ghost predicate ClosedUnder(rt: ResourceType, ops: set<Operation>) {
    forall granted, op :: granted in ops && KafkaGrants(rt, granted, op) ==> op in ops
  }

  /** One pass of the two expansions is a closure operator: the result is closed, it is the least
      closed set that holds the group's operations, and a second pass adds nothing. */
  lemma ClosureInOnePass(g: AclGroup, other: set<Operation>)
    requires g.key.permission == Allow
    ensures g.operations <= NormalizedGroup(g).operations
    ensures ClosedUnder(g.key.resourceType, NormalizedGroup(g).operations)
    ensures g.operations <= other && ClosedUnder(g.key.resourceType, other) ==> NormalizedGroup(g).operations <= other
    ensures NormalizedGroup(NormalizedGroup(g)) == NormalizedGroup(g)
  {
    hide NormalizedGroup, KafkaGrants;
    var rt, n := g.key.resourceType, NormalizedGroup(g);
    forall op ensures op in n.operations <==> exists raw :: raw in g.operations && KafkaGrants(rt, raw, op) { NormalizedHas(g, op); }
    forall op ensures KafkaGrants(rt, op, op) { GrantsItself(rt, op); }
    forall granted, op | granted in n.operations && KafkaGrants(rt, granted, op) ensures op in n.operations {
      var raw :| raw in g.operations && KafkaGrants(rt, raw, granted);
      GrantsCompose(rt, raw, granted, op);
    }
    ClosedIsFixed(n);
  }

  lemma ClosedIsFixed(n: AclGroup)
    requires n.key.permission == Allow && ClosedUnder(n.key.resourceType, n.operations)
    ensures NormalizedGroup(n) == n
  {
    hide NormalizedGroup;
    forall op ensures op in NormalizedGroup(n).operations <==> op in n.operations {
      NormalizedHas(n, op);
      GrantsItself(n.key.resourceType, op);
    }
    hide KafkaGrants;
    assert NormalizedGroup(n).operations == n.operations;
  }

  lemma GrantsItself(rt: ResourceType, op: Operation)
    ensures KafkaGrants(rt, op, op)
  {
  }

  /** The operations of a normalised Allow group are what those of the raw group grant. */
  lemma NormalizedHas(g: AclGroup, op: Operation)
    requires g.key.permission == Allow
    ensures op in NormalizedGroup(g).operations <==> exists raw :: raw in g.operations && KafkaGrants(g.key.resourceType, raw, op)
  {
    var rt, wide := g.key.resourceType, ExpandedAll(g).operations;
    if op in NormalizedGroup(g).operations {
      var src := op;
      if op !in wide {
        src :| src in wide && op in ImpliedOps(src);
      }
      TablesAreKafkas(rt, src, op);
      TablesAreKafkas(rt, All, src);
      hide AllImpliedOps, ImpliedOps, TypesOf, Implies;
      var raw := if src in g.operations then src else All;
      assert KafkaGrants(rt, raw, src) && KafkaGrants(rt, src, op);
      GrantsCompose(rt, raw, src, op);
    }
    if raw :| raw in g.operations && KafkaGrants(rt, raw, op) {
      TablesAreKafkas(rt, raw, op);
      hide AllImpliedOps, ImpliedOps, TypesOf, Implies;
      assert raw in wide;
    }
  }

  /** The normalised operations of an Allow group are the union of what its rows authorise. */
  lemma NormalizedIsWhatRowsGrant(rows: seq<Row>, k: Key, op: Operation)
    requires k.permission == Allow
    ensures op in NormalizedGroup(GroupOf(rows, k)).operations <==>
            exists r :: r in rows && KeyOf(r) == k && KafkaGrants(k.resourceType, r.operation, op)
  {
    NormalizedHas(GroupOf(rows, k), op);
    hide NormalizedGroup, KafkaGrants;
    forall raw ensures raw in GroupOf(rows, k).operations <==> exists r :: r in rows && KeyOf(r) == k && r.operation == raw {}
  }

  lemma NormalizedMembers(rows: seq<Row>)
    ensures forall g :: g in Normalized(rows) ==> g.key in KeySet(rows) && g == NormalizedGroup(GroupOf(rows, g.key))
    ensures forall k :: k in KeySet(rows) ==> NormalizedGroup(GroupOf(rows, k)) in Normalized(rows)
    ensures forall i, j :: 0 <= i < j < |Normalized(rows)| ==> Normalized(rows)[i].key != Normalized(rows)[j].key
  {
    hide ExpandedAll, ExpandedImplied, GroupOf, Groups;
    GroupsMembers(rows);
    var gs, ns := Groups(rows), Normalized(rows);
    forall g | g in ns ensures g.key in KeySet(rows) && g == NormalizedGroup(GroupOf(rows, g.key)) {
      var i :| 0 <= i < |ns| && ns[i] == g;
      assert gs[i] in gs;
    }
    forall k | k in KeySet(rows) ensures NormalizedGroup(GroupOf(rows, k)) in ns {
      assert GroupOf(rows, k) in gs;
      var i :| 0 <= i < |gs| && gs[i] == GroupOf(rows, k);
      assert ns[i] == NormalizedGroup(GroupOf(rows, k));
    }
  }
}
