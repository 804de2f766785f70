/** Classification of DENY rows (pkg/aclrbac/plan/deny.go). */
module DenyAnalysis {
  import opened Types
  import opened Kafka
  import opened Normalize
  import opened Authorizer

  datatype AllowEntry = AllowEntry(principal: string, operation: Operation, pattern: Pattern)

  function EntryOf(k: Key, op: Operation): AllowEntry {
    AllowEntry(k.principal, op, Pattern(k.resourceType, k.resourceName, k.patternType))
  }

  /** The entries the index must hold: the `All` marker is skipped. */
  function AllowEntries(groups: seq<AclGroup>): set<AllowEntry> {
    set g, op | g in groups && op in g.operations && g.key.permission == Allow && op != All :: EntryOf(g.key, op)
  }

  /** Builds the index, visiting each group's operations in an arbitrary order. */
  method BuildAllowIndex(groups: seq<AclGroup>) returns (idx: seq<AllowEntry>)
    ensures forall e :: e in idx <==> e in AllowEntries(groups)
  {
    idx := [];
    for n := 0 to |groups|
      invariant forall e :: e in idx <==> e in AllowEntries(groups[..n])
    {
      var g := groups[n];
      assert groups[..n + 1] == groups[..n] + [g];
      ghost var before := AllowEntries(groups[..n]);
      if g.key.permission == Allow {
        var done, todo := {}, g.operations;
        while todo != {}
          invariant done + todo == g.operations
          invariant forall e :: e in idx <==> e in before || exists op :: op in done && op != All && e == EntryOf(g.key, op)
          decreases |todo|
        {
          var op :| op in todo;
          if op != All {
            idx := idx + [EntryOf(g.key, op)];
          }
          done, todo := done + {op}, todo - {op};
        }
        assert done == g.operations;
      }
    }
    assert groups[..|groups|] == groups;
  }

  /** The test on principals, by cutting suffixes and comparing prefixes. */
  predicate AllowPrincipalCovers(allowPrincipal: string, denyPrincipal: string) {
    if allowPrincipal == denyPrincipal then true
    else if allowPrincipal == "*" then true
    else HasSuffix(allowPrincipal, ":*") && allowPrincipal[..|allowPrincipal| - 2] + ":" <= denyPrincipal
  }

  /** The test decides coverage as the authorizer means it. */
  lemma PrincipalTestIsExact(a: string, p: string)
    ensures AllowPrincipalCovers(a, p) <==> PrincipalCovers(a, p)
  {
    if HasSuffix(a, ":*") { assert a == a[..|a| - 2] + ":*"; }
    if kind: string :| a == kind + ":*" && kind + ":" <= p { assert a[..|a| - 2] == kind && a[|a| - 2..] == ":*"; }
  }

  /** Whether removing `r` would expose what the entry grants. */
  predicate Exposes(a: AllowEntry, r: Row) {
    && AllowPrincipalCovers(a.principal, r.principal)
    && (r.operation == All || a.operation == r.operation || a.operation == All || r.operation in ImpliedOps(a.operation))
    && a.pattern.resourceType == r.resourceType
    && PatternsOverlap(a.pattern.patternType, a.pattern.name, r.patternType, r.resourceName)
  }

  /** The first exposing entry decides; only its text, not the status, depends on the index order. */
  function ClassifyDeny(r: Row, idx: seq<AllowEntry>): DenyStatus {
    if IsWildcardPrincipal(r.principal) then Unknown else Scan(r, idx)
  }

  function Scan(r: Row, idx: seq<AllowEntry>): (s: DenyStatus)
    ensures s == if exists a :: a in idx && Exposes(a, r) then WouldGrantAccess else SafeToRemove
  {
    if idx == [] then SafeToRemove
    else if Exposes(idx[0], r) then WouldGrantAccess
    else
      assert idx == [idx[0]] + idx[1..];
      Scan(r, idx[1..])
  }

  /** The status against a set of entries, without an order. */
  function StatusAgainst(r: Row, entries: set<AllowEntry>): DenyStatus {
    if IsWildcardPrincipal(r.principal) then Unknown
    else if exists a | a in entries :: Exposes(a, r) then WouldGrantAccess
    else SafeToRemove
  }

  function DenyEntries(rows: seq<Row>, entries: set<AllowEntry>): seq<DenyEntry> {
    if rows == [] then [] else
      DenyEntries(rows[..|rows| - 1], entries) +
      (var r := rows[|rows| - 1];
       if r.permission == Deny then [DenyEntry(r.id, StatusAgainst(r, entries))] else [])
  }

  method AnalyzeDenies(groups: seq<AclGroup>, rows: seq<Row>) returns (out: seq<DenyEntry>)
    ensures out == DenyEntries(rows, AllowEntries(groups))
  {
    var idx := BuildAllowIndex(groups);
    out := [];
    for n := 0 to |rows|
      invariant out == DenyEntries(rows[..n], AllowEntries(groups))
    {
      var r := rows[n];
      assert rows[..n + 1][..n] == rows[..n];
      if r.permission == Deny {
        out := out + [DenyEntry(r.id, ClassifyDeny(r, idx))];
      }
    }
    assert rows[..|rows|] == rows;
  }

  /** The status the planner gives to a row of `rows`. */
  function StatusIn(rows: seq<Row>, r: Row): DenyStatus {
    StatusAgainst(r, AllowEntries(Normalized(rows)))
  }

  lemma {:induction false} DenyEntriesMembers(rows: seq<Row>, entries: set<AllowEntry>, e: DenyEntry)
    ensures e in DenyEntries(rows, entries) <==>
            exists r :: r in rows && r.permission == Deny && e == DenyEntry(r.id, StatusAgainst(r, entries))
  {
    if rows != [] {
      var init, last := rows[..|rows| - 1], rows[|rows| - 1];
      assert rows == init + [last];
      DenyEntriesMembers(init, entries, e);
    }
  }

  /** An entry exists for an operation iff some Allow row of that key grants it. */
  lemma EntryIffRowGrants(rows: seq<Row>, k: Key, op: Operation)
    requires k.permission == Allow && op != All
    ensures (exists r :: r in rows && KeyOf(r) == k && KafkaGrants(k.resourceType, r.operation, op))
            ==> EntryOf(k, op) in AllowEntries(Normalized(rows))
  {
    if r :| r in rows && KeyOf(r) == k && KafkaGrants(k.resourceType, r.operation, op) {
      NormalizedIsWhatRowsGrant(rows, k, op);
      NormalizedMembers(rows);
      assert k in KeySet(rows);
      hide NormalizedGroup, Normalized, GroupOf, KafkaGrants;
      var g := NormalizedGroup(GroupOf(rows, k));
      assert g in Normalized(rows) && op in g.operations && g.key == k;
    }
  }

  lemma EntryHasRow(rows: seq<Row>, a: AllowEntry) returns (k: Key)
    requires a in AllowEntries(Normalized(rows))
    ensures k in KeySet(rows) && k.permission == Allow && a == EntryOf(k, a.operation) && a.operation != All
    ensures a.operation in NormalizedGroup(GroupOf(rows, k)).operations
  {
    var gs := Normalized(rows);
    hide NormalizedGroup, Normalized, GroupOf;
    var g, op :| g in gs && op in g.operations && g.key.permission == Allow && op != All && a == EntryOf(g.key, op);
    NormalizedMembers(rows);
    k := g.key;
  }

  /** Some Allow row of the set and the DENY row `d` match a common request, hosts aside. */
  ghost predicate GrantsInsideDeny(rows: seq<Row>, d: Row)
    requires KnownPatterns(rows) && KnownPatternType(d.patternType)
  {
    exists r, q :: r in rows && r.permission == Allow && MatchesIgnoringHost(r, q) && MatchesIgnoringHost(d, q)
  }

  lemma ConcreteCoversOnlyItself(p: string, q: string)
    requires !IsWildcardPrincipal(p)
    ensures PrincipalCovers(p, q) <==> p == q
  {
  }

  lemma ExposureIsSound(rows: seq<Row>, d: Row, a: AllowEntry)
    requires KnownPatterns(rows) && KnownPatternType(d.patternType) && d.permission == Deny
    requires a in AllowEntries(Normalized(rows)) && Exposes(a, d)
    ensures GrantsInsideDeny(rows, d)
  {
    var k := EntryHasRow(rows, a);
    var op := if d.operation == All then a.operation else d.operation;
    assert op in NormalizedGroup(GroupOf(rows, k)).operations by {
      ClosureInOnePass(GroupOf(rows, k), {});
    }
    NormalizedIsWhatRowsGrant(rows, k, op);
    hide NormalizedGroup, Normalized, GroupOf, KafkaGrants, AllowEntries;
    var r :| r in rows && KeyOf(r) == k && KafkaGrants(k.resourceType, r.operation, op);
    OverlapIsIntersection(r.patternType, r.resourceName, d.patternType, d.resourceName);
    var n :| Denotes(r.patternType, r.resourceName, n) && Denotes(d.patternType, d.resourceName, n);
    var q := Request(d.principal, "", op, d.resourceType, n);
    assert op != All;
    PrincipalTestIsExact(r.principal, d.principal);
    assert MatchesIgnoringHost(r, q) && MatchesIgnoringHost(d, q);
  }

  lemma ExposureIsComplete(rows: seq<Row>, d: Row, r: Row, q: Request)
    requires KnownPatterns(rows) && KnownPatternType(d.patternType) && d.permission == Deny
    requires !IsWildcardPrincipal(d.principal)
    requires r in rows && r.permission == Allow && MatchesIgnoringHost(r, q) && MatchesIgnoringHost(d, q)
    ensures StatusIn(rows, d) == WouldGrantAccess
  {
    var a := EntryOf(KeyOf(r), q.operation);
    EntryIffRowGrants(rows, KeyOf(r), q.operation);
    hide NormalizedGroup, Normalized, GroupOf, KafkaGrants, AllowEntries;
    ConcreteCoversOnlyItself(d.principal, q.principal);
    PrincipalTestIsExact(r.principal, d.principal);
    OverlapIsIntersection(r.patternType, r.resourceName, d.patternType, d.resourceName);
    assert a in AllowEntries(Normalized(rows)) && Exposes(a, d);
  }

  /** The static classification is exact: UNKNOWN iff the principal is a wildcard, and otherwise
      WOULD_GRANT_ACCESS iff some Allow row grants a concrete operation on a concrete name that the
      DENY matches for the same principal. */
  lemma ClassificationIsExact(rows: seq<Row>, d: Row)
    requires KnownPatterns(rows) && KnownPatternType(d.patternType) && d.permission == Deny
    ensures StatusIn(rows, d) == Unknown <==> IsWildcardPrincipal(d.principal)
    ensures !IsWildcardPrincipal(d.principal) ==>
              (StatusIn(rows, d) == WouldGrantAccess <==> GrantsInsideDeny(rows, d))
  {
    hide AllowEntries, Normalized, Exposes;
    if !IsWildcardPrincipal(d.principal) {
      if StatusIn(rows, d) == WouldGrantAccess {
        var a :| a in AllowEntries(Normalized(rows)) && Exposes(a, d);
        ExposureIsSound(rows, d, a);
      }
      if GrantsInsideDeny(rows, d) {
        var r, q :| r in rows && r.permission == Allow && MatchesIgnoringHost(r, q) && MatchesIgnoringHost(d, q);
        ExposureIsComplete(rows, d, r, q);
      }
    }
  }

  // ---------------------------------------------------------------------------
  // Safety of removal

  /** The ids whose DENY row is classified SAFE_TO_REMOVE. */
  ghost predicate AllSafe(rows: seq<Row>, ids: set<int>) {
    forall r :: r in rows && r.id in ids ==> r.permission == Deny && StatusIn(rows, r) == SafeToRemove
  }

  /** Removing any set of SAFE_TO_REMOVE rows changes no authorisation decision. */
  lemma SafeRemovalChangesNothing(rows: seq<Row>, ids: set<int>, q: Request)
    requires KnownPatterns(rows) && AllSafe(rows, ids)
    ensures Authorized(Without(rows, ids), q) == Authorized(rows, q)
  {
    var left := Without(rows, ids);
    hide StatusIn, Matches, MatchesIgnoringHost;
    if Authorized(left, q) && !Authorized(rows, q) {
      var r :| r in left && r.permission == Allow && Matches(r, q);
      var d :| d in rows && d.permission == Deny && Matches(d, q);
      assert d.id in ids;
      SafeRowHidesNothing(rows, d, r, q);
    }
    if Authorized(rows, q) {
      var r :| r in rows && r.permission == Allow && Matches(r, q);
      assert r in left;
    }
  }

  lemma SafeRowHidesNothing(rows: seq<Row>, d: Row, r: Row, q: Request)
    requires KnownPatterns(rows) && KnownPatternType(d.patternType)
    requires d.permission == Deny && StatusIn(rows, d) == SafeToRemove
    requires r in rows && r.permission == Allow && Matches(r, q)
    ensures !Matches(d, q)
  {
    if Matches(d, q) { ExposureIsComplete(rows, d, r, q); }
  }

  /** The same for removals one by one: no step of any run over safe ids changes a decision. */
  lemma SafeRunChangesNothing(rows: seq<Row>, ids: seq<int>, q: Request, k: nat)
    requires KnownPatterns(rows) && AllSafe(rows, set i | i in ids) && k <= |ids|
    ensures KnownPatterns(RemoveInOrder(rows, ids[..k]))
    ensures Authorized(RemoveInOrder(rows, ids[..k]), q) == Authorized(rows, q)
  {
    var done := set i | i in ids[..k];
    RemoveInOrderIsWithout(rows, ids[..k]);
    assert AllSafe(rows, done) by {
      hide StatusIn;
      forall i | i in done ensures i in ids {}
      assert done <= set i | i in ids;
    }
    hide StatusIn, Matches;
    SafeRemovalChangesNothing(rows, done, q);
  }

  /** The classification wastes nothing: where no Allow is restricted to a host and `d` is the only
      DENY, removing `d` changes some decision iff `d` is WOULD_GRANT_ACCESS. */
  lemma UnsafeRemovalChangesSomething(rows: seq<Row>, d: Row)
    requires KnownPatterns(rows) && DistinctIds(rows) && d in rows && d.permission == Deny
    requires !IsWildcardPrincipal(d.principal)
    requires forall r :: r in rows && r.permission == Allow ==> r.host == "*"
    requires forall r :: r in rows && r.permission == Deny ==> r == d
    ensures StatusIn(rows, d) == WouldGrantAccess <==>
            exists q :: Authorized(Without(rows, {d.id}), q) != Authorized(rows, q)
  {
    if StatusIn(rows, d) == WouldGrantAccess {
      var _ := ExposedRequest(rows, d);
    } else {
      forall r | r in rows && r.id in {d.id} ensures r == d { SameIdSameRow(rows, r, d); }
      UnknownOnlyWildcard(rows, d);
      assert AllSafe(rows, {d.id});
      hide AllSafe, Authorized, StatusIn;
      forall q ensures Authorized(Without(rows, {d.id}), q) == Authorized(rows, q) {
        SafeRemovalChangesNothing(rows, {d.id}, q);
      }
    }
  }

  /** A request that only `d` denies. */
  lemma ExposedRequest(rows: seq<Row>, d: Row) returns (q: Request)
    requires KnownPatterns(rows) && DistinctIds(rows) && d in rows && d.permission == Deny
    requires !IsWildcardPrincipal(d.principal) && StatusIn(rows, d) == WouldGrantAccess
    requires forall r :: r in rows && r.permission == Allow ==> r.host == "*"
    requires forall r :: r in rows && r.permission == Deny ==> r == d
    ensures Authorized(Without(rows, {d.id}), q) && !Authorized(rows, q)
  {
    ClassificationIsExact(rows, d);
    hide StatusIn, MatchesIgnoringHost;
    var r, q0 :| r in rows && r.permission == Allow && MatchesIgnoringHost(r, q0) && MatchesIgnoringHost(d, q0);
    q := q0.(host := d.host);
    HostIgnored(r, q0, q);
    HostIgnored(d, q0, q);
    OnlyDenied(rows, d, r, q);
  }

  lemma OnlyDenied(rows: seq<Row>, d: Row, r: Row, q: Request)
    requires KnownPatterns(rows) && DistinctIds(rows) && d in rows && d.permission == Deny && Matches(d, q)
    requires r in rows && r.permission == Allow && Matches(r, q)
    requires forall x :: x in rows && x.permission == Deny ==> x == d
    ensures Authorized(Without(rows, {d.id}), q) && !Authorized(rows, q)
  {
    hide Matches, Without;
    SameIdSameRow(rows, r, d);
    assert r in Without(rows, {d.id});
  }

  lemma UnknownOnlyWildcard(rows: seq<Row>, d: Row)
    requires !IsWildcardPrincipal(d.principal)
    ensures StatusIn(rows, d) != Unknown
  {
  }

  lemma HostIgnored(r: Row, q: Request, q': Request)
    requires KnownPatternType(r.patternType) && q' == q.(host := q'.host)
    ensures MatchesIgnoringHost(r, q) == MatchesIgnoringHost(r, q')
  {
  }

  lemma SameIdSameRow(rows: seq<Row>, r: Row, s: Row)
    requires DistinctIds(rows) && r in rows && s in rows
    ensures r.id == s.id ==> r == s
  {
    var i :| 0 <= i < |rows| && rows[i] == r;
    var j :| 0 <= j < |rows| && rows[j] == s;
  }
}
