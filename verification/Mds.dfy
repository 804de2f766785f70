/** The metadata service as a store of grants, and the client's view of it (pkg/aclrbac/mds/api.go). */
module Mds {
  import opened Ordering
  import opened Types
  import opened Patterns

  /** Only the clusters of a scope reach the service. */
  function Clusters(s: Scope): Scope { s.(organization := "", environment := "") }

  lemma ClustersIff(s: Scope, t: Scope)
    ensures Clusters(s) == Clusters(t) <==>
            && s.kafkaCluster == t.kafkaCluster && s.schemaRegistryCluster == t.schemaRegistryCluster
            && s.ksqlCluster == t.ksqlCluster && s.connectCluster == t.connectCluster
  {
  }

  /** One stored fact; the service keeps the union of everything posted for a principal, role and scope. */
  datatype Stored = Stored(principal: string, role: string, clusters: Scope, pattern: Pattern)

  type Store = set<Stored>

  function GrantsOf(b: Binding): Store {
    set p | p in b.patterns :: Stored(b.principal, b.role, Clusters(b.scope), p)
  }

  function PatternsAt(store: Store, principal: string, role: string, scope: Scope): set<Pattern> {
    set g | g in store && g.principal == principal && g.role == role && g.clusters == Clusters(scope) :: g.pattern
  }

  lemma HasPattern(store: Store, principal: string, role: string, scope: Scope, p: Pattern)
    ensures p in PatternsAt(store, principal, role, scope) <==> Stored(principal, role, Clusters(scope), p) in store
  {
    var g := Stored(principal, role, Clusters(scope), p);
    if g in store { assert g.pattern == p; }
  }

  lemma GrantsPresent(store: Store, b: Binding)
    ensures GrantsOf(b) <= store <==> forall p :: p in b.patterns ==> p in PatternsAt(store, b.principal, b.role, b.scope)
  {
    forall p | p in b.patterns
      ensures p in PatternsAt(store, b.principal, b.role, b.scope) <==> Stored(b.principal, b.role, Clusters(b.scope), p) in store {
      HasPattern(store, b.principal, b.role, b.scope, p);
    }
    if GrantsOf(b) <= store {
      forall p | p in b.patterns ensures p in PatternsAt(store, b.principal, b.role, b.scope) {
        assert Stored(b.principal, b.role, Clusters(b.scope), p) in GrantsOf(b);
      }
    }
  }

  /** What ListBindings may return: one binding per role the principal holds, and possibly bindings of
      other principals that the service resolves it to, each carrying the aggregated patterns once, in
      an arbitrary order, under the queried scope. */
  ghost predicate Listing(store: Store, principal: string, scope: Scope, bs: seq<Binding>) {
    && (forall b :: b in bs ==> b.scope == scope && NoDuplicates(b.patterns) && Aggregates(store, b))
    && (forall role :: PatternsAt(store, principal, role, scope) != {} ==> exists b :: b in bs && b.principal == principal && b.role == role)
  }

  ghost predicate Aggregates(store: Store, b: Binding) {
    forall p :: p in b.patterns <==> p in PatternsAt(store, b.principal, b.role, b.scope)
  }

  predicate AlreadyHas(listed: seq<Binding>, want: Binding) {
    exists e | e in listed :: SameRole(e, want) && SamePatterns(e.patterns, want.patterns)
  }

  predicate Matched(listed: seq<Binding>, want: Binding) {
    exists e | e in listed :: SameRole(e, want) && PatternsWithin(want.patterns, e.patterns)
  }

  /** A binding that is already there is matched by verification too. */
  lemma AlreadyHasImpliesMatched(listed: seq<Binding>, want: Binding)
    requires AlreadyHas(listed, want)
    ensures Matched(listed, want)
  {
    var e :| e in listed && SameRole(e, want) && SamePatterns(e.patterns, want.patterns);
    ComparisonsAgree(want.patterns, e.patterns);
  }

  lemma WithinDuplicateFree(want: seq<Pattern>, have: seq<Pattern>)
    requires NoDuplicates(have)
    ensures PatternsWithin(want, have) <==> NoDuplicates(want) && forall p :: p in want ==> p in have
  {
    NoDuplicatesMultiset(have);
    if PatternsWithin(want, have) {
      forall p | p in want ensures p in have { assert multiset(want)[p] > 0; }
      forall i, j | 0 <= i < j < |want| ensures want[i] != want[j] {
        assert want == want[..j] + [want[j]] + want[j + 1..];
        assert want[..j][i] == want[i];
        assert multiset(want)[want[j]] == multiset(want[..j])[want[j]] + 1 + multiset(want[j + 1..])[want[j]];
      }
    }
    if NoDuplicates(want) && forall p :: p in want ==> p in have {
      NoDuplicatesMultiset(want);
      forall p ensures multiset(want)[p] <= multiset(have)[p] {}
    }
  }

  lemma ListedOne(store: Store, want: Binding, listed: seq<Binding>, e: Binding)
    requires Listing(store, want.principal, want.scope, listed) && e in listed && SameRole(e, want)
    ensures PatternsWithin(want.patterns, e.patterns) <==> NoDuplicates(want.patterns) && GrantsOf(want) <= store
    ensures SamePatterns(want.patterns, e.patterns) <==>
            NoDuplicates(want.patterns) && GrantsOf(want) <= store
            && forall p :: p in PatternsAt(store, want.principal, want.role, want.scope) ==> p in want.patterns
  {
    assert Aggregates(store, e);
    WithinDuplicateFree(want.patterns, e.patterns);
    GrantsPresent(store, want);
    if SamePatterns(want.patterns, e.patterns) { MemberOfPermutation(want.patterns, e.patterns); }
    if NoDuplicates(want.patterns) && GrantsOf(want) <= store
       && forall p :: p in PatternsAt(store, want.principal, want.role, want.scope) ==> p in want.patterns {
      SameElementsPermute(want.patterns, e.patterns);
    }
  }

  /** Verification finds a binding iff it repeats no pattern and the store holds all of them. */
  lemma MatchedIff(store: Store, want: Binding, listed: seq<Binding>)
    requires Listing(store, want.principal, want.scope, listed) && want.patterns != []
    ensures Matched(listed, want) <==> NoDuplicates(want.patterns) && GrantsOf(want) <= store
  {
    if Matched(listed, want) {
      var e :| e in listed && SameRole(e, want) && PatternsWithin(want.patterns, e.patterns);
      ListedOne(store, want, listed, e);
    }
    if NoDuplicates(want.patterns) && GrantsOf(want) <= store {
      var e := RoleListed(store, want, listed);
      ListedOne(store, want, listed, e);
    }
  }

  lemma RoleListed(store: Store, want: Binding, listed: seq<Binding>) returns (e: Binding)
    requires Listing(store, want.principal, want.scope, listed) && want.patterns != [] && GrantsOf(want) <= store
    ensures e in listed && SameRole(e, want)
  {
    GrantsPresent(store, want);
    assert want.patterns[0] in PatternsAt(store, want.principal, want.role, want.scope);
    e :| e in listed && e.principal == want.principal && e.role == want.role;
  }

  /** Apply skips a binding iff its patterns, none repeated, are exactly what the store holds for its
      role. Otherwise a second run posts it again, although the store already has it. */
  lemma AlreadyHasIff(store: Store, want: Binding, listed: seq<Binding>)
    requires Listing(store, want.principal, want.scope, listed) && want.patterns != []
    ensures AlreadyHas(listed, want) <==>
            NoDuplicates(want.patterns) && GrantsOf(want) <= store
            && forall p :: p in PatternsAt(store, want.principal, want.role, want.scope) ==> p in want.patterns
  {
    if AlreadyHas(listed, want) {
      var e :| e in listed && SameRole(e, want) && SamePatterns(e.patterns, want.patterns);
      ListedOne(store, want, listed, e);
    }
    if NoDuplicates(want.patterns) && GrantsOf(want) <= store
       && forall p :: p in PatternsAt(store, want.principal, want.role, want.scope) ==> p in want.patterns {
      var e := RoleListed(store, want, listed);
      ListedOne(store, want, listed, e);
    }
  }

  // ---------------------------------------------------------------------------
  // Effective grants

  /** A role definition: operations per resource type. */
  type RoleOps = map<ResourceType, set<Operation>>

  /** One (role, patterns) entry of the lookup reply, in the order the reply is visited. */
  datatype RoleEntry = RoleEntry(role: string, patterns: seq<Pattern>)

  datatype Grant = Grant(operation: Operation, pattern: Pattern)

  function OpsFor(defs: RoleOps, rt: ResourceType): set<Operation> { if rt in defs then defs[rt] else {} }

  /** The grants of an entry list: each role's patterns times the role's operations on their type. */
  function GrantsFor(entries: seq<RoleEntry>, roles: string -> Option<RoleOps>): set<Grant> {
    set e, p, op | e in entries && roles(e.role).Some? && p in e.patterns && op in OpsFor(roles(e.role).value, p.resourceType)
      :: Grant(op, p)
  }

  /** The client keeps role definitions it has fetched. `server` stands for the service's answers. */
  class Client {
    const server: string -> Option<RoleOps>
    var roleOpsCache: map<string, RoleOps>

    ghost predicate Valid()
      reads this
    {
      forall role :: role in roleOpsCache ==> server(role) == Some(roleOpsCache[role])
    }

    constructor (server: string -> Option<RoleOps>)
      ensures Valid() && this.server == server && roleOpsCache == map[]
    {
      this.server := server;
      roleOpsCache := map[];
    }

    /** Memoised: with or without the cache the answer is the service's. */
    method FetchRoleOps(role: string) returns (r: Option<RoleOps>)
      requires Valid()
      modifies this
      ensures Valid() && r == server(role)
      ensures forall x :: x in old(roleOpsCache) ==> x in roleOpsCache && roleOpsCache[x] == old(roleOpsCache)[x]
    {
      if role in roleOpsCache { return Some(roleOpsCache[role]); }
      r := server(role);
      if r.Some? { roleOpsCache := roleOpsCache[role := r.value]; }
    }

    /** Expands every role's patterns by the role's operations; fails iff some role cannot be fetched. */
    method FetchPrincipalGrants(entries: seq<RoleEntry>) returns (r: Option<seq<Grant>>)
      requires Valid()
      modifies this
      ensures Valid()
      ensures r.Some? <==> forall e :: e in entries ==> server(e.role).Some?
      ensures r.Some? ==> forall g :: g in r.value <==> g in GrantsFor(entries, server)
    {
      var out: seq<Grant> := [];
      for i := 0 to |entries|
        invariant Valid()
        invariant forall e :: e in entries[..i] ==> server(e.role).Some?
        invariant forall g :: g in out <==> g in GrantsFor(entries[..i], server)
      {
        var e := entries[i];
        assert entries[..i + 1] == entries[..i] + [e] && e in entries;
        var ops := FetchRoleOps(e.role);
        if ops.None? { return None; }
        var more := ExpandEntry(e, ops.value);
        forall g ensures g in out + more <==> g in GrantsFor(entries[..i + 1], server) {
          GrantsForStep(entries[..i], e, server, g);
        }
        out := out + more;
      }
      assert entries[..|entries|] == entries;
      return Some(out);
    }

    static method ExpandEntry(e: RoleEntry, ops: RoleOps) returns (out: seq<Grant>)
      ensures forall g :: g in out <==> g.pattern in e.patterns && g.operation in OpsFor(ops, g.pattern.resourceType)
    {
      out := [];
      for j := 0 to |e.patterns|
        invariant forall g :: g in out <==> g.pattern in e.patterns[..j] && g.operation in OpsFor(ops, g.pattern.resourceType)
      {
        var p := e.patterns[j];
        assert e.patterns[..j + 1] == e.patterns[..j] + [p];
        ghost var before := out;
        var done, todo := {}, OpsFor(ops, p.resourceType);
        while todo != {}
          invariant done + todo == OpsFor(ops, p.resourceType)
          invariant forall g :: g in out <==> g in before || (g.pattern == p && g.operation in done)
          decreases |todo|
        {
          var op :| op in todo;
          out := out + [Grant(op, p)];
          done, todo := done + {op}, todo - {op};
        }
        assert done == OpsFor(ops, p.resourceType);
      }
      assert e.patterns[..|e.patterns|] == e.patterns;
    }
  }

  lemma GrantsForStep(entries: seq<RoleEntry>, e: RoleEntry, roles: string -> Option<RoleOps>, g: Grant)
    ensures g in GrantsFor(entries + [e], roles) <==>
            g in GrantsFor(entries, roles) ||
            (roles(e.role).Some? && g.pattern in e.patterns && g.operation in OpsFor(roles(e.role).value, g.pattern.resourceType))
  {
  }

  /** The coverage test of effective verification. */
  predicate Covers(g: Grant, op: Operation, p: Pattern) {
    && g.pattern.resourceType == p.resourceType && g.operation == op
    && g.pattern.patternType == p.patternType
    && (if p.patternType == PREFIXED then g.pattern.name <= p.name else g.pattern.name == p.name)
  }

  predicate LookupAllowed(grants: seq<Grant>, op: Operation, p: Pattern) {
    exists g | g in grants :: Covers(g, op, p)
  }

  predicate PrincipalGrantOverlaps(grants: seq<Grant>, op: Operation, p: Pattern) {
    exists g | g in grants :: g.pattern.resourceType == p.resourceType && g.operation == op
                              && PatternsOverlap(g.pattern.patternType, g.pattern.name, p.patternType, p.name)
  }

  /** A grant that covers a pattern covers every name in it. */
  ghost predicate ContainsAll(g: Grant, p: Pattern)
    requires KnownPatternType(g.pattern.patternType) && KnownPatternType(p.patternType)
  {
    forall n :: Denotes(p.patternType, p.name, n) ==> Denotes(g.pattern.patternType, g.pattern.name, n)
  }

  /** What a lookup asks of a grant's pattern: to be of the same kind and, for a prefix, to reach every
      name the queried one reaches, otherwise to have the same name. */
  ghost predicate Includes(q: Pattern, p: Pattern) {
    && q.resourceType == p.resourceType && q.patternType == p.patternType
    && if p.patternType == PREFIXED then forall n :: Denotes(PREFIXED, p.name, n) ==> Denotes(PREFIXED, q.name, n)
       else q.name == p.name
  }

  lemma CoversIff(g: Grant, op: Operation, p: Pattern)
    ensures Covers(g, op, p) <==> g.operation == op && Includes(g.pattern, p)
  {
    assert p.patternType == PREFIXED ==> Denotes(PREFIXED, p.name, p.name);
  }

  /** A lookup is allowed iff some grant of the operation and resource type has a pattern of the same
      type that contains every name of the queried prefix, or has the queried name. */
  lemma LookupAllowedIff(grants: seq<Grant>, op: Operation, p: Pattern)
    ensures LookupAllowed(grants, op, p) <==> exists g :: g in grants && g.operation == op && Includes(g.pattern, p)
    ensures p.patternType == PREFIXED ==>
              (LookupAllowed(grants, op, p) <==>
               exists g :: g in grants && g.operation == op && g.pattern.resourceType == p.resourceType
                           && g.pattern.patternType == PREFIXED && ContainsAll(g, p))
    ensures p.patternType != PREFIXED ==>
              (LookupAllowed(grants, op, p) <==>
               exists g :: g in grants && g.operation == op && g.pattern.resourceType == p.resourceType
                           && g.pattern.patternType == p.patternType && g.pattern.name == p.name)
  {
    forall g ensures Covers(g, op, p) <==> g.operation == op && Includes(g.pattern, p) { CoversIff(g, op, p); }
    hide Covers;
    if p.patternType == PREFIXED && LookupAllowed(grants, op, p) {
      var g :| g in grants && Covers(g, op, p);
      assert ContainsAll(g, p);
    }
    if g :| p.patternType == PREFIXED && g in grants && g.operation == op && g.pattern.resourceType == p.resourceType
            && g.pattern.patternType == PREFIXED && ContainsAll(g, p) {
      assert Includes(g.pattern, p);
    }
  }

  /** An allowed lookup is never optimistic: some grant holds the operation on the whole queried set of
      names, and the overlap test used for DENY removal says yes as well. */
  lemma AllowedMeansContained(grants: seq<Grant>, op: Operation, p: Pattern)
    requires LookupAllowed(grants, op, p)
    ensures PrincipalGrantOverlaps(grants, op, p)
    ensures KnownPatternType(p.patternType) ==>
              exists g :: g in grants && g.operation == op && g.pattern.resourceType == p.resourceType
                          && KnownPatternType(g.pattern.patternType) && ContainsAll(g, p)
  {
    var g :| g in grants && Covers(g, op, p);
    if KnownPatternType(p.patternType) { assert ContainsAll(g, p); }
  }

  /** For known pattern types the overlap test is exact: some grant shares a name with the pattern. */
  lemma OverlapTestIsExact(grants: seq<Grant>, op: Operation, p: Pattern)
    requires KnownPatternType(p.patternType) && forall g :: g in grants ==> KnownPatternType(g.pattern.patternType)
    ensures PrincipalGrantOverlaps(grants, op, p) <==>
            exists g, n :: g in grants && g.operation == op && g.pattern.resourceType == p.resourceType
                           && Denotes(g.pattern.patternType, g.pattern.name, n) && Denotes(p.patternType, p.name, n)
  {
    forall g | g in grants
      ensures PatternsOverlap(g.pattern.patternType, g.pattern.name, p.patternType, p.name) <==>
              exists n :: Denotes(g.pattern.patternType, g.pattern.name, n) && Denotes(p.patternType, p.name, n) {
      OverlapIsIntersection(g.pattern.patternType, g.pattern.name, p.patternType, p.name);
    }
    if PrincipalGrantOverlaps(grants, op, p) {
      var g :| g in grants && g.pattern.resourceType == p.resourceType && g.operation == op
               && PatternsOverlap(g.pattern.patternType, g.pattern.name, p.patternType, p.name);
      var n :| Denotes(g.pattern.patternType, g.pattern.name, n) && Denotes(p.patternType, p.name, n);
    }
  }
}
