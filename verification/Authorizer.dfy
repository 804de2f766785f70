/** The meaning of an ACL set: the decision Kafka's authorizer takes on each request. */
module Authorizer {
  import opened Types
  import opened Kafka
  import opened Normalize

  /** A request names a concrete operation; `All` is never requested. */
  datatype Request = Request(
    principal: string, host: string, operation: Operation, resourceType: ResourceType, resource: string)

  /** An ACL principal covers itself; `*` covers every principal and `Kind:*` every one of its kind. */
  ghost predicate PrincipalCovers(aclPrincipal: string, principal: string) {
    || aclPrincipal == principal || aclPrincipal == "*"
    || exists kind: string :: aclPrincipal == kind + ":*" && kind + ":" <= principal
  }

  predicate HostCovers(aclHost: string, host: string) { aclHost == "*" || aclHost == host }

  /** Denial is not transitive through implication, and a DENY for `All` denies every operation. */
  predicate RowCoversOperation(r: Row, op: Operation) {
    match r.permission
    case Allow => KafkaGrants(r.resourceType, r.operation, op)
    case Deny => r.operation == All || r.operation == op
  }

  ghost predicate MatchesIgnoringHost(r: Row, q: Request)
    requires KnownPatternType(r.patternType)
  {
    && q.operation != All
    && PrincipalCovers(r.principal, q.principal)
    && r.resourceType == q.resourceType
    && Denotes(r.patternType, r.resourceName, q.resource)
    && RowCoversOperation(r, q.operation)
  }

  ghost predicate Matches(r: Row, q: Request)
    requires KnownPatternType(r.patternType)
  {
    MatchesIgnoringHost(r, q) && HostCovers(r.host, q.host)
  }

  predicate KnownPatterns(rows: seq<Row>) {
    forall r | r in rows :: KnownPatternType(r.patternType)
  }

  /** Some Allow matches and no DENY matches. */
  ghost predicate Authorized(rows: seq<Row>, q: Request)
    requires KnownPatterns(rows)
  {
    && (exists r | r in rows :: r.permission == Allow && Matches(r, q))
    && (forall r | r in rows :: r.permission == Deny ==> !Matches(r, q))
  }

  function Without(rows: seq<Row>, ids: set<int>): (left: seq<Row>)
    ensures forall r :: r in left <==> r in rows && r.id !in ids
  {
    if rows == [] then [] else
      assert rows == [rows[0]] + rows[1..];
      (if rows[0].id in ids then [] else [rows[0]]) + Without(rows[1..], ids)
  }

  /** Rows removed one id at a time. */
  function RemoveInOrder(rows: seq<Row>, ids: seq<int>): seq<Row>
    decreases ids
  {
    if ids == [] then rows else RemoveInOrder(Without(rows, {ids[0]}), ids[1..])
  }

  lemma {:induction false} WithoutTwice(rows: seq<Row>, a: set<int>, b: set<int>)
    ensures Without(Without(rows, a), b) == Without(rows, a + b)
  {
    if rows != [] {
      WithoutTwice(rows[1..], a, b);
      if rows[0].id !in a {
        assert Without(rows, a) == [rows[0]] + Without(rows[1..], a);
        assert ([rows[0]] + Without(rows[1..], a))[1..] == Without(rows[1..], a);
      } else {
        assert Without(rows, a) == Without(rows[1..], a);
      }
    }
  }

  /** The order of removals does not matter. */
  lemma {:induction false} RemoveInOrderIsWithout(rows: seq<Row>, ids: seq<int>)
    ensures RemoveInOrder(rows, ids) == Without(rows, set i | i in ids)
    decreases ids
  {
    if ids == [] {
      WithoutNothing(rows);
      assert (set i | i in ids) == {};
    } else {
      RemoveInOrderIsWithout(Without(rows, {ids[0]}), ids[1..]);
      WithoutTwice(rows, {ids[0]}, set i | i in ids[1..]);
      assert (set i | i in ids) == {ids[0]} + (set i | i in ids[1..]) by {
        assert ids == [ids[0]] + ids[1..];
      }
    }
  }

  lemma {:induction false} WithoutNothing(rows: seq<Row>)
    ensures Without(rows, {}) == rows
  {
    if rows != [] { WithoutNothing(rows[1..]); }
  }
}
