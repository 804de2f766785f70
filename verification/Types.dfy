/** The canonical values shared by every stage: ACL rows, resource patterns, bindings and plans. */
module Types {
  datatype Option<+T> = None | Some(value: T)

  datatype Result<+T, +E> = Ok(value: T) | Err(error: E)

  /** Kafka's ACL operations. `OtherOp` is a text the argv parser lets through unchanged. */
  datatype Operation =
    | Read | Write | Create | Delete | Alter | Describe | ClusterAction
    | DescribeConfigs | AlterConfigs | IdempotentWrite | All | OtherOp(text: string)

  function OpText(op: Operation): string {
    match op
    case Read => "Read" case Write => "Write" case Create => "Create" case Delete => "Delete"
    case Alter => "Alter" case Describe => "Describe" case ClusterAction => "ClusterAction"
    case DescribeConfigs => "DescribeConfigs" case AlterConfigs => "AlterConfigs"
    case IdempotentWrite => "IdempotentWrite" case All => "All" case OtherOp(t) => t
  }

  datatype ResourceType = Cluster | Topic | Group | TransactionalId | DelegationToken | Subject

  function ResourceText(rt: ResourceType): string {
    match rt
    case Cluster => "Cluster" case Topic => "Topic" case Group => "Group"
    case TransactionalId => "TransactionalId" case DelegationToken => "DelegationToken"
    case Subject => "Subject"
  }

  datatype Permission = Allow | Deny

  function PermissionText(p: Permission): string {
    match p case Allow => "Allow" case Deny => "Deny"
  }

  lemma TextsInjective(a: ResourceType, b: ResourceType)
    ensures ResourceText(a) == ResourceText(b) ==> a == b
    ensures PermissionText(Allow) != PermissionText(Deny)
  {
  }

  /** A pattern type is a string: the code keeps a branch for values it does not know. */
  type PatternType = string
  const LITERAL: PatternType := "LITERAL"
  const PREFIXED: PatternType := "PREFIXED"

  predicate KnownPatternType(p: PatternType) { p == LITERAL || p == PREFIXED }

  datatype Pattern = Pattern(resourceType: ResourceType, name: string, patternType: PatternType)

  datatype Row = Row(
    id: int, principal: string, host: string, operation: Operation,
    resourceType: ResourceType, resourceName: string, patternType: PatternType, permission: Permission)

  function PatternOf(r: Row): Pattern { Pattern(r.resourceType, r.resourceName, r.patternType) }

  ghost predicate DistinctIds(rows: seq<Row>) {
    forall i, j :: 0 <= i < j < |rows| ==> rows[i].id != rows[j].id
  }

  datatype Scope = Scope(
    organization: string, environment: string, kafkaCluster: string,
    schemaRegistryCluster: string, ksqlCluster: string, connectCluster: string)

  datatype Action = CreateAction | SkipExists

  datatype Binding = Binding(
    id: string, action: Action, principal: string, role: string, scope: Scope,
    patterns: seq<Pattern>, sourceIds: seq<int>)

  datatype UnmappedReason = HostRestricted(host: string) | NoRuleMatch | ConflictingExisting(role: string)

  datatype Unmapped = Unmapped(sourceIds: seq<int>, reason: UnmappedReason)

  /** A rejected entry; its only reason is DENY_PERMISSION. */
  datatype Rejected = Rejected(sourceIds: seq<int>)

  /** Warnings keep the code and the values their text is built from. */
  datatype Warning =
    | HostRestrictedWarning(sourceIds: seq<int>, host: string)
    | MtlsDnPassThrough(principal: string)
    | LoneCreateOnCluster(principal: string)
    | PartialRuleCoverage(sourceIds: seq<int>, missing: set<Operation>)
    | ConflictWarning(sourceIds: seq<int>, role: string)

  datatype DenyStatus = SafeToRemove | WouldGrantAccess | Unknown

  datatype DenyEntry = DenyEntry(sourceId: int, status: DenyStatus)

  datatype Plan = Plan(
    bindings: seq<Binding>, unmapped: seq<Unmapped>, rejected: seq<Rejected>,
    warnings: seq<Warning>, denyAnalysis: seq<DenyEntry>)

  // ---------------------------------------------------------------------------
  // Texts

  /** `strings.Join`. */
  function Join(parts: seq<string>, sep: string): string {
    if parts == [] then "" else if |parts| == 1 then parts[0] else parts[0] + sep + Join(parts[1..], sep)
  }

  function DigitText(d: nat): string
    requires d < 10
  {
    ["0123456789"[d]]
  }

  function NatText(n: nat): string {
    if n < 10 then DigitText(n) else NatText(n / 10) + DigitText(n % 10)
  }

  /** Decimal text, as `%d` prints it. */
  function IntText(n: int): string { if n < 0 then "-" + NatText(-n) else NatText(n) }

  predicate IsDigit(c: char) { '0' <= c <= '9' }

  lemma {:induction false} NatTextDigits(n: nat)
    ensures NatText(n) != "" && forall c :: c in NatText(n) ==> IsDigit(c)
  {
    if n >= 10 { NatTextDigits(n / 10); }
  }

  predicate HasSuffix(s: string, suffix: string) {
    |suffix| <= |s| && s[|s| - |suffix|..] == suffix
  }

  /** The bare "*" and every "<Type>:*". */
  predicate IsWildcardPrincipal(p: string) {
    p == "*" || HasSuffix(p, ":*")
  }

  lemma WildcardPrincipalIff(p: string)
    ensures IsWildcardPrincipal(p) <==> p == "*" || exists kind :: p == kind + ":*"
  {
    if HasSuffix(p, ":*") { assert p == p[..|p| - 2] + ":*"; }
    if kind :| p == kind + ":*" { assert p[|p| - 2..] == ":*"; }
  }

  // ---------------------------------------------------------------------------
  // Resource patterns as sets of names

  /** The names a pattern of a known type denotes. */
  predicate Denotes(patternType: PatternType, name: string, resource: string)
    requires KnownPatternType(patternType)
  {
    if patternType == LITERAL then name == "*" || resource == name else name <= resource
  }

  predicate PatternsOverlap(aType: PatternType, aName: string, bType: PatternType, bName: string) {
    if (aType == LITERAL && aName == "*") || (bType == LITERAL && bName == "*") then true
    else if aType == LITERAL && bType == LITERAL then aName == bName
    else if aType == LITERAL && bType == PREFIXED then bName <= aName
    else if aType == PREFIXED && bType == LITERAL then aName <= bName
    else if aType == PREFIXED && bType == PREFIXED then bName <= aName || aName <= bName
    else true
  }

  /** The overlap test is exact: it holds iff the two name sets share a name. */
  lemma OverlapIsIntersection(aType: PatternType, aName: string, bType: PatternType, bName: string)
    requires KnownPatternType(aType) && KnownPatternType(bType)
    ensures PatternsOverlap(aType, aName, bType, bName) <==>
            exists n :: Denotes(aType, aName, n) && Denotes(bType, bName, n)
  {
    if PatternsOverlap(aType, aName, bType, bName) {
      var n := if aType == LITERAL && aName == "*" then bName
               else if bType == LITERAL && bName == "*" then aName
               else if |aName| <= |bName| then bName else aName;
      assert Denotes(aType, aName, n) && Denotes(bType, bName, n);
    }
  }

  /** An unknown pattern type overlaps everything, so a DENY is never called safe because of one. */
  lemma UnknownPatternOverlaps(aType: PatternType, aName: string, bType: PatternType, bName: string)
    requires !KnownPatternType(aType) || !KnownPatternType(bType)
    ensures PatternsOverlap(aType, aName, bType, bName) && PatternsOverlap(bType, bName, aType, aName)
  {
  }
}
