/** The parser of `kafka-acls` argument lists and the expansion of an invocation into ACL rows
    (pkg/aclrbac/extract/script/argv.go). */
module Argv {
  import opened Types

  datatype ResourceRef = ResourceRef(resourceType: ResourceType, name: string)

  datatype Parsed = Parsed(
    subAction: string,
    allowPrincipals: seq<string>, denyPrincipals: seq<string>,
    allowHosts: seq<string>, denyHosts: seq<string>,
    operations: seq<Operation>, resources: seq<ResourceRef>, patternType: PatternType,
    producer: bool, consumer: bool, idempotent: bool, transactionalId: string, groupName: string)

  const BLANK: Parsed := Parsed("", [], [], [], [], [], [], LITERAL, false, false, false, "", "")

  /** Case mapping of ASCII letters. */
  function UpperChar(c: char): char { if 'a' <= c <= 'z' then c - 'a' + 'A' else c }

  function LowerChar(c: char): char { if 'A' <= c <= 'Z' then c - 'A' + 'a' else c }

  function Upper(s: string): string { seq(|s|, i requires 0 <= i < |s| => UpperChar(s[i])) }

  function Lower(s: string): string { seq(|s|, i requires 0 <= i < |s| => LowerChar(s[i])) }

  /** The operation a constant's exact text names. */
  function OpOfText(s: string): Operation {
    if s == "Read" then Read else if s == "Write" then Write else if s == "Create" then Create
    else if s == "Delete" then Delete else if s == "Alter" then Alter else if s == "Describe" then Describe
    else if s == "ClusterAction" then ClusterAction else if s == "DescribeConfigs" then DescribeConfigs
    else if s == "AlterConfigs" then AlterConfigs else if s == "IdempotentWrite" then IdempotentWrite
    else if s == "All" then All else OtherOp(s)
  }

  /** The table of spellings, in upper case. `ClusterAction` has only its underscored one. */
  function OpOfSpelling(u: string): Option<Operation> {
    if u == "READ" then Some(Read) else if u == "WRITE" then Some(Write) else if u == "CREATE" then Some(Create)
    else if u == "DELETE" then Some(Delete) else if u == "ALTER" then Some(Alter) else if u == "DESCRIBE" then Some(Describe)
    else if u == "CLUSTER_ACTION" then Some(ClusterAction)
    else if u == "DESCRIBECONFIGS" || u == "DESCRIBE_CONFIGS" then Some(DescribeConfigs)
    else if u == "ALTERCONFIGS" || u == "ALTER_CONFIGS" then Some(AlterConfigs)
    else if u == "IDEMPOTENTWRITE" || u == "IDEMPOTENT_WRITE" then Some(IdempotentWrite)
    else if u == "ALL" then Some(All) else None
  }

  /** Spellings are matched in upper case; any other text is taken as it stands. */
  function NormalizeOp(s: string): Operation {
    match OpOfSpelling(Upper(s)) case Some(op) => op case None => OpOfText(s)
  }

  lemma ShortNamesRoundTrip(op: Operation)
    requires op in {Read, Write, Create, Delete, Alter, All}
    ensures NormalizeOp(OpText(op)) == op
  {
    var t := OpText(op);
    match op {
      case Read => assert Upper(t) == "READ";
      case Write => assert Upper(t) == "WRITE";
      case Create => assert Upper(t) == "CREATE";
      case Delete => assert Upper(t) == "DELETE";
      case Alter => assert Upper(t) == "ALTER";
      case All => assert Upper(t) == "ALL";
    }
  }

  lemma DescribeNamesRoundTrip(op: Operation)
    requires op in {Describe, DescribeConfigs}
    ensures NormalizeOp(OpText(op)) == op
  {
    var t := OpText(op);
    assert Upper(t) == if op == Describe then "DESCRIBE" else "DESCRIBECONFIGS";
  }

  lemma LongNamesRoundTrip(op: Operation)
    requires op in {AlterConfigs, IdempotentWrite}
    ensures NormalizeOp(OpText(op)) == op
  {
    match op {
      case AlterConfigs => assert Upper("AlterConfigs") == "ALTERCONFIGS";
      case IdempotentWrite => assert Upper("IdempotentWrite") == "IDEMPOTENTWRITE";
    }
  }

  /** Every operation's own text parses back to it. */
  lemma NormalizeOpRoundTrip(op: Operation)
    requires !op.OtherOp?
    ensures NormalizeOp(OpText(op)) == op
  {
    hide NormalizeOp;
    if op in {Read, Write, Create, Delete, Alter, All} { ShortNamesRoundTrip(op); }
    else if op in {Describe, DescribeConfigs} { DescribeNamesRoundTrip(op); }
    else if op == ClusterAction { ClusterActionText(); }
    else { LongNamesRoundTrip(op); }
  }

  lemma ClusterActionText()
    ensures NormalizeOp("ClusterAction") == ClusterAction
  {
    var u := Upper("ClusterAction");
    assert |u| == 13 && u[0] == 'C';
    assert OpOfText("ClusterAction") == ClusterAction;
  }

  lemma PatternTypeRoundTrip(p: PatternType)
    requires KnownPatternType(p)
    ensures Upper(Lower(p)) == p
  {
  }

  /** The flags the parser tells apart. */
  datatype Flag =
    | SubActionFlag | AllowPrincipalFlag | DenyPrincipalFlag | AllowHostFlag | DenyHostFlag | OperationFlag
    | TopicFlag | GroupFlag | ClusterFlag | TransactionalIdFlag | DelegationTokenFlag | PatternTypeFlag
    | ProducerFlag | ConsumerFlag | IdempotentFlag | ConnectionFlag | OtherFlag

  function FlagOf(tok: string): Flag {
    if tok == "--add" || tok == "--remove" || tok == "--list" then SubActionFlag
    else if tok == "--allow-principal" then AllowPrincipalFlag
    else if tok == "--deny-principal" then DenyPrincipalFlag
    else if tok == "--allow-host" then AllowHostFlag
    else if tok == "--deny-host" then DenyHostFlag
    else if tok == "--operation" then OperationFlag
    else if tok == "--topic" then TopicFlag
    else if tok == "--group" then GroupFlag
    else if tok == "--cluster" then ClusterFlag
    else if tok == "--transactional-id" then TransactionalIdFlag
    else if tok == "--delegation-token" then DelegationTokenFlag
    else if tok == "--resource-pattern-type" then PatternTypeFlag
    else if tok == "--producer" then ProducerFlag
    else if tok == "--consumer" then ConsumerFlag
    else if tok == "--idempotent" then IdempotentFlag
    else if tok == "--bootstrap-server" || tok == "--bootstrap" || tok == "--command-config" then ConnectionFlag
    else OtherFlag
  }

  /** The flags whose value is stored; a missing value is an error. */
  predicate NeedsValue(f: Flag) {
    f in {AllowPrincipalFlag, DenyPrincipalFlag, AllowHostFlag, DenyHostFlag, OperationFlag, TopicFlag,
          GroupFlag, TransactionalIdFlag, DelegationTokenFlag, PatternTypeFlag}
  }

  function Store(p: Parsed, f: Flag, v: string): Parsed
    requires NeedsValue(f)
  {
    match f
    case AllowPrincipalFlag => p.(allowPrincipals := p.allowPrincipals + [v])
    case DenyPrincipalFlag => p.(denyPrincipals := p.denyPrincipals + [v])
    case AllowHostFlag => p.(allowHosts := p.allowHosts + [v])
    case DenyHostFlag => p.(denyHosts := p.denyHosts + [v])
    case OperationFlag => p.(operations := p.operations + [NormalizeOp(v)])
    case TopicFlag => p.(resources := p.resources + [ResourceRef(Topic, v)])
    case GroupFlag => p.(resources := p.resources + [ResourceRef(Group, v)], groupName := v)
    case TransactionalIdFlag => p.(resources := p.resources + [ResourceRef(TransactionalId, v)], transactionalId := v)
    case DelegationTokenFlag => p.(resources := p.resources + [ResourceRef(DelegationToken, v)])
    case PatternTypeFlag => p.(patternType := Upper(v))
  }

  function Switch(p: Parsed, f: Flag, tok: string): Parsed {
    match f
    case SubActionFlag => p.(subAction := tok)
    case ClusterFlag => p.(resources := p.resources + [ResourceRef(Cluster, "kafka-cluster")])
    case ProducerFlag => p.(producer := true)
    case ConsumerFlag => p.(consumer := true)
    case IdempotentFlag => p.(idempotent := true)
    case _ => p
  }

  /** The parse of the arguments still to come; an error names the flag whose value is missing. */
  function ParseArgs(args: seq<string>, p: Parsed): Result<Parsed, string> {
    if args == [] then Ok(p)
    else
      var f := FlagOf(args[0]);
      if NeedsValue(f) then
        if |args| == 1 then Err(args[0]) else ParseArgs(args[2..], Store(p, f, args[1]))
      else if f.ConnectionFlag? then
        if |args| == 1 then Ok(p) else ParseArgs(args[2..], p)
      else ParseArgs(args[1..], Switch(p, f, args[0]))
  }

  function ParsedArgv(argv: seq<string>): Result<Parsed, string> {
    if argv == [] then Ok(BLANK) else ParseArgs(argv[1..], BLANK)
  }

  method ParseInvocation(argv: seq<string>) returns (r: Result<Parsed, string>)
    ensures r == ParsedArgv(argv)
  {
    var out := BLANK;
    var i := 1;
    while i < |argv|
      invariant 1 <= i
      invariant ParsedArgv(argv) == if i < |argv| then ParseArgs(argv[i..], out) else Ok(out)
      decreases |argv| - i
    {
      var tok := argv[i];
      var f := FlagOf(tok);
      if NeedsValue(f) {
        i := i + 1;
        if i >= |argv| { return Err(tok); }
        assert argv[i - 1..][2..] == argv[i + 1..];
        out := Store(out, f, argv[i]);
      } else if f.ConnectionFlag? {
        if i + 1 < |argv| { assert argv[i..][2..] == argv[i + 2..]; }
        i := i + 1;
      } else {
        assert argv[i..][1..] == argv[i + 1..];
        out := Switch(out, f, tok);
      }
      i := i + 1;
    }
    return Ok(out);
  }

  // ---------------------------------------------------------------------------
  // Expansion

  datatype Grantee = Grantee(permission: Permission, principal: string, host: string)

  datatype OpRes = OpRes(operation: Operation, resourceType: ResourceType, name: string)

  function HostsOrAny(hosts: seq<string>): seq<string> { if hosts == [] then ["*"] else hosts }

  function OverHosts(perm: Permission, principal: string, hosts: seq<string>): seq<Grantee> {
    if hosts == [] then [] else [Grantee(perm, principal, hosts[0])] + OverHosts(perm, principal, hosts[1..])
  }

  function OverPrincipals(perm: Permission, principals: seq<string>, hosts: seq<string>): seq<Grantee> {
    if principals == [] then []
    else OverHosts(perm, principals[0], hosts) + OverPrincipals(perm, principals[1..], hosts)
  }

  function Grantees(p: Parsed): seq<Grantee> {
    OverPrincipals(Allow, p.allowPrincipals, HostsOrAny(p.allowHosts)) +
    OverPrincipals(Deny, p.denyPrincipals, HostsOrAny(p.denyHosts))
  }

  function ProducerTopics(rs: seq<ResourceRef>): seq<OpRes> {
    if rs == [] then []
    else (if rs[0].resourceType == Topic then
            [OpRes(Write, Topic, rs[0].name), OpRes(Describe, Topic, rs[0].name), OpRes(Create, Topic, rs[0].name)]
          else []) + ProducerTopics(rs[1..])
  }

  function ConsumerResources(rs: seq<ResourceRef>): seq<OpRes> {
    if rs == [] then []
    else (if rs[0].resourceType == Topic then [OpRes(Read, Topic, rs[0].name), OpRes(Describe, Topic, rs[0].name)]
          else if rs[0].resourceType == Group then [OpRes(Read, Group, rs[0].name)]
          else []) + ConsumerResources(rs[1..])
  }

  function OnResources(op: Operation, rs: seq<ResourceRef>): seq<OpRes> {
    if rs == [] then [] else [OpRes(op, rs[0].resourceType, rs[0].name)] + OnResources(op, rs[1..])
  }

  function OpsOnResources(ops: seq<Operation>, rs: seq<ResourceRef>): seq<OpRes> {
    if ops == [] then [] else OnResources(ops[0], rs) + OpsOnResources(ops[1..], rs)
  }

  /** The (operation, resource) pairs of an invocation, shortcuts expanded. */
  function Matrix(p: Parsed): seq<OpRes> {
    (if p.producer then
       ProducerTopics(p.resources) +
       (if p.transactionalId != "" then
          [OpRes(Write, TransactionalId, p.transactionalId), OpRes(Describe, TransactionalId, p.transactionalId)] else []) +
       (if p.idempotent then [OpRes(IdempotentWrite, Cluster, "kafka-cluster")] else [])
     else []) +
    (if p.consumer then ConsumerResources(p.resources) else []) +
    (if !p.producer && !p.consumer then OpsOnResources(p.operations, p.resources) else [])
  }

  function RowFor(g: Grantee, m: OpRes, pt: PatternType, id: int): Row {
    Row(id, g.principal, g.host, m.operation, m.resourceType, m.name, pt, g.permission)
  }

  function RowsOfGrantee(g: Grantee, ms: seq<OpRes>, pt: PatternType, id: int): (rows: seq<Row>)
    ensures |rows| == |ms|
  {
    if ms == [] then [] else [RowFor(g, ms[0], pt, id)] + RowsOfGrantee(g, ms[1..], pt, id + 1)
  }

  function RowsOf(gs: seq<Grantee>, ms: seq<OpRes>, pt: PatternType, id: int): seq<Row> {
    if gs == [] then [] else RowsOfGrantee(gs[0], ms, pt, id) + RowsOf(gs[1..], ms, pt, id + |ms|)
  }

  /** The rows an invocation adds, numbered from `firstId`. */
  function Expanded(p: Parsed, firstId: int): seq<Row> {
    if p.subAction != "--add" then [] else RowsOf(Grantees(p), Matrix(p), p.patternType, firstId)
  }

  lemma {:induction false} RowsOfSplit(a: seq<Grantee>, g: Grantee, ms: seq<OpRes>, pt: PatternType, id: int)
    ensures RowsOf(a + [g], ms, pt, id)
         == RowsOf(a, ms, pt, id) + RowsOfGrantee(g, ms, pt, id + |RowsOf(a, ms, pt, id)|)
  {
    if a == [] {
      assert a + [g] == [g];
      assert RowsOf([g][1..], ms, pt, id + |ms|) == [];
    } else {
      assert (a + [g])[0] == a[0] && (a + [g])[1..] == a[1..] + [g];
      hide RowsOfGrantee;
      RowsOfSplit(a[1..], g, ms, pt, id + |ms|);
    }
  }

  lemma GranteeStep(g: Grantee, ms: seq<OpRes>, pt: PatternType, id: int, j: nat)
    requires j < |ms|
    ensures RowsOfGrantee(g, ms[j..], pt, id) == [RowFor(g, ms[j], pt, id)] + RowsOfGrantee(g, ms[j + 1..], pt, id + 1)
  {
    assert ms[j..][1..] == ms[j + 1..];
  }

  lemma NoMoreRows(g: Grantee, pt: PatternType, id: int)
    ensures RowsOfGrantee(g, [], pt, id) == []
  {
  }

  /** The innermost loop: one principal and host, every (operation, resource) pair. */
  method ExpandGrantee(g: Grantee, matrix: seq<OpRes>, pt: PatternType, id: int) returns (rows: seq<Row>, next: int)
    ensures rows == RowsOfGrantee(g, matrix, pt, id) && next == id + |rows|
  {
    hide RowsOfGrantee, RowFor;
    rows, next := [], id;
    assert matrix[0..] == matrix;
    for j := 0 to |matrix|
      invariant next == id + |rows|
      invariant rows + RowsOfGrantee(g, matrix[j..], pt, next) == RowsOfGrantee(g, matrix, pt, id)
    {
      GranteeStep(g, matrix, pt, next, j);
      rows := rows + [RowFor(g, matrix[j], pt, next)];
      next := next + 1;
    }
    NoMoreRows(g, pt, next);
  }

  lemma ExpandedIsRowsOf(p: Parsed, firstId: int)
    requires p.subAction == "--add"
    ensures Expanded(p, firstId) == RowsOf(Grantees(p), Matrix(p), p.patternType, firstId)
    ensures forall ms, n :: RowsOf([], ms, p.patternType, n) == []
  {
  }

  method Expand(p: Parsed, firstId: int) returns (rows: seq<Row>, next: int)
    ensures rows == Expanded(p, firstId)
    ensures next == firstId + |rows|
  {
    rows, next := [], firstId;
    if p.subAction != "--add" { return; }
    hide Grantees, Matrix, RowsOfGrantee, RowsOf, Expanded;
    var grantees, matrix := Grantees(p), Matrix(p);
    ExpandedIsRowsOf(p, firstId);
    for i := 0 to |grantees|
      invariant rows == RowsOf(grantees[..i], matrix, p.patternType, firstId)
      invariant next == firstId + |rows|
    {
      RowsOfSplit(grantees[..i], grantees[i], matrix, p.patternType, firstId);
      assert grantees[..i] + [grantees[i]] == grantees[..i + 1];
      var more, after := ExpandGrantee(grantees[i], matrix, p.patternType, next);
      rows, next := rows + more, after;
    }
    assert grantees[..|grantees|] == grantees;
  }
}
