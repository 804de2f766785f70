/** Delete and rollback undo each other: what the generated lines mean, read by the program's own
    parser and run against a broker. */
module RoundTrip {
  import opened Types
  import opened Shell
  import opened Argv
  import opened ArgvLaws
  import opened Scripts

  // ---------------------------------------------------------------------------
  // Argument lists decode to the row they were made from

  /** The connection arguments leave no trace, whatever their values are. */
  lemma ParseConnection(o: Options, rest: seq<string>, p: Parsed)
    ensures ParseArgs(ConnectionArgs(o) + rest, p) == ParseArgs(rest, p)
  {
    FlagTexts();
    hide FlagOf;
    var tail := (if o.commandConfig != "" then ["--command-config", o.commandConfig] else []) + rest;
    var args := ConnectionArgs(o) + rest;
    assert args[0] == "--bootstrap-server" && args[2..] == tail;
    if o.commandConfig != "" {
      assert tail[0] == "--command-config" && tail[2..] == rest;
    } else {
      assert tail == rest;
    }
  }

  function Refs(r: Row): seq<ResourceRef> {
    match r.resourceType
    case Subject => []
    case Cluster => [ResourceRef(Cluster, "kafka-cluster")]
    case _ => [ResourceRef(r.resourceType, r.resourceName)]
  }

  /** What parsing stores for a row's operation, pattern type and resource. */
  function WithWhat(p: Parsed, r: Row): Parsed {
    p.(operations := p.operations + [r.operation], patternType := r.patternType, resources := p.resources + Refs(r),
       groupName := if r.resourceType == Group then r.resourceName else p.groupName,
       transactionalId := if r.resourceType == TransactionalId then r.resourceName else p.transactionalId)
  }

  predicate KnownRow(r: Row) { !r.operation.OtherOp? && KnownPatternType(r.patternType) }

  lemma ParseResource(r: Row, p: Parsed)
    ensures ParseArgs(ResourceArgs(r), p) ==
            Ok(p.(resources := p.resources + Refs(r),
                  groupName := if r.resourceType == Group then r.resourceName else p.groupName,
                  transactionalId := if r.resourceType == TransactionalId then r.resourceName else p.transactionalId))
  {
    ResourceFlagTexts();
    hide FlagOf;
    var args := ResourceArgs(r);
    match r.resourceType {
      case Subject => assert p.resources + [] == p.resources;
      case Cluster => ParseSwitch("--cluster", [], p); assert args == ["--cluster"] + [];
      case Topic => ParseValue("--topic", r.resourceName, [], p); assert args == ["--topic", r.resourceName] + [];
      case Group => ParseValue("--group", r.resourceName, [], p); assert args == ["--group", r.resourceName] + [];
      case TransactionalId =>
        ParseValue("--transactional-id", r.resourceName, [], p);
        assert args == ["--transactional-id", r.resourceName] + [];
      case DelegationToken =>
        ParseValue("--delegation-token", r.resourceName, [], p);
        assert args == ["--delegation-token", r.resourceName] + [];
    }
  }

  lemma ParseWhat(r: Row, p: Parsed)
    requires KnownRow(r)
    ensures ParseArgs(WhatArgs(r), p) == Ok(WithWhat(p, r))
  {
    FlagTexts();
    NormalizeOpRoundTrip(r.operation);
    PatternTypeRoundTrip(r.patternType);
    hide FlagOf, NormalizeOp, OpText, Upper, Lower, ResourceArgs;
    var rest := ["--resource-pattern-type", Lower(r.patternType)] + ResourceArgs(r);
    var p1 := Store(p, OperationFlag, OpText(r.operation));
    ParseValue("--operation", OpText(r.operation), rest, p);
    ParseValue("--resource-pattern-type", Lower(r.patternType), ResourceArgs(r), p1);
    ParseResource(r, Store(p1, PatternTypeFlag, Lower(r.patternType)));
  }

  /** The parse of the four argument lists. */
  function AllowParsed(sub: string, r: Row): Parsed {
    WithWhat(BLANK.(subAction := sub, allowPrincipals := [r.principal]), r)
  }

  function DenyParsed(sub: string, r: Row): Parsed {
    WithWhat(BLANK.(subAction := sub, denyPrincipals := [r.principal], denyHosts := [r.host]), r)
  }

  lemma ParseAdd(r: Row, o: Options)
    requires KnownRow(r)
    ensures ParsedArgv([BINARY] + AddArgs(r, o)) == Ok(AllowParsed("--add", r))
  {
    FlagTexts();
    hide FlagOf, WhatArgs, ConnectionArgs;
    var who := ["--allow-principal", r.principal] + WhatArgs(r);
    assert ([BINARY] + AddArgs(r, o))[1..] == AddArgs(r, o);
    ParseConnection(o, ["--add"] + who, BLANK);
    ParseSwitch("--add", who, BLANK);
    var p := BLANK.(subAction := "--add");
    ParseValue("--allow-principal", r.principal, WhatArgs(r), p);
    assert [] + [r.principal] == [r.principal];
    ParseWhat(r, p.(allowPrincipals := [r.principal]));
  }

  lemma ParseRemove(r: Row, o: Options)
    requires KnownRow(r)
    ensures ParsedArgv([BINARY] + RemoveArgs(r, o)) == Ok(AllowParsed("--remove", r))
  {
    FlagTexts();
    hide FlagOf, WhatArgs, ConnectionArgs;
    var who := ["--allow-principal", r.principal] + WhatArgs(r);
    assert ([BINARY] + RemoveArgs(r, o))[1..] == RemoveArgs(r, o);
    ParseConnection(o, ["--remove"] + (["--force"] + who), BLANK);
    ParseSwitch("--remove", ["--force"] + who, BLANK);
    var p := BLANK.(subAction := "--remove");
    ParseSwitch("--force", who, p);
    ParseValue("--allow-principal", r.principal, WhatArgs(r), p);
    assert [] + [r.principal] == [r.principal];
    ParseWhat(r, p.(allowPrincipals := [r.principal]));
  }

  lemma ParseDenyAdd(r: Row, o: Options)
    requires KnownRow(r)
    ensures ParsedArgv([BINARY] + DenyAddArgs(r, o)) == Ok(DenyParsed("--add", r))
  {
    FlagTexts();
    hide FlagOf, WhatArgs, ConnectionArgs;
    var host := ["--deny-host", r.host] + WhatArgs(r);
    var who := ["--deny-principal", r.principal] + host;
    assert ([BINARY] + DenyAddArgs(r, o))[1..] == DenyAddArgs(r, o);
    ParseConnection(o, ["--add"] + who, BLANK);
    ParseSwitch("--add", who, BLANK);
    var p := BLANK.(subAction := "--add");
    ParseValue("--deny-principal", r.principal, host, p);
    assert [] + [r.principal] == [r.principal] && [] + [r.host] == [r.host];
    var p1 := p.(denyPrincipals := [r.principal]);
    ParseValue("--deny-host", r.host, WhatArgs(r), p1);
    ParseWhat(r, p1.(denyHosts := [r.host]));
  }

  lemma ParseDenyRemove(r: Row, o: Options)
    requires KnownRow(r)
    ensures ParsedArgv([BINARY] + DenyRemoveArgs(r, o)) == Ok(DenyParsed("--remove", r))
  {
    FlagTexts();
    hide FlagOf, WhatArgs, ConnectionArgs;
    var host := ["--deny-host", r.host] + WhatArgs(r);
    var who := ["--deny-principal", r.principal] + host;
    assert ([BINARY] + DenyRemoveArgs(r, o))[1..] == DenyRemoveArgs(r, o);
    ParseConnection(o, ["--remove"] + (["--force"] + who), BLANK);
    ParseSwitch("--remove", ["--force"] + who, BLANK);
    var p := BLANK.(subAction := "--remove");
    ParseSwitch("--force", who, p);
    ParseValue("--deny-principal", r.principal, host, p);
    assert [] + [r.principal] == [r.principal] && [] + [r.host] == [r.host];
    var p1 := p.(denyPrincipals := [r.principal]);
    ParseValue("--deny-host", r.host, WhatArgs(r), p1);
    ParseWhat(r, p1.(denyHosts := [r.host]));
  }

  // ---------------------------------------------------------------------------
  // One line gives back one row

  /** The rows an argument list can carry: those whose resource has a flag, and a cluster by its only name. */
  predicate HasFlag(r: Row) {
    r.resourceType != Subject && (r.resourceType == Cluster ==> r.resourceName == "kafka-cluster")
  }

  /** The allow lines carry no host. */
  predicate AllowExpressible(r: Row) { r.permission == Allow && r.host == "*" && HasFlag(r) }

  predicate DenyExpressible(r: Row) { r.permission == Deny && HasFlag(r) }

  /** What an added list expands to: nothing for a Subject, and otherwise one row. */
  lemma ExpandOne(r: Row, g: Grantee, p: Parsed, id: int)
    requires p == WithWhat(p.(operations := [], resources := [], groupName := "", transactionalId := ""), r)
    requires p.subAction == "--add" && !p.producer && !p.consumer && Grantees(p) == [g]
    ensures Expanded(p, id) == if r.resourceType == Subject then [] else
              [Row(id, g.principal, g.host, r.operation, r.resourceType,
                   if r.resourceType == Cluster then "kafka-cluster" else r.resourceName, r.patternType, g.permission)]
  {
    assert p.operations == [r.operation] && p.resources == Refs(r);
    hide Grantees;
    if Refs(r) != [] { assert OnResources(r.operation, Refs(r)[1..]) == []; }
    assert OpsOnResources([r.operation][1..], Refs(r)) == [];
    var m := Matrix(p);
    assert m == if r.resourceType == Subject then [] else
                [OpRes(r.operation, r.resourceType, if r.resourceType == Cluster then "kafka-cluster" else r.resourceName)];
    assert RowsOf([g][1..], m, p.patternType, id + |m|) == [];
    if m != [] { assert RowsOfGrantee(g, m[1..], p.patternType, id + 1) == []; }
  }

  lemma ExpandAllow(r: Row, id: int)
    ensures (Expanded(AllowParsed("--add", r), id) == [r.(id := id)]) <==> AllowExpressible(r)
    ensures AllowExpressible(r) ==> |Expanded(AllowParsed("--add", r), id)| == 1
  {
    var p := AllowParsed("--add", r);
    var g := Grantee(Allow, r.principal, "*");
    assert OverHosts(Allow, r.principal, ["*"][1..]) == [];
    assert OverPrincipals(Allow, [r.principal][1..], ["*"]) == [];
    assert Grantees(p) == [g];
    ExpandOne(r, g, p, id);
  }

  lemma ExpandDeny(r: Row, id: int)
    ensures (Expanded(DenyParsed("--add", r), id) == [r.(id := id)]) <==> DenyExpressible(r)
  {
    var p := DenyParsed("--add", r);
    var g := Grantee(Deny, r.principal, r.host);
    assert OverHosts(Deny, r.principal, [r.host][1..]) == [];
    assert OverPrincipals(Deny, [r.principal][1..], [r.host]) == [];
    assert Grantees(p) == [g];
    ExpandOne(r, g, p, id);
  }

  /** Reads a script: every command must be a `kafka-acls --add`; ids run on from `id`. */
  function RowsOfCommands(cmds: seq<seq<string>>, id: int): Option<seq<Row>> {
    if cmds == [] then Some([])
    else if cmds[0] == [] || cmds[0][0] != BINARY then None
    else match ParsedArgv(cmds[0])
      case Err(_) => None
      case Ok(p) =>
        if p.subAction != "--add" then None else
          var rows := Expanded(p, id);
          match RowsOfCommands(cmds[1..], id + |rows|)
          case None => None
          case Some(more) => Some(rows + more)
  }

  function ReadScript(text: string, id: int): Option<seq<Row>> {
    match ScriptCommands(text) case None => None case Some(cmds) => RowsOfCommands(cmds, id)
  }

  lemma {:induction false} TextsOfQuoted(args: seq<string>)
    ensures Texts(QuotedAll(args)) == args
    ensures forall p :: p in QuotedAll(args) ==> WellFormed(p)
  {
    if args != [] {
      TextsOfQuoted(args[1..]);
      assert Texts(QuotedAll(args)) == [args[0]] + Texts(QuotedAll(args[1..])) by {
        assert QuotedAll(args)[1..] == QuotedAll(args[1..]);
      }
    }
  }

  lemma BinaryIsOrdinary()
    ensures forall c :: c in BINARY ==> IsOrdinary(c)
  {
  }

  lemma PiecesLex(args: seq<string>)
    ensures Texts(Pieces(args)) == [BINARY] + args
    ensures forall p :: p in Pieces(args) ==> WellFormed(p)
  {
    BinaryIsOrdinary();
    TextsOfQuoted(args);
    hide QuotedAll, IsOrdinary;
    assert Pieces(args)[1..] == QuotedAll(args);
    forall p | p in Pieces(args) ensures WellFormed(p) {
      assert p == Bare(BINARY) || p in QuotedAll(args);
    }
  }

  lemma EmptyScript()
    ensures ScriptCommands("") == Some([])
  {
  }

  /** A line of a rollback script begins the command list with its argument list. */
  lemma LineCommand(args: seq<string>, rest: string)
    requires ScriptCommands(rest).Some?
    ensures ScriptCommands(CommandText(Pieces(args)) + "\n" + rest) == Some([[BINARY] + args] + ScriptCommands(rest).value)
  {
    PiecesLex(args);
    FirstCommand(Pieces(args), '\n', rest);
    assert CommandText(Pieces(args)) + ['\n'] + rest == CommandText(Pieces(args)) + "\n" + rest;
  }

  lemma OneCommand(cmd: seq<string>, p: Parsed, id: int)
    requires cmd != [] && cmd[0] == BINARY && ParsedArgv(cmd) == Ok(p) && p.subAction == "--add"
    ensures RowsOfCommands([cmd], id) == Some(Expanded(p, id))
  {
    hide Expanded, ParsedArgv;
    assert [cmd][1..] == [];
    assert Expanded(p, id) + [] == Expanded(p, id);
  }

  /** One rollback line, read back, is exactly its row iff the row is an Allow row with host `*` on
      a resource that has a flag. */
  lemma AddLineRoundTrip(r: Row, o: Options, id: int)
    requires KnownRow(r)
    ensures ReadScript(AddLine(r, o), id) == Some([r.(id := id)]) <==> AllowExpressible(r)
  {
    hide Lex, ParseArgs, Expanded, AddArgs, RowsOfCommands, Pieces, CommandText;
    EmptyScript();
    LineCommand(AddArgs(r, o), "");
    assert AddLine(r, o) + "" == AddLine(r, o);
    ParseAdd(r, o);
    ExpandAllow(r, id);
    assert [[BINARY] + AddArgs(r, o)] + [] == [[BINARY] + AddArgs(r, o)];
    OneCommand([BINARY] + AddArgs(r, o), AllowParsed("--add", r), id);
  }

  /** One deny rollback line, read back, is exactly its row iff the row is a DENY row, of any host,
      on a resource that has a flag. */
  lemma DenyAddLineRoundTrip(r: Row, o: Options, id: int)
    requires KnownRow(r)
    ensures ReadScript(DenyAddLine(r, o), id) == Some([r.(id := id)]) <==> DenyExpressible(r)
  {
    hide Lex, ParseArgs, Expanded, DenyAddArgs, RowsOfCommands, Pieces, CommandText;
    EmptyScript();
    LineCommand(DenyAddArgs(r, o), "");
    assert DenyAddLine(r, o) + "" == DenyAddLine(r, o);
    ParseDenyAdd(r, o);
    ExpandDeny(r, id);
    assert [[BINARY] + DenyAddArgs(r, o)] + [] == [[BINARY] + DenyAddArgs(r, o)];
    OneCommand([BINARY] + DenyAddArgs(r, o), DenyParsed("--add", r), id);
  }
}
