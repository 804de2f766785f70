/** What the parser and the expansion of `kafka-acls` argument lists compute, field by field. */
module ArgvLaws {
  import opened Types
  import opened Argv

  // ---------------------------------------------------------------------------
  // Single flags

  lemma FlagTexts()
    ensures FlagOf("--bootstrap-server") == ConnectionFlag && FlagOf("--command-config") == ConnectionFlag
    ensures FlagOf("--add") == SubActionFlag && FlagOf("--remove") == SubActionFlag
    ensures FlagOf("--force") == OtherFlag
    ensures FlagOf("--allow-principal") == AllowPrincipalFlag && FlagOf("--deny-principal") == DenyPrincipalFlag
    ensures FlagOf("--allow-host") == AllowHostFlag && FlagOf("--deny-host") == DenyHostFlag
    ensures FlagOf("--operation") == OperationFlag
    ensures FlagOf("--resource-pattern-type") == PatternTypeFlag
  {
    ValueFlagTexts();
    OtherFlagTexts();
    hide FlagOf;
  }

  lemma ValueFlagTexts()
    ensures FlagOf("--allow-principal") == AllowPrincipalFlag && FlagOf("--deny-principal") == DenyPrincipalFlag
    ensures FlagOf("--allow-host") == AllowHostFlag && FlagOf("--deny-host") == DenyHostFlag
    ensures FlagOf("--operation") == OperationFlag
  {
  }

  lemma OtherFlagTexts()
    ensures FlagOf("--bootstrap-server") == ConnectionFlag && FlagOf("--command-config") == ConnectionFlag
    ensures FlagOf("--add") == SubActionFlag && FlagOf("--remove") == SubActionFlag
    ensures FlagOf("--force") == OtherFlag && FlagOf("--resource-pattern-type") == PatternTypeFlag
  {
  }

  lemma ResourceFlagTexts()
    ensures FlagOf("--topic") == TopicFlag && FlagOf("--group") == GroupFlag && FlagOf("--cluster") == ClusterFlag
    ensures FlagOf("--transactional-id") == TransactionalIdFlag && FlagOf("--delegation-token") == DelegationTokenFlag
  {
  }

  /** A stored flag and its value. */
  lemma ParseValue(flag: string, v: string, rest: seq<string>, p: Parsed)
    requires NeedsValue(FlagOf(flag))
    ensures ParseArgs([flag, v] + rest, p) == ParseArgs(rest, Store(p, FlagOf(flag), v))
  {
    var args := [flag, v] + rest;
    assert args[0] == flag && args[1] == v && args[2..] == rest;
  }

  lemma ParseSwitch(flag: string, rest: seq<string>, p: Parsed)
    requires !NeedsValue(FlagOf(flag)) && !FlagOf(flag).ConnectionFlag?
    ensures ParseArgs([flag] + rest, p) == ParseArgs(rest, Switch(p, FlagOf(flag), flag))
  {
    var args := [flag] + rest;
    assert args[0] == flag && args[1..] == rest;
  }

  lemma SwitchTexts()
    ensures FlagOf("--list") == SubActionFlag && FlagOf("--producer") == ProducerFlag
    ensures FlagOf("--consumer") == ConsumerFlag && FlagOf("--idempotent") == IdempotentFlag
  {
  }

  // ---------------------------------------------------------------------------
  // Operation texts

  /** The spellings of an operation, in upper case. */
  function Spellings(op: Operation): set<string> {
    match op
    case Read => {"READ"} case Write => {"WRITE"} case Create => {"CREATE"} case Delete => {"DELETE"}
    case Alter => {"ALTER"} case Describe => {"DESCRIBE"} case All => {"ALL"}
    case ClusterAction => {"CLUSTER_ACTION"}
    case DescribeConfigs => {"DESCRIBECONFIGS", "DESCRIBE_CONFIGS"}
    case AlterConfigs => {"ALTERCONFIGS", "ALTER_CONFIGS"}
    case IdempotentWrite => {"IDEMPOTENTWRITE", "IDEMPOTENT_WRITE"}
    case OtherOp(_) => {}
  }

  lemma SpellingIff(u: string, op: Operation)
    ensures OpOfSpelling(u) == Some(op) <==> u in Spellings(op)
  {
  }

  lemma NameIff(s: string, op: Operation)
    requires !op.OtherOp?
    ensures OpOfText(s) == op <==> s == OpText(op)
    ensures OpOfText(s).OtherOp? ==> OpOfText(s).text == s
  {
  }

  /** A text names an operation iff it is one of its spellings in any case, or its exact name; any other
      text is kept. */
  lemma OperationTexts(s: string, op: Operation)
    ensures !op.OtherOp? ==> (NormalizeOp(s) == op <==> Upper(s) in Spellings(op) || s == OpText(op))
    ensures NormalizeOp(s).OtherOp? ==> NormalizeOp(s).text == s
  {
    hide Upper, Spellings, OpText, OpOfSpelling, OpOfText;
    SpellingIff(Upper(s), op);
    if !op.OtherOp? {
      NormalizeOpRoundTrip(op);
      NameIff(s, op);
    }
    NameIff(s, Read);
    NoOddSpelling(Upper(s));
  }

  lemma NoOddSpelling(u: string)
    ensures OpOfSpelling(u).Some? ==> !OpOfSpelling(u).value.OtherOp?
  {
  }

  // ---------------------------------------------------------------------------
  // Whole argument lists

  function Flags(flag: string, values: seq<string>): seq<string> {
    if values == [] then [] else [flag, values[0]] + Flags(flag, values[1..])
  }

  function ResourceWords(r: ResourceRef): seq<string> {
    match r.resourceType
    case Topic => ["--topic", r.name]
    case Group => ["--group", r.name]
    case Cluster => ["--cluster"]
    case TransactionalId => ["--transactional-id", r.name]
    case DelegationToken => ["--delegation-token", r.name]
    case Subject => []
  }

  function AllResourceWords(rs: seq<ResourceRef>): seq<string> {
    if rs == [] then [] else ResourceWords(rs[0]) + AllResourceWords(rs[1..])
  }

  function OperationNames(ops: seq<Operation>): seq<string> {
    if ops == [] then [] else [OpText(ops[0])] + OperationNames(ops[1..])
  }

  function Word(on: bool, word: string): seq<string> { if on then [word] else [] }

  function SwitchWords(p: Parsed, rest: seq<string>): seq<string> {
    Word(p.producer, "--producer") + (Word(p.consumer, "--consumer") + (Word(p.idempotent, "--idempotent") + rest))
  }

  function WhatWords(p: Parsed, rest: seq<string>): seq<string> {
    Flags("--operation", OperationNames(p.operations)) + (AllResourceWords(p.resources) +
      (["--resource-pattern-type", p.patternType] + SwitchWords(p, rest)))
  }

  function WhoWords(p: Parsed, rest: seq<string>): seq<string> {
    Flags("--allow-principal", p.allowPrincipals) + (Flags("--deny-principal", p.denyPrincipals) +
      (Flags("--allow-host", p.allowHosts) + (Flags("--deny-host", p.denyHosts) + rest)))
  }

  /** Each field of an invocation written as its flag and value, and then the rest. */
  function Written(p: Parsed, rest: seq<string>): seq<string> {
    Word(p.subAction != "", p.subAction) + WhoWords(p, WhatWords(p, rest))
  }

  function LastName(rt: ResourceType, rs: seq<ResourceRef>): string {
    if rs == [] then ""
    else if rs[|rs| - 1].resourceType == rt then rs[|rs| - 1].name
    else LastName(rt, rs[..|rs| - 1])
  }

  /** Resources that have a flag. */
  predicate Nameable(r: ResourceRef) { r.resourceType != Subject && (r.resourceType == Cluster ==> r.name == "kafka-cluster") }

  /** Invocations as the parser makes them: the group and the transactional id are the last ones named. */
  ghost predicate Consistent(p: Parsed) {
    && p.subAction in ["", "--add", "--remove", "--list"]
    && (forall op :: op in p.operations ==> NormalizeOp(OpText(op)) == op)
    && (forall r :: r in p.resources ==> Nameable(r))
    && p.groupName == LastName(Group, p.resources)
    && p.transactionalId == LastName(TransactionalId, p.resources)
    && p.patternType == Upper(p.patternType)
  }

  /** What a repeated flag stores. */
  function StoredAll(p: Parsed, f: Flag, values: seq<string>): Parsed
    requires NeedsValue(f)
    decreases |values|
  {
    if values == [] then p else StoredAll(Store(p, f, values[0]), f, values[1..])
  }

  lemma {:induction false} ParseFlags(flag: string, values: seq<string>, rest: seq<string>, p: Parsed)
    requires NeedsValue(FlagOf(flag))
    ensures ParseArgs(Flags(flag, values) + rest, p) == ParseArgs(rest, StoredAll(p, FlagOf(flag), values))
  {
    hide FlagOf, Store, ParseArgs;
    if values == [] {
      assert [] + rest == rest;
    } else {
      var more := Flags(flag, values[1..]) + rest;
      assert Flags(flag, values) + rest == [flag, values[0]] + more;
      ParseValue(flag, values[0], more, p);
      ParseFlags(flag, values[1..], rest, Store(p, FlagOf(flag), values[0]));
    }
  }

  lemma {:induction false} StoredAllows(p: Parsed, values: seq<string>)
    ensures StoredAll(p, AllowPrincipalFlag, values) == p.(allowPrincipals := p.allowPrincipals + values)
    decreases |values|
  {
    if values == [] {
      assert p.allowPrincipals + values == p.allowPrincipals;
    } else {
      StoredAllows(Store(p, AllowPrincipalFlag, values[0]), values[1..]);
      assert p.allowPrincipals + [values[0]] + values[1..] == p.allowPrincipals + values;
    }
  }

  lemma {:induction false} StoredDenies(p: Parsed, values: seq<string>)
    ensures StoredAll(p, DenyPrincipalFlag, values) == p.(denyPrincipals := p.denyPrincipals + values)
    decreases |values|
  {
    if values == [] {
      assert p.denyPrincipals + values == p.denyPrincipals;
    } else {
      StoredDenies(Store(p, DenyPrincipalFlag, values[0]), values[1..]);
      assert p.denyPrincipals + [values[0]] + values[1..] == p.denyPrincipals + values;
    }
  }

  lemma {:induction false} StoredAllowHosts(p: Parsed, values: seq<string>)
    ensures StoredAll(p, AllowHostFlag, values) == p.(allowHosts := p.allowHosts + values)
    decreases |values|
  {
    if values == [] {
      assert p.allowHosts + values == p.allowHosts;
    } else {
      StoredAllowHosts(Store(p, AllowHostFlag, values[0]), values[1..]);
      assert p.allowHosts + [values[0]] + values[1..] == p.allowHosts + values;
    }
  }

  lemma {:induction false} StoredDenyHosts(p: Parsed, values: seq<string>)
    ensures StoredAll(p, DenyHostFlag, values) == p.(denyHosts := p.denyHosts + values)
    decreases |values|
  {
    if values == [] {
      assert p.denyHosts + values == p.denyHosts;
    } else {
      StoredDenyHosts(Store(p, DenyHostFlag, values[0]), values[1..]);
      assert p.denyHosts + [values[0]] + values[1..] == p.denyHosts + values;
    }
  }

  lemma {:induction false} StoredOperations(p: Parsed, ops: seq<Operation>)
    requires forall op :: op in ops ==> NormalizeOp(OpText(op)) == op
    ensures StoredAll(p, OperationFlag, OperationNames(ops)) == p.(operations := p.operations + ops)
    decreases |ops|
  {
    hide NormalizeOp, OpText;
    if ops == [] {
      assert p.operations + ops == p.operations;
    } else {
      assert ops == [ops[0]] + ops[1..];
      var names := OperationNames(ops);
      assert names[0] == OpText(ops[0]) && names[1..] == OperationNames(ops[1..]);
      StoredOperations(Store(p, OperationFlag, names[0]), ops[1..]);
      assert p.operations + [ops[0]] + ops[1..] == p.operations + ops;
    }
  }

  /** The name that counts after `rs`, `before` being the one that counted before. */
  function NameAfter(rt: ResourceType, rs: seq<ResourceRef>, before: string): string {
    if rs == [] then before
    else NameAfter(rt, rs[1..], if rs[0].resourceType == rt then rs[0].name else before)
  }

  lemma {:induction false} NameAfterIsLast(rt: ResourceType, rs: seq<ResourceRef>, before: string)
    ensures NameAfter(rt, rs, before) == if exists r :: r in rs && r.resourceType == rt then LastName(rt, rs) else before
  {
    if rs != [] {
      var init, last := rs[..|rs| - 1], rs[|rs| - 1];
      assert rs == init + [last];
      NameAfterIsLast(rt, init, before);
      NameAfterAppend(rt, init, last, before);
    }
  }

  lemma {:induction false} NameAfterAppend(rt: ResourceType, rs: seq<ResourceRef>, r: ResourceRef, before: string)
    ensures NameAfter(rt, rs + [r], before) == if r.resourceType == rt then r.name else NameAfter(rt, rs, before)
  {
    if rs == [] {
      assert rs + [r] == [r] && [r][1..] == [];
    } else {
      assert (rs + [r])[1..] == rs[1..] + [r];
      NameAfterAppend(rt, rs[1..], r, if rs[0].resourceType == rt then rs[0].name else before);
    }
  }

  lemma {:induction false} LastNameOfNone(rt: ResourceType, rs: seq<ResourceRef>)
    requires forall r :: r in rs ==> r.resourceType != rt
    ensures LastName(rt, rs) == ""
  {
    if rs != [] { LastNameOfNone(rt, rs[..|rs| - 1]); }
  }

  /** An invocation with one more resource. */
  function WithResources(p: Parsed, rs: seq<ResourceRef>): Parsed {
    p.(resources := p.resources + rs, groupName := NameAfter(Group, rs, p.groupName),
       transactionalId := NameAfter(TransactionalId, rs, p.transactionalId))
  }

  lemma NameAfterOne(rt: ResourceType, r: ResourceRef, before: string)
    ensures NameAfter(rt, [r], before) == if r.resourceType == rt then r.name else before
  {
    assert [r][1..] == [];
  }

  lemma ParseOneResource(r: ResourceRef, rest: seq<string>, p: Parsed)
    requires Nameable(r)
    ensures ParseArgs(ResourceWords(r) + rest, p) == ParseArgs(rest, WithResources(p, [r]))
  {
    ResourceFlagTexts();
    NameAfterOne(Group, r, p.groupName);
    NameAfterOne(TransactionalId, r, p.transactionalId);
    hide FlagOf, ParseArgs, NameAfter;
    match r.resourceType {
      case Cluster => ParseSwitch("--cluster", rest, p);
      case Topic => ParseValue("--topic", r.name, rest, p);
      case Group => ParseValue("--group", r.name, rest, p);
      case TransactionalId => ParseValue("--transactional-id", r.name, rest, p);
      case DelegationToken => ParseValue("--delegation-token", r.name, rest, p);
    }
  }

  lemma {:induction false} ParseResources(rs: seq<ResourceRef>, rest: seq<string>, p: Parsed)
    requires forall r :: r in rs ==> Nameable(r)
    ensures ParseArgs(AllResourceWords(rs) + rest, p) == ParseArgs(rest, WithResources(p, rs))
  {
    hide ParseArgs, ResourceWords;
    if rs == [] {
      assert [] + rest == rest && p.resources + rs == p.resources;
    } else {
      var more := AllResourceWords(rs[1..]) + rest;
      assert AllResourceWords(rs) + rest == ResourceWords(rs[0]) + more;
      ParseOneResource(rs[0], more, p);
      ParseResources(rs[1..], rest, WithResources(p, [rs[0]]));
      NameAfterOne(Group, rs[0], p.groupName);
      NameAfterOne(TransactionalId, rs[0], p.transactionalId);
      assert p.resources + [rs[0]] + rs[1..] == p.resources + rs;
    }
  }

  lemma ParseSwitches(p: Parsed, rest: seq<string>, q: Parsed)
    requires !q.producer && !q.consumer && !q.idempotent
    ensures ParseArgs(SwitchWords(p, rest), q) ==
            ParseArgs(rest, q.(producer := p.producer, consumer := p.consumer, idempotent := p.idempotent))
  {
    SwitchTexts();
    hide FlagOf, ParseArgs;
    var q1 := q.(producer := p.producer);
    var q2 := q1.(consumer := p.consumer);
    var rest1 := Word(p.consumer, "--consumer") + (Word(p.idempotent, "--idempotent") + rest);
    var rest2 := Word(p.idempotent, "--idempotent") + rest;
    ParseWord(p.producer, "--producer", rest1, q);
    ParseWord(p.consumer, "--consumer", rest2, q1);
    ParseWord(p.idempotent, "--idempotent", rest, q2);
  }

  lemma ParseWord(on: bool, word: string, rest: seq<string>, p: Parsed)
    requires !NeedsValue(FlagOf(word)) && !FlagOf(word).ConnectionFlag?
    ensures ParseArgs(Word(on, word) + rest, p) == ParseArgs(rest, if on then Switch(p, FlagOf(word), word) else p)
  {
    hide FlagOf, ParseArgs;
    if on { ParseSwitch(word, rest, p); } else { assert [] + rest == rest; }
  }

  lemma ParseWho(p: Parsed, rest: seq<string>, q: Parsed)
    requires q.allowPrincipals == [] && q.denyPrincipals == [] && q.allowHosts == [] && q.denyHosts == []
    ensures ParseArgs(WhoWords(p, rest), q) ==
            ParseArgs(rest, q.(allowPrincipals := p.allowPrincipals, denyPrincipals := p.denyPrincipals,
                               allowHosts := p.allowHosts, denyHosts := p.denyHosts))
  {
    ValueFlagTexts();
    hide FlagOf, ParseArgs, Flags, StoredAll;
    var q1 := q.(allowPrincipals := p.allowPrincipals);
    var q2 := q1.(denyPrincipals := p.denyPrincipals);
    var q3 := q2.(allowHosts := p.allowHosts);
    var rest3 := Flags("--deny-host", p.denyHosts) + rest;
    var rest2 := Flags("--allow-host", p.allowHosts) + rest3;
    var rest1 := Flags("--deny-principal", p.denyPrincipals) + rest2;
    ParseFlags("--allow-principal", p.allowPrincipals, rest1, q);
    StoredAllows(q, p.allowPrincipals);
    ParseFlags("--deny-principal", p.denyPrincipals, rest2, q1);
    StoredDenies(q1, p.denyPrincipals);
    ParseFlags("--allow-host", p.allowHosts, rest3, q2);
    StoredAllowHosts(q2, p.allowHosts);
    ParseFlags("--deny-host", p.denyHosts, rest, q3);
    StoredDenyHosts(q3, p.denyHosts);
    assert [] + p.allowPrincipals == p.allowPrincipals && [] + p.denyPrincipals == p.denyPrincipals;
    assert [] + p.allowHosts == p.allowHosts && [] + p.denyHosts == p.denyHosts;
  }

  lemma NamesFromBlank(p: Parsed)
    requires p.groupName == LastName(Group, p.resources) && p.transactionalId == LastName(TransactionalId, p.resources)
    ensures NameAfter(Group, p.resources, "") == p.groupName && NameAfter(TransactionalId, p.resources, "") == p.transactionalId
  {
    NameAfterIsLast(Group, p.resources, "");
    NameAfterIsLast(TransactionalId, p.resources, "");
    if forall r :: r in p.resources ==> r.resourceType != Group { LastNameOfNone(Group, p.resources); }
    if forall r :: r in p.resources ==> r.resourceType != TransactionalId { LastNameOfNone(TransactionalId, p.resources); }
  }

  lemma ParsePattern(p: Parsed, rest: seq<string>, q: Parsed)
    requires q == BLANK.(subAction := p.subAction, allowPrincipals := p.allowPrincipals, denyPrincipals := p.denyPrincipals,
                         allowHosts := p.allowHosts, denyHosts := p.denyHosts, operations := p.operations,
                         resources := p.resources, groupName := p.groupName, transactionalId := p.transactionalId)
    requires Upper(p.patternType) == p.patternType
    ensures ParseArgs(["--resource-pattern-type", p.patternType] + SwitchWords(p, rest), q) == ParseArgs(rest, p)
  {
    FlagTexts();
    hide FlagOf, ParseArgs, SwitchWords, Upper;
    ParseValue("--resource-pattern-type", p.patternType, SwitchWords(p, rest), q);
    ParseSwitches(p, rest, q.(patternType := p.patternType));
  }

  lemma ParseOperationWords(ops: seq<Operation>, rest: seq<string>, q: Parsed)
    requires q.operations == [] && forall op :: op in ops ==> NormalizeOp(OpText(op)) == op
    ensures ParseArgs(Flags("--operation", OperationNames(ops)) + rest, q) == ParseArgs(rest, q.(operations := ops))
  {
    ValueFlagTexts();
    hide FlagOf, ParseArgs, Flags, StoredAll, OperationNames, NormalizeOp, OpText;
    ParseFlags("--operation", OperationNames(ops), rest, q);
    StoredOperations(q, ops);
    assert [] + ops == ops;
  }

  lemma ParseResourceWords(p: Parsed, rest: seq<string>, q: Parsed)
    requires q.resources == [] && q.groupName == "" && q.transactionalId == ""
    requires forall r :: r in p.resources ==> Nameable(r)
    requires p.groupName == LastName(Group, p.resources) && p.transactionalId == LastName(TransactionalId, p.resources)
    ensures ParseArgs(AllResourceWords(p.resources) + rest, q) ==
            ParseArgs(rest, q.(resources := p.resources, groupName := p.groupName, transactionalId := p.transactionalId))
  {
    NamesFromBlank(p);
    hide ParseArgs, AllResourceWords, NameAfter, LastName;
    ParseResources(p.resources, rest, q);
    assert [] + p.resources == p.resources;
  }

  lemma ParseWhatWords(p: Parsed, rest: seq<string>, q: Parsed)
    requires Consistent(p)
    requires q == BLANK.(subAction := p.subAction, allowPrincipals := p.allowPrincipals, denyPrincipals := p.denyPrincipals,
                         allowHosts := p.allowHosts, denyHosts := p.denyHosts)
    ensures ParseArgs(WhatWords(p, rest), q) == ParseArgs(rest, p)
  {
    hide ParseArgs, Flags, AllResourceWords, OperationNames, LastName, SwitchWords, NormalizeOp, OpText, Upper;
    var rest2 := ["--resource-pattern-type", p.patternType] + SwitchWords(p, rest);
    var q1 := q.(operations := p.operations);
    ParseOperationWords(p.operations, AllResourceWords(p.resources) + rest2, q);
    ParseResourceWords(p, rest2, q1);
    ParsePattern(p, rest, q1.(resources := p.resources, groupName := p.groupName, transactionalId := p.transactionalId));
  }

  /** The parser's law: writing each field as its flag and value and parsing the list gives the
      invocation back, for any principals, hosts, operations, resources and switches. */
  lemma ParsesBack(p: Parsed, rest: seq<string>)
    requires Consistent(p)
    ensures ParseArgs(Written(p, rest), BLANK) == ParseArgs(rest, p)
  {
    FlagTexts();
    SwitchTexts();
    hide FlagOf, ParseArgs, WhoWords, WhatWords, Flags, OpText, NormalizeOp, Upper, LastName;
    var q := BLANK.(subAction := p.subAction);
    if p.subAction != "" {
      ParseSwitch(p.subAction, WhoWords(p, WhatWords(p, rest)), BLANK);
    } else {
      assert [] + WhoWords(p, WhatWords(p, rest)) == WhoWords(p, WhatWords(p, rest));
    }
    ParseWho(p, WhatWords(p, rest), q);
    ParseWhatWords(p, rest, q.(allowPrincipals := p.allowPrincipals, denyPrincipals := p.denyPrincipals,
                               allowHosts := p.allowHosts, denyHosts := p.denyHosts));
  }

  lemma ParsesBackArgv(binary: string, p: Parsed, rest: seq<string>)
    requires Consistent(p)
    ensures ParsedArgv([binary] + Written(p, rest)) == ParseArgs(rest, p)
  {
    hide ParseArgs, Written, Consistent;
    assert ([binary] + Written(p, rest))[1..] == Written(p, rest);
    ParsesBack(p, rest);
  }

  // ---------------------------------------------------------------------------
  // Every parse is consistent

  lemma UpperTwice(s: string)
    ensures Upper(Upper(s)) == Upper(s)
  {
  }

  lemma NormalizeTwice(s: string)
    ensures NormalizeOp(OpText(NormalizeOp(s))) == NormalizeOp(s)
  {
    OperationTexts(s, Read);
    if !NormalizeOp(s).OtherOp? {
      NormalizeOpRoundTrip(NormalizeOp(s));
    } else {
      OtherText(NormalizeOp(s));
    }
  }

  lemma OtherText(op: Operation)
    requires op.OtherOp?
    ensures OpText(op) == op.text
  {
  }

  lemma LastNameAppend(rt: ResourceType, rs: seq<ResourceRef>, r: ResourceRef)
    ensures LastName(rt, rs + [r]) == if r.resourceType == rt then r.name else LastName(rt, rs)
  {
    assert (rs + [r])[..|rs|] == rs;
  }

  lemma AddedResource(p: Parsed, r: ResourceRef)
    requires Consistent(p) && Nameable(r)
    ensures Consistent(p.(resources := p.resources + [r],
                          groupName := if r.resourceType == Group then r.name else p.groupName,
                          transactionalId := if r.resourceType == TransactionalId then r.name else p.transactionalId))
  {
    LastNameAppend(Group, p.resources, r);
    LastNameAppend(TransactionalId, p.resources, r);
    hide LastName, NormalizeOp, OpText, Upper;
  }

  lemma StoreConsistent(p: Parsed, f: Flag, v: string)
    requires Consistent(p) && NeedsValue(f)
    ensures Consistent(Store(p, f, v))
  {
    UpperTwice(v);
    NormalizeTwice(v);
    hide NormalizeOp, OpText, Upper;
    match f {
      case TopicFlag => AddedResource(p, ResourceRef(Topic, v));
      case GroupFlag => AddedResource(p, ResourceRef(Group, v));
      case TransactionalIdFlag => AddedResource(p, ResourceRef(TransactionalId, v));
      case DelegationTokenFlag => AddedResource(p, ResourceRef(DelegationToken, v));
      case _ =>
    }
  }

  lemma SwitchConsistent(p: Parsed, tok: string)
    requires Consistent(p)
    ensures Consistent(Switch(p, FlagOf(tok), tok))
  {
    assert FlagOf(tok) == SubActionFlag ==> tok in ["--add", "--remove", "--list"];
    hide FlagOf, NormalizeOp, OpText, Upper;
    if FlagOf(tok) == ClusterFlag { AddedResource(p, ResourceRef(Cluster, "kafka-cluster")); }
  }

  lemma {:induction false} ParseConsistent(args: seq<string>, p: Parsed)
    requires Consistent(p) && ParseArgs(args, p).Ok?
    ensures Consistent(ParseArgs(args, p).value)
  {
    if args != [] {
      var f := FlagOf(args[0]);
      hide FlagOf, Consistent, Store, Switch;
      if NeedsValue(f) {
        StoreConsistent(p, f, args[1]);
        ParseConsistent(args[2..], Store(p, f, args[1]));
      } else if f.ConnectionFlag? {
        if |args| > 1 { ParseConsistent(args[2..], p); }
      } else {
        SwitchConsistent(p, args[0]);
        ParseConsistent(args[1..], Switch(p, f, args[0]));
      }
    }
  }

  lemma BlankConsistent()
    ensures Consistent(BLANK)
  {
  }

  /** The parser's results are exactly the consistent invocations. */
  lemma ParsedIffConsistent(p: Parsed)
    ensures Consistent(p) <==> exists argv :: ParsedArgv(argv) == Ok(p)
  {
    hide Consistent, ParseArgs, Written;
    if Consistent(p) {
      ParsesBackArgv("kafka-acls", p, []);
      NothingLeft(p);
    }
    if argv :| ParsedArgv(argv) == Ok(p) {
      BlankConsistent();
      if argv != [] { ParseConsistent(argv[1..], BLANK); }
    }
  }

  lemma NothingLeft(p: Parsed)
    ensures ParseArgs([], p) == Ok(p)
  {
  }

  // ---------------------------------------------------------------------------
  // Errors and noise

  const VALUE_FLAGS: set<string> :=
    {"--allow-principal", "--deny-principal", "--allow-host", "--deny-host", "--operation", "--topic", "--group",
     "--transactional-id", "--delegation-token", "--resource-pattern-type"}

  const SWITCHES: set<string> := {"--add", "--remove", "--list", "--cluster", "--producer", "--consumer", "--idempotent"}

  const CONNECTION_FLAGS: set<string> := {"--bootstrap-server", "--bootstrap", "--command-config"}

  lemma FlagKinds(tok: string)
    ensures NeedsValue(FlagOf(tok)) <==> tok in VALUE_FLAGS
    ensures FlagOf(tok).ConnectionFlag? <==> tok in CONNECTION_FLAGS
    ensures FlagOf(tok).OtherFlag? <==> tok !in VALUE_FLAGS + SWITCHES + CONNECTION_FLAGS
  {
  }

  /** A list fails iff one of the ten flags that take a value comes last, and then names it; a connection
      flag takes whatever follows, and any other text is passed over. */
  lemma LastWord(binary: string, p: Parsed, tok: string, value: string)
    requires Consistent(p)
    ensures tok in VALUE_FLAGS ==> ParsedArgv([binary] + Written(p, [tok])) == Err(tok)
    ensures tok in CONNECTION_FLAGS ==>
              ParsedArgv([binary] + Written(p, [tok])) == Ok(p) && ParsedArgv([binary] + Written(p, [tok, value])) == Ok(p)
    ensures tok !in VALUE_FLAGS + SWITCHES + CONNECTION_FLAGS ==> ParsedArgv([binary] + Written(p, [tok])) == Ok(p)
  {
    FlagKinds(tok);
    hide FlagOf, NeedsValue, Consistent, Written, ParsedArgv;
    ParsesBackArgv(binary, p, [tok]);
    ParsesBackArgv(binary, p, [tok, value]);
    assert [tok][1..] == [] && [tok, value][2..] == [];
  }

  // ---------------------------------------------------------------------------
  // Expansion

  /** A host is one of those given, or any when none is. */
  predicate HostAmong(host: string, hosts: seq<string>) { if hosts == [] then host == "*" else host in hosts }

  predicate GrantsTo(p: Parsed, perm: Permission, principal: string, host: string) {
    match perm
    case Allow => principal in p.allowPrincipals && HostAmong(host, p.allowHosts)
    case Deny => principal in p.denyPrincipals && HostAmong(host, p.denyHosts)
  }

  /** The operations an invocation asks for on a resource: those it lists on those it lists, or what the
      producer and consumer shortcuts stand for. */
  predicate AsksFor(p: Parsed, op: Operation, rt: ResourceType, name: string) {
    || (!p.producer && !p.consumer && op in p.operations && ResourceRef(rt, name) in p.resources)
    || (p.producer && rt == Topic && op in {Write, Describe, Create} && ResourceRef(Topic, name) in p.resources)
    || (p.producer && rt == TransactionalId && op in {Write, Describe} && name == p.transactionalId && name != "")
    || (p.producer && p.idempotent && rt == Cluster && op == IdempotentWrite && name == "kafka-cluster")
    || (p.consumer && rt == Topic && op in {Read, Describe} && ResourceRef(Topic, name) in p.resources)
    || (p.consumer && rt == Group && op == Read && ResourceRef(Group, name) in p.resources)
  }

  lemma {:induction false} OverHostsHas(perm: Permission, principal: string, hosts: seq<string>, g: Grantee)
    ensures g in OverHosts(perm, principal, hosts) <==> g.permission == perm && g.principal == principal && g.host in hosts
  {
    if hosts != [] {
      assert hosts == [hosts[0]] + hosts[1..];
      OverHostsHas(perm, principal, hosts[1..], g);
    }
  }

  lemma {:induction false} OverPrincipalsHas(perm: Permission, principals: seq<string>, hosts: seq<string>, g: Grantee)
    ensures g in OverPrincipals(perm, principals, hosts) <==> g.permission == perm && g.principal in principals && g.host in hosts
  {
    if principals != [] {
      assert principals == [principals[0]] + principals[1..];
      OverHostsHas(perm, principals[0], hosts, g);
      OverPrincipalsHas(perm, principals[1..], hosts, g);
    }
  }

  lemma GranteesHas(p: Parsed, g: Grantee)
    ensures g in Grantees(p) <==> GrantsTo(p, g.permission, g.principal, g.host)
  {
    OverPrincipalsHas(Allow, p.allowPrincipals, HostsOrAny(p.allowHosts), g);
    OverPrincipalsHas(Deny, p.denyPrincipals, HostsOrAny(p.denyHosts), g);
    hide OverPrincipals;
  }

  lemma {:induction false} ProducerTopicsHas(rs: seq<ResourceRef>, m: OpRes)
    ensures m in ProducerTopics(rs) <==>
            m.resourceType == Topic && m.operation in {Write, Describe, Create} && ResourceRef(Topic, m.name) in rs
  {
    if rs != [] {
      assert rs == [rs[0]] + rs[1..];
      ProducerTopicsHas(rs[1..], m);
    }
  }

  lemma {:induction false} ConsumerResourcesHas(rs: seq<ResourceRef>, m: OpRes)
    ensures m in ConsumerResources(rs) <==>
            || (m.resourceType == Topic && m.operation in {Read, Describe} && ResourceRef(Topic, m.name) in rs)
            || (m.resourceType == Group && m.operation == Read && ResourceRef(Group, m.name) in rs)
  {
    if rs != [] {
      assert rs == [rs[0]] + rs[1..];
      ConsumerResourcesHas(rs[1..], m);
    }
  }

  lemma {:induction false} OnResourcesHas(op: Operation, rs: seq<ResourceRef>, m: OpRes)
    ensures m in OnResources(op, rs) <==> m.operation == op && ResourceRef(m.resourceType, m.name) in rs
  {
    if rs != [] {
      assert rs == [rs[0]] + rs[1..];
      OnResourcesHas(op, rs[1..], m);
    }
  }

  lemma {:induction false} OpsOnResourcesHas(ops: seq<Operation>, rs: seq<ResourceRef>, m: OpRes)
    ensures m in OpsOnResources(ops, rs) <==> m.operation in ops && ResourceRef(m.resourceType, m.name) in rs
  {
    if ops != [] {
      assert ops == [ops[0]] + ops[1..];
      OnResourcesHas(ops[0], rs, m);
      OpsOnResourcesHas(ops[1..], rs, m);
    }
  }

  lemma MatrixHas(p: Parsed, m: OpRes)
    ensures m in Matrix(p) <==> AsksFor(p, m.operation, m.resourceType, m.name)
  {
    ProducerTopicsHas(p.resources, m);
    ConsumerResourcesHas(p.resources, m);
    OpsOnResourcesHas(p.operations, p.resources, m);
    hide ProducerTopics, ConsumerResources, OpsOnResources;
  }

  /** A row for the grantee and the pair, whose id is its place counted from `id`. */
  ghost predicate HasRow(rows: seq<Row>, id: int, pt: PatternType, g: Grantee, m: OpRes) {
    exists i :: 0 <= i < |rows| && rows[i] == RowFor(g, m, pt, id + i)
  }

  ghost predicate RowIsFor(row: Row, id: int, pt: PatternType, gs: seq<Grantee>, ms: seq<OpRes>) {
    exists g, m :: g in gs && m in ms && row == RowFor(g, m, pt, id)
  }

  ghost predicate AllRowsFor(rows: seq<Row>, id: int, pt: PatternType, gs: seq<Grantee>, ms: seq<OpRes>) {
    && (forall i :: 0 <= i < |rows| ==> RowIsFor(rows[i], id + i, pt, gs, ms))
    && (forall g, m :: g in gs && m in ms ==> HasRow(rows, id, pt, g, m))
  }

  lemma {:induction false} RowsOfGranteeHas(g: Grantee, ms: seq<OpRes>, pt: PatternType, id: int)
    ensures forall i :: 0 <= i < |ms| ==> RowsOfGrantee(g, ms, pt, id)[i] == RowFor(g, ms[i], pt, id + i)
  {
    if ms != [] { RowsOfGranteeHas(g, ms[1..], pt, id + 1); }
  }

  lemma OneGrantee(g: Grantee, ms: seq<OpRes>, pt: PatternType, id: int)
    ensures AllRowsFor(RowsOfGrantee(g, ms, pt, id), id, pt, [g], ms)
  {
    RowsOfGranteeHas(g, ms, pt, id);
    var rows := RowsOfGrantee(g, ms, pt, id);
    hide RowsOfGrantee, RowFor;
    forall i | 0 <= i < |rows| ensures RowIsFor(rows[i], id + i, pt, [g], ms) {
      assert g in [g] && ms[i] in ms;
    }
    forall h, m | h in [g] && m in ms ensures HasRow(rows, id, pt, h, m) {
      var i :| 0 <= i < |ms| && ms[i] == m;
      assert rows[i] == RowFor(h, m, pt, id + i);
    }
  }

  lemma RowsAppend(a: seq<Row>, b: seq<Row>, id: int, pt: PatternType, g: Grantee, gs: seq<Grantee>, ms: seq<OpRes>)
    requires AllRowsFor(a, id, pt, [g], ms) && AllRowsFor(b, id + |a|, pt, gs, ms)
    ensures AllRowsFor(a + b, id, pt, [g] + gs, ms)
  {
    hide RowFor;
    var rows := a + b;
    forall i | 0 <= i < |rows| ensures RowIsFor(rows[i], id + i, pt, [g] + gs, ms) {
      if i < |a| {
        assert RowIsFor(a[i], id + i, pt, [g], ms);
      } else {
        assert RowIsFor(b[i - |a|], id + |a| + (i - |a|), pt, gs, ms);
      }
    }
    forall h, m | h in [g] + gs && m in ms ensures HasRow(rows, id, pt, h, m) {
      if h == g {
        assert h in [g] && HasRow(a, id, pt, h, m);
        var i :| 0 <= i < |a| && a[i] == RowFor(h, m, pt, id + i);
        assert rows[i] == a[i];
      } else {
        assert h in gs && HasRow(b, id + |a|, pt, h, m);
        var i :| 0 <= i < |b| && b[i] == RowFor(h, m, pt, id + |a| + i);
        assert rows[|a| + i] == b[i];
      }
    }
  }

  lemma {:induction false} RowsOfHas(gs: seq<Grantee>, ms: seq<OpRes>, pt: PatternType, id: int)
    ensures AllRowsFor(RowsOf(gs, ms, pt, id), id, pt, gs, ms)
  {
    if gs != [] {
      assert gs == [gs[0]] + gs[1..];
      hide AllRowsFor, RowsOfGrantee;
      OneGrantee(gs[0], ms, pt, id);
      RowsOfHas(gs[1..], ms, pt, id + |ms|);
      RowsAppend(RowsOfGrantee(gs[0], ms, pt, id), RowsOf(gs[1..], ms, pt, id + |ms|), id, pt, gs[0], gs[1..], ms);
    }
  }

  /** What an invocation adds: nothing without `--add`, and otherwise one row for each principal and host
      of the matching lists and each operation and resource asked for, numbered consecutively. */
  lemma ExpandedMembers(p: Parsed, firstId: int, x: Row)
    ensures (exists i :: 0 <= i < |Expanded(p, firstId)| && Expanded(p, firstId)[i].(id := x.id) == x) <==>
            && p.subAction == "--add" && x.patternType == p.patternType
            && GrantsTo(p, x.permission, x.principal, x.host) && AsksFor(p, x.operation, x.resourceType, x.resourceName)
    ensures forall i :: 0 <= i < |Expanded(p, firstId)| ==> Expanded(p, firstId)[i].id == firstId + i
  {
    if p.subAction == "--add" {
      RowsOfHas(Grantees(p), Matrix(p), p.patternType, firstId);
      AddedMembers(p, Expanded(p, firstId), firstId, x);
    }
  }

  lemma AddedMembers(p: Parsed, rows: seq<Row>, firstId: int, x: Row)
    requires AllRowsFor(rows, firstId, p.patternType, Grantees(p), Matrix(p))
    ensures (exists i :: 0 <= i < |rows| && rows[i].(id := x.id) == x) <==>
            && x.patternType == p.patternType
            && GrantsTo(p, x.permission, x.principal, x.host) && AsksFor(p, x.operation, x.resourceType, x.resourceName)
    ensures forall i :: 0 <= i < |rows| ==> rows[i].id == firstId + i
  {
    hide Grantees, Matrix, GrantsTo, AsksFor;
    var g, m := Grantee(x.permission, x.principal, x.host), OpRes(x.operation, x.resourceType, x.resourceName);
    GranteesHas(p, g);
    MatrixHas(p, m);
    forall i | 0 <= i < |rows| ensures rows[i].id == firstId + i { assert RowIsFor(rows[i], firstId + i, p.patternType, Grantees(p), Matrix(p)); }
    if i :| 0 <= i < |rows| && rows[i].(id := x.id) == x {
      assert RowIsFor(rows[i], firstId + i, p.patternType, Grantees(p), Matrix(p));
    }
    if x.patternType == p.patternType && g in Grantees(p) && m in Matrix(p) {
      assert HasRow(rows, firstId, p.patternType, g, m);
      var i :| 0 <= i < |rows| && rows[i] == RowFor(g, m, p.patternType, firstId + i);
      assert rows[i].(id := x.id) == x;
    }
  }
}
