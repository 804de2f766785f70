/** Whole scripts, and their effect on a broker's ACL store. */
module Broker {
  import opened Types
  import opened Shell
  import opened Argv
  import opened Scripts
  import opened RoundTrip

  // ---------------------------------------------------------------------------
  // Whole scripts

  function AddCommands(rows: seq<Row>, o: Options): seq<seq<string>> {
    if rows == [] then [] else [[BINARY] + AddArgs(rows[0], o)] + AddCommands(rows[1..], o)
  }

  function DenyAddCommands(rows: seq<Row>, o: Options): seq<seq<string>> {
    if rows == [] then [] else [[BINARY] + DenyAddArgs(rows[0], o)] + DenyAddCommands(rows[1..], o)
  }

  /** The commands around one removal: run it, log the outcome, stop on failure. */
  function RemoveCommandsOf(r: Row, o: Options): seq<seq<string>> {
    [["if", BINARY] + RemoveArgs(r, o), ["then", "log", "OK acl_id=" + IntText(r.id)],
     ["else", "log", "FAIL acl_id=" + IntText(r.id)], ["exit", "1"], ["fi"]]
  }

  function RemoveCommands(rows: seq<Row>, o: Options): seq<seq<string>> {
    if rows == [] then [] else RemoveCommandsOf(rows[0], o) + RemoveCommands(rows[1..], o)
  }

  lemma {:induction false} AddTextCommands(rows: seq<Row>, o: Options)
    ensures ScriptCommands(AddText(rows, o)) == Some(AddCommands(rows, o))
  {
    if rows == [] {
      EmptyScript();
    } else {
      AddTextCommands(rows[1..], o);
      LineCommand(AddArgs(rows[0], o), AddText(rows[1..], o));
    }
  }

  lemma {:induction false} DenyAddTextCommands(rows: seq<Row>, o: Options)
    ensures ScriptCommands(DenyAddText(rows, o)) == Some(DenyAddCommands(rows, o))
  {
    if rows == [] {
      EmptyScript();
    } else {
      DenyAddTextCommands(rows[1..], o);
      LineCommand(DenyAddArgs(rows[0], o), DenyAddText(rows[1..], o));
    }
  }

  lemma IntTextUnquoted(n: int)
    ensures '\'' !in IntText(n)
  {
    NatTextDigits(if n < 0 then -n else n);
  }

  lemma QuotedId(prefix: string, n: int)
    requires '\'' !in prefix && prefix != ""
    ensures Quote(prefix + IntText(n)) == "'" + prefix + IntText(n) + "'"
  {
    IntTextUnquoted(n);
    EscapePlain(prefix + IntText(n));
  }

  /** A command of bare words, with the blank the script puts before it. */
  lemma NextCommand(ps: seq<Piece>, end: char, rest: string)
    requires ps != [] && IsEnd(end) && forall p :: p in ps ==> WellFormed(p)
    requires ScriptCommands(rest).Some?
    ensures ScriptCommands(" " + CommandText(ps) + [end] + rest) == Some([Texts(ps)] + ScriptCommands(rest).value)
  {
    FirstCommand(ps, end, rest);
    LeadingBlank(CommandText(ps) + [end] + rest);
    assert " " + CommandText(ps) + [end] + rest == " " + (CommandText(ps) + [end] + rest);
  }

  function LogPieces(word: string, prefix: string, n: int): seq<Piece> {
    [Bare(word), Bare("log"), Quoted(prefix + IntText(n))]
  }

  lemma ThreeWords(a: Piece, b: Piece, c: Piece)
    ensures CommandText([a, b, c]) == PieceText(a) + " " + (PieceText(b) + " " + PieceText(c))
    ensures Texts([a, b, c]) == [a.text, b.text, c.text]
  {
    assert [a, b, c][1..] == [b, c] && [b, c][1..] == [c];
    hide PieceText;
    assert CommandText([b, c]) == PieceText(b) + " " + CommandText([c]);
    assert Texts([c]) == [c.text] + Texts([]) && Texts([b, c]) == [b.text] + Texts([c]);
  }

  lemma LogText(word: string, prefix: string, n: int)
    requires '\'' !in prefix && prefix != ""
    ensures CommandText(LogPieces(word, prefix, n)) == word + " " + ("log" + " " + ("'" + prefix + IntText(n) + "'"))
    ensures Texts(LogPieces(word, prefix, n)) == [word, "log", prefix + IntText(n)]
  {
    QuotedId(prefix, n);
    hide Quote, IntText;
    ThreeWords(Bare(word), Bare("log"), Quoted(prefix + IntText(n)));
  }

  lemma KeywordsWellFormed()
    ensures WellFormed(Bare("if")) && WellFormed(Bare("then")) && WellFormed(Bare("else"))
    ensures WellFormed(Bare("log")) && WellFormed(Bare("exit")) && WellFormed(Bare("fi")) && WellFormed(Bare("1"))
  {
    LettersWellFormed("if");
    LettersWellFormed("then");
    LettersWellFormed("else");
    LettersWellFormed("log");
    LettersWellFormed("exit");
    LettersWellFormed("fi");
    assert WellFormed(Bare("1")) by { DigitWellFormed(); }
  }

  lemma LettersWellFormed(w: string)
    requires w != "" && forall i :: 0 <= i < |w| ==> 'a' <= w[i] <= 'z'
    ensures WellFormed(Bare(w))
  {
  }

  lemma DigitWellFormed()
    ensures WellFormed(Bare("1"))
  {
  }

  lemma ExitAndFi()
    ensures CommandText([Bare("exit"), Bare("1")]) == "exit 1" && CommandText([Bare("fi")]) == "fi"
    ensures Texts([Bare("exit"), Bare("1")]) == ["exit", "1"] && Texts([Bare("fi")]) == ["fi"]
  {
    assert [Bare("exit"), Bare("1")][1..] == [Bare("1")];
    assert Texts([Bare("1")]) == ["1"] + Texts([]);
  }

  /** The end of a removal line: four commands. */
  function RemoveTail(n: int): string {
    " then log 'OK acl_id=" + IntText(n) + "'; else log 'FAIL acl_id=" + IntText(n) + "'; exit 1; fi\n"
  }

  lemma Assoc(a: string, b: string, c: string)
    ensures (a + b) + c == a + (b + c)
  {
  }

  /** The text of one log command and its terminator, regrouped around the id. */
  lemma LogChunk(head: string, word: string, prefix: string, id: string, t: string)
    requires head == " " + word + " " + "log" + " " + "'" + prefix
    ensures " " + (word + " " + ("log" + " " + ("'" + prefix + id + "'"))) + [';'] + t == head + (id + ("';" + t))
  {
    var q, y := "'" + prefix, id + "'";
    Assoc(q, id, "'");
    Assoc("log" + " ", q, y);
    Assoc(word + " ", "log" + " " + q, y);
    Assoc(" ", word + " " + ("log" + " " + q), y);
    assert " " + (word + " " + ("log" + " " + q)) == head;
    Assoc(head + y, [';'], t);
    Assoc(head, y, [';'] + t);
    Assoc(id, "'", [';'] + t);
    Assoc("'", [';'], t);
    assert "'" + [';'] == "';";
  }

  lemma TailText(id: string, rest: string)
    ensures " then log 'OK acl_id=" + id + "'; else log 'FAIL acl_id=" + id + "'; exit 1; fi\n" + rest ==
            " " + ("then" + " " + ("log" + " " + ("'" + "OK acl_id=" + id + "'"))) + [';'] +
            (" " + ("else" + " " + ("log" + " " + ("'" + "FAIL acl_id=" + id + "'"))) + [';'] +
             (" " + "exit 1" + [';'] + (" " + "fi" + ['\n'] + rest)))
  {
    TailLiterals();
    EndText(rest);
    TailRegroup(" then log 'OK acl_id=", " else log 'FAIL acl_id=", "'; else log 'FAIL acl_id=", "'; exit 1; fi\n",
                "OK acl_id=", "FAIL acl_id=", id, rest, " " + "exit 1" + [';'] + (" " + "fi" + ['\n'] + rest));
  }

  lemma TailLiterals()
    ensures " then log 'OK acl_id=" == " " + "then" + " " + "log" + " " + "'" + "OK acl_id="
    ensures " else log 'FAIL acl_id=" == " " + "else" + " " + "log" + " " + "'" + "FAIL acl_id="
    ensures "'; else log 'FAIL acl_id=" == "';" + " else log 'FAIL acl_id="
  {
  }

  lemma TailRegroup(h1: string, h2: string, l2: string, l3: string, ok: string, fail: string, id: string, rest: string, end: string)
    requires h1 == " " + "then" + " " + "log" + " " + "'" + ok
    requires h2 == " " + "else" + " " + "log" + " " + "'" + fail
    requires l2 == "';" + h2 && "';" + end == l3 + rest
    ensures h1 + id + l2 + id + l3 + rest ==
            " " + ("then" + " " + ("log" + " " + ("'" + ok + id + "'"))) + [';'] +
            (" " + ("else" + " " + ("log" + " " + ("'" + fail + id + "'"))) + [';'] + end)
  {
    LogChunk(h2, "else", fail, id, end);
    LogChunk(h1, "then", ok, id, h2 + (id + ("';" + end)));
    Assoc("';", h2, id + ("';" + end));
    RightNested(h1, id, l2, id, l3, rest);
  }

  lemma EndText(rest: string)
    ensures "';" + (" " + "exit 1" + [';'] + (" " + "fi" + ['\n'] + rest)) == "'; exit 1; fi\n" + rest
  {
    assert " " + "fi" + ['\n'] == " fi\n" && " " + "exit 1" + [';'] == " exit 1;";
    Assoc(" exit 1;", " fi\n", rest);
    Assoc("';", " exit 1;" + " fi\n", rest);
    assert "';" + (" exit 1;" + " fi\n") == "'; exit 1; fi\n";
  }

  lemma RightNested(a: string, b: string, c: string, d: string, e: string, f: string)
    ensures a + b + c + d + e + f == a + (b + (c + (d + (e + f))))
  {
    Assoc(a + b + c + d, e, f);
    Assoc(a + b + c, d, e + f);
    Assoc(a + b, c, d + (e + f));
    Assoc(a, b, c + (d + (e + f)));
  }

  /** One logging command. */
  lemma LogCommand(word: string, prefix: string, n: int, rest: string)
    requires WellFormed(Bare(word)) && '\'' !in prefix && prefix != "" && ScriptCommands(rest).Some?
    ensures ScriptCommands(" " + CommandText(LogPieces(word, prefix, n)) + [';'] + rest) ==
            Some([[word, "log", prefix + IntText(n)]] + ScriptCommands(rest).value)
  {
    KeywordsWellFormed();
    LogText(word, prefix, n);
    assert WellFormed(Quoted(prefix + IntText(n)));
    hide CommandText, Texts, ScriptCommands, WellFormed, IntText;
    NextCommand(LogPieces(word, prefix, n), ';', rest);
  }

  lemma ExitCommands(rest: string)
    requires ScriptCommands(rest).Some?
    ensures ScriptCommands(" " + "exit 1" + [';'] + (" " + "fi" + ['\n'] + rest)) ==
            Some([["exit", "1"], ["fi"]] + ScriptCommands(rest).value)
  {
    KeywordsWellFormed();
    ExitAndFi();
    var exit, fi := [Bare("exit"), Bare("1")], [Bare("fi")];
    hide CommandText, Texts, ScriptCommands, WellFormed;
    NextCommand(fi, '\n', rest);
    NextCommand(exit, ';', " " + CommandText(fi) + ['\n'] + rest);
    assert [["exit", "1"]] + ([["fi"]] + ScriptCommands(rest).value) == [["exit", "1"], ["fi"]] + ScriptCommands(rest).value;
  }

  lemma RemoveTailCommands(n: int, rest: string)
    requires ScriptCommands(rest).Some?
    ensures ScriptCommands(RemoveTail(n) + rest) ==
            Some([["then", "log", "OK acl_id=" + IntText(n)], ["else", "log", "FAIL acl_id=" + IntText(n)], ["exit", "1"], ["fi"]]
                 + ScriptCommands(rest).value)
  {
    KeywordsWellFormed();
    hide CommandText, ScriptCommands, WellFormed, IntText;
    TailText(IntText(n), rest);
    LogText("then", "OK acl_id=", n);
    LogText("else", "FAIL acl_id=", n);
    var t2 := " " + "exit 1" + [';'] + (" " + "fi" + ['\n'] + rest);
    ExitCommands(rest);
    LogCommand("else", "FAIL acl_id=", n, t2);
    LogCommand("then", "OK acl_id=", n, " " + CommandText(LogPieces("else", "FAIL acl_id=", n)) + [';'] + t2);
    var ok, fail, end := ["then", "log", "OK acl_id=" + IntText(n)], ["else", "log", "FAIL acl_id=" + IntText(n)], [["exit", "1"], ["fi"]];
    AppendThree(ok, fail, end, ScriptCommands(rest).value);
    assert [ok, fail] + end == [ok, fail, ["exit", "1"], ["fi"]];
  }

  lemma AppendThree(a: seq<string>, b: seq<string>, c: seq<seq<string>>, d: seq<seq<string>>)
    ensures [a] + ([b] + (c + d)) == ([a, b] + c) + d
  {
  }

  lemma RemoveLineCommands(r: Row, o: Options, rest: string)
    requires ScriptCommands(rest).Some?
    ensures ScriptCommands(RemoveLine(r, o) + rest) == Some(RemoveCommandsOf(r, o) + ScriptCommands(rest).value)
  {
    var args, tail := RemoveArgs(r, o), RemoveTail(r.id) + rest;
    RemoveTailCommands(r.id, rest);
    IfCommand(args);
    IfPieces(args);
    RemoveLineSplit(r, o, rest);
    hide RemoveArgs, RemoveLine, ScriptCommands, IntText, WellFormed, Pieces, CommandText, Texts, RemoveTail, RemoveCommandsOf;
    FirstCommand([Bare("if")] + Pieces(args), ';', tail);
    RemoveCommandsShape(r, o, ScriptCommands(rest).value);
  }

  lemma RemoveCommandsShape(r: Row, o: Options, more: seq<seq<string>>)
    ensures RemoveCommandsOf(r, o) + more ==
            [["if", BINARY] + RemoveArgs(r, o)] +
            ([["then", "log", "OK acl_id=" + IntText(r.id)], ["else", "log", "FAIL acl_id=" + IntText(r.id)], ["exit", "1"], ["fi"]] + more)
  {
    hide RemoveArgs, IntText;
  }

  lemma RemoveLineSplit(r: Row, o: Options, rest: string)
    ensures RemoveLine(r, o) + rest ==
            "if" + " " + CommandText(Pieces(RemoveArgs(r, o))) + [';'] + (RemoveTail(r.id) + rest)
  {
    hide CommandText, Pieces, RemoveArgs, IntText;
    RemoveLineText(CommandText(Pieces(RemoveArgs(r, o))), IntText(r.id), rest);
  }

  lemma IfPieces(args: seq<string>)
    ensures forall p :: p in [Bare("if")] + Pieces(args) ==> WellFormed(p)
  {
    PiecesLex(args);
    KeywordsWellFormed();
    hide WellFormed, Pieces;
  }

  lemma RemoveLineText(cmd: string, id: string, rest: string)
    ensures "if " + cmd + "; then log 'OK acl_id=" + id + "'; else log 'FAIL acl_id=" + id + "'; exit 1; fi\n" + rest ==
            "if" + " " + cmd + [';'] + (" then log 'OK acl_id=" + id + "'; else log 'FAIL acl_id=" + id + "'; exit 1; fi\n" + rest)
  {
    var l1, l2, l3 := " then log 'OK acl_id=", "'; else log 'FAIL acl_id=", "'; exit 1; fi\n";
    assert "if " == "if" + " " && "; then log 'OK acl_id=" == [';'] + l1;
    var a := "if" + " " + cmd;
    Assoc(a, [';'], l1);
    RightNested(a + [';'] + l1, id, l2, id, l3, rest);
    RightNested(l1, id, l2, id, l3, rest);
    Assoc(a + [';'], l1, id + (l2 + (id + (l3 + rest))));
  }

  lemma IfCommand(args: seq<string>)
    ensures CommandText([Bare("if")] + Pieces(args)) == "if" + " " + CommandText(Pieces(args))
    ensures Texts([Bare("if")] + Pieces(args)) == ["if", BINARY] + args
  {
    PiecesLex(args);
    PiecesNonEmpty(args);
    hide Pieces;
    ConsCommand(Bare("if"), Pieces(args));
    assert ["if"] + ([BINARY] + args) == ["if", BINARY] + args;
  }

  lemma ConsCommand(p: Piece, ps: seq<Piece>)
    requires ps != []
    ensures CommandText([p] + ps) == PieceText(p) + " " + CommandText(ps)
    ensures Texts([p] + ps) == [p.text] + Texts(ps)
  {
    assert ([p] + ps)[1..] == ps;
  }

  lemma PiecesNonEmpty(args: seq<string>)
    ensures |Pieces(args)| >= 1
  {
  }

  lemma {:induction false} RemoveTextCommands(rows: seq<Row>, o: Options)
    ensures ScriptCommands(RemoveText(rows, o)) == Some(RemoveCommands(rows, o))
  {
    if rows == [] {
      EmptyScript();
    } else {
      RemoveTextCommands(rows[1..], o);
      RemoveLineCommands(rows[0], o, RemoveText(rows[1..], o));
    }
  }

  /** Rows with their ids replaced by consecutive ones. */
  function Renumbered(rows: seq<Row>, id: int): seq<Row> {
    if rows == [] then [] else [rows[0].(id := id)] + Renumbered(rows[1..], id + 1)
  }

  /** A whole rollback script, read back, is exactly its rows in order. */
  lemma RollbackScriptRoundTrip(rows: seq<Row>, o: Options, id: int)
    requires forall r :: r in rows ==> KnownRow(r) && AllowExpressible(r)
    ensures ReadScript(AddText(rows, o), id) == Some(Renumbered(rows, id))
  {
    AddTextCommands(rows, o);
    AddCommandsRows(rows, o, id);
  }

  /** A command that adds one row puts it before the rows of the rest. */
  lemma FirstOfCommands(args: seq<string>, p: Parsed, r: Row, rest: seq<seq<string>>, more: seq<Row>, id: int)
    requires ParsedArgv([BINARY] + args) == Ok(p) && p.subAction == "--add" && Expanded(p, id) == [r]
    requires RowsOfCommands(rest, id + 1) == Some(more)
    ensures RowsOfCommands([[BINARY] + args] + rest, id) == Some([r] + more)
  {
    hide Expanded, ParsedArgv;
    var cmds := [[BINARY] + args] + rest;
    assert cmds[0] == [BINARY] + args && cmds[1..] == rest;
  }

  lemma AddCommandRow(r: Row, o: Options, rest: seq<seq<string>>, more: seq<Row>, id: int)
    requires KnownRow(r) && AllowExpressible(r) && RowsOfCommands(rest, id + 1) == Some(more)
    ensures RowsOfCommands([[BINARY] + AddArgs(r, o)] + rest, id) == Some([r.(id := id)] + more)
  {
    hide RowsOfCommands, AddArgs, Expanded, ParsedArgv;
    ParseAdd(r, o);
    ExpandAllow(r, id);
    FirstOfCommands(AddArgs(r, o), AllowParsed("--add", r), r.(id := id), rest, more, id);
  }

  lemma DenyAddCommandRow(r: Row, o: Options, rest: seq<seq<string>>, more: seq<Row>, id: int)
    requires KnownRow(r) && DenyExpressible(r) && RowsOfCommands(rest, id + 1) == Some(more)
    ensures RowsOfCommands([[BINARY] + DenyAddArgs(r, o)] + rest, id) == Some([r.(id := id)] + more)
  {
    hide RowsOfCommands, DenyAddArgs, Expanded, ParsedArgv;
    ParseDenyAdd(r, o);
    ExpandDeny(r, id);
    FirstOfCommands(DenyAddArgs(r, o), DenyParsed("--add", r), r.(id := id), rest, more, id);
  }

  lemma {:induction false} AddCommandsRows(rows: seq<Row>, o: Options, id: int)
    requires forall r :: r in rows ==> KnownRow(r) && AllowExpressible(r)
    ensures RowsOfCommands(AddCommands(rows, o), id) == Some(Renumbered(rows, id))
  {
    if rows != [] {
      hide RowsOfCommands, AddArgs, KnownRow, AllowExpressible;
      AddCommandsRows(rows[1..], o, id + 1);
      AddCommandRow(rows[0], o, AddCommands(rows[1..], o), Renumbered(rows[1..], id + 1), id);
    }
  }

  lemma DenyRollbackScriptRoundTrip(rows: seq<Row>, o: Options, id: int)
    requires forall r :: r in rows ==> KnownRow(r) && DenyExpressible(r)
    ensures ReadScript(DenyAddText(rows, o), id) == Some(Renumbered(rows, id))
  {
    DenyAddTextCommands(rows, o);
    DenyAddCommandsRows(rows, o, id);
  }

  lemma {:induction false} DenyAddCommandsRows(rows: seq<Row>, o: Options, id: int)
    requires forall r :: r in rows ==> KnownRow(r) && DenyExpressible(r)
    ensures RowsOfCommands(DenyAddCommands(rows, o), id) == Some(Renumbered(rows, id))
  {
    if rows != [] {
      hide RowsOfCommands, DenyAddArgs, KnownRow, DenyExpressible;
      DenyAddCommandsRows(rows[1..], o, id + 1);
      DenyAddCommandRow(rows[0], o, DenyAddCommands(rows[1..], o), Renumbered(rows[1..], id + 1), id);
    }
  }

  // ---------------------------------------------------------------------------
  // The broker

  /** An ACL as the broker stores it: a row without its id. */
  datatype Acl = Acl(
    principal: string, host: string, operation: Operation, pattern: Pattern, permission: Permission)

  function AclOf(r: Row): Acl { Acl(r.principal, r.host, r.operation, PatternOf(r), r.permission) }

  function AclsOf(rows: seq<Row>): set<Acl> { set r | r in rows :: AclOf(r) }

  /** The ACLs an invocation names, whichever way it acts on them. */
  function NamedBy(p: Parsed): set<Acl> { AclsOf(Expanded(p.(subAction := "--add"), 0)) }

  /** What a `kafka-acls` invocation does when it works: a removal matches an ACL exactly, host
      included, the host of a filter being `*` by default. */
  function Effect(argv: seq<string>, store: set<Acl>): set<Acl> {
    match ParsedArgv(argv)
    case Err(_) => store
    case Ok(p) =>
      if p.subAction == "--add" then store + NamedBy(p)
      else if p.subAction == "--remove" then store - NamedBy(p)
      else store
  }

  /** A script being run under `set -e`: the broker's store, how many invocations there were, inside an
      `if` whether its condition held, whether the commands at hand are run, and whether it has ended. */
  datatype Machine = Machine(store: set<Acl>, calls: nat, cond: Option<bool>, active: bool, exited: bool)

  function Idle(store: set<Acl>, calls: nat): Machine { Machine(store, calls, None, true, false) }

  /** A simple command and whether it succeeded. `works` says which invocations of `kafka-acls` do; one
      that fails changes nothing. Only `kafka-acls` acts on the store. */
  function Simple(m: Machine, argv: seq<string>, works: nat -> bool): (Machine, bool) {
    if argv == [] then (m, true)
    else if argv[0] == "exit" then (m.(exited := true), true)
    else if argv[0] != BINARY then (m, true)
    else if works(m.calls) then (m.(calls := m.calls + 1, store := Effect(argv, m.store)), true)
    else (m.(calls := m.calls + 1), false)
  }

  /** A command outside a condition ends the script when it fails. */
  function Straight(m: Machine, argv: seq<string>, works: nat -> bool): Machine {
    if !m.active then m else
      var (after, ok) := Simple(m, argv, works);
      if ok then after else after.(exited := true)
  }

  function Step(m: Machine, cmd: seq<string>, works: nat -> bool): Machine {
    if m.exited || cmd == [] then m
    else if cmd[0] == "if" then
      var (after, ok) := Simple(m, cmd[1..], works);
      after.(cond := Some(ok), active := false)
    else if cmd[0] == "then" then Straight(m.(active := m.cond == Some(true)), cmd[1..], works)
    else if cmd[0] == "else" then Straight(m.(active := m.cond == Some(false)), cmd[1..], works)
    else if cmd[0] == "fi" then m.(cond := None, active := true)
    else Straight(m, cmd, works)
  }

  function Execute(cmds: seq<seq<string>>, works: nat -> bool, m: Machine): Machine {
    if cmds == [] then m else Execute(cmds[1..], works, Step(m, cmds[0], works))
  }

  /** The store a script leaves. */
  function RunScript(text: string, works: nat -> bool, store: set<Acl>): Option<set<Acl>> {
    match ScriptCommands(text) case None => None case Some(cmds) => Some(Execute(cmds, works, Idle(store, 0)).store)
  }

  function Always(call: nat): bool { true }

  /** Of `n` invocations from number `from` on, the first `i` work and the next one, if any, fails. */
  ghost predicate FirstFailure(works: nat -> bool, from: nat, i: nat, n: nat) {
    i <= n && (forall j: nat :: from <= j < from + i ==> works(j)) && (i < n ==> !works(from + i))
  }

  lemma AclsOfOne(r: Row)
    ensures AclsOf([r]) == {AclOf(r)}
  {
    assert r in [r];
  }

  lemma AclsOfCons(rows: seq<Row>)
    requires rows != []
    ensures AclsOf(rows) == {AclOf(rows[0])} + AclsOf(rows[1..])
  {
  }

  lemma BinaryIsNoKeyword()
    ensures BINARY !in {"if", "then", "else", "fi", "exit"} && "--add" != "--remove"
  {
    assert |BINARY| == 10;
  }

  lemma EffectOfParsed(args: seq<string>, p: Parsed, store: set<Acl>)
    requires ParsedArgv([BINARY] + args) == Ok(p)
    ensures p.subAction == "--add" ==> Effect([BINARY] + args, store) == store + NamedBy(p)
    ensures p.subAction == "--remove" ==> Effect([BINARY] + args, store) == store - NamedBy(p)
  {
    hide ParsedArgv, NamedBy;
    BinaryIsNoKeyword();
  }

  lemma NamedByAllow(sub: string, r: Row)
    requires KnownRow(r) && AllowExpressible(r)
    ensures NamedBy(AllowParsed(sub, r)) == {AclOf(r)} && AllowParsed(sub, r).subAction == sub
  {
    ExpandAllow(r, 0);
    hide Expanded, AclsOf, AllowExpressible;
    assert AllowParsed(sub, r).(subAction := "--add") == AllowParsed("--add", r);
    AclsOfOne(r.(id := 0));
  }

  lemma NamedByDeny(sub: string, r: Row)
    requires KnownRow(r) && DenyExpressible(r)
    ensures NamedBy(DenyParsed(sub, r)) == {AclOf(r)} && DenyParsed(sub, r).subAction == sub
  {
    ExpandDeny(r, 0);
    hide Expanded, AclsOf, DenyExpressible;
    assert DenyParsed(sub, r).(subAction := "--add") == DenyParsed("--add", r);
    AclsOfOne(r.(id := 0));
  }

  lemma AddEffect(r: Row, o: Options, store: set<Acl>)
    requires KnownRow(r) && AllowExpressible(r)
    ensures Effect([BINARY] + AddArgs(r, o), store) == store + {AclOf(r)}
  {
    hide *;
    ParseAdd(r, o);
    NamedByAllow("--add", r);
    EffectOfParsed(AddArgs(r, o), AllowParsed("--add", r), store);
  }

  lemma RemoveEffect(r: Row, o: Options, store: set<Acl>)
    requires KnownRow(r) && AllowExpressible(r)
    ensures Effect([BINARY] + RemoveArgs(r, o), store) == store - {AclOf(r)}
  {
    hide *;
    ParseRemove(r, o);
    NamedByAllow("--remove", r);
    EffectOfParsed(RemoveArgs(r, o), AllowParsed("--remove", r), store);
  }

  lemma DenyAddEffect(r: Row, o: Options, store: set<Acl>)
    requires KnownRow(r) && DenyExpressible(r)
    ensures Effect([BINARY] + DenyAddArgs(r, o), store) == store + {AclOf(r)}
  {
    hide *;
    ParseDenyAdd(r, o);
    NamedByDeny("--add", r);
    EffectOfParsed(DenyAddArgs(r, o), DenyParsed("--add", r), store);
  }

  /** The list `delete-deny-one` runs removes exactly its row's ACL, host included. */
  lemma DenyRemoveEffect(r: Row, o: Options, store: set<Acl>)
    requires KnownRow(r) && DenyExpressible(r)
    ensures Effect([BINARY] + DenyRemoveArgs(r, o), store) == store - {AclOf(r)}
  {
    hide *;
    ParseDenyRemove(r, o);
    NamedByDeny("--remove", r);
    EffectOfParsed(DenyRemoveArgs(r, o), DenyParsed("--remove", r), store);
  }

  lemma {:induction false} ExitedStays(cmds: seq<seq<string>>, works: nat -> bool, m: Machine)
    requires m.exited
    ensures Execute(cmds, works, m) == m
  {
    hide Straight, Simple;
    if cmds != [] { ExitedStays(cmds[1..], works, m); }
  }

  /** A bare invocation: the script goes on if it works and ends there if not. */
  lemma BareCommand(args: seq<string>, rest: seq<seq<string>>, works: nat -> bool, store: set<Acl>, calls: nat)
    ensures var after := Execute([[BINARY] + args] + rest, works, Idle(store, calls));
            if works(calls) then after == Execute(rest, works, Idle(Effect([BINARY] + args, store), calls + 1))
            else after.store == store
  {
    BinaryIsNoKeyword();
    hide Effect;
    var cmds := [[BINARY] + args] + rest;
    assert cmds[0] == [BINARY] + args && cmds[1..] == rest && cmds[0][0] == BINARY;
    var m := Step(Idle(store, calls), cmds[0], works);
    assert if works(calls) then m == Idle(Effect([BINARY] + args, store), calls + 1) else m.exited && m.store == store;
    if !works(calls) { ExitedStays(rest, works, m); }
  }

  /** The five commands of a removal: if it works its logging does nothing to the store and the script
      goes on, and if not the script ends. */
  lemma RemovalCommands(r: Row, o: Options, rest: seq<seq<string>>, works: nat -> bool, store: set<Acl>, calls: nat)
    ensures var after := Execute(RemoveCommandsOf(r, o) + rest, works, Idle(store, calls));
            if works(calls) then after == Execute(rest, works, Idle(Effect([BINARY] + RemoveArgs(r, o), store), calls + 1))
            else after.store == store
  {
    var c := RemoveCommandsOf(r, o) + rest;
    var m1 := ConditionRuns(RemoveArgs(r, o), works, store, calls);
    var m2, m3 := LogsRun(m1, "OK acl_id=" + IntText(r.id), "FAIL acl_id=" + IntText(r.id), works);
    var m5 := EndRuns(m3, works);
    hide RemoveArgs, IntText, Step, Effect, Simple, Straight;
    assert c[0] == ["if", BINARY] + RemoveArgs(r, o) && c[1] == ["then", "log", "OK acl_id=" + IntText(r.id)];
    assert c[2] == ["else", "log", "FAIL acl_id=" + IntText(r.id)] && c[3] == ["exit", "1"] && c[4] == ["fi"] && c[5..] == rest;
    FiveSteps(c, works, Idle(store, calls));
    if !works(calls) { ExitedStays(rest, works, m5); }
  }

  lemma FiveSteps(c: seq<seq<string>>, works: nat -> bool, m: Machine)
    requires |c| >= 5
    ensures Execute(c, works, m) ==
            Execute(c[5..], works, Step(Step(Step(Step(Step(m, c[0], works), c[1], works), c[2], works), c[3], works), c[4], works))
  {
    hide Step;
    var c1, c2, c3, c4 := c[1..], c[2..], c[3..], c[4..];
    assert c1[1..] == c2 && c2[1..] == c3 && c3[1..] == c4 && c4[1..] == c[5..];
    var m1 := Step(m, c[0], works);
    var m2 := Step(m1, c[1], works);
    var m3 := Step(m2, c[2], works);
    var m4 := Step(m3, c[3], works);
    assert Execute(c, works, m) == Execute(c1, works, m1) && Execute(c1, works, m1) == Execute(c2, works, m2);
    assert Execute(c2, works, m2) == Execute(c3, works, m3) && Execute(c3, works, m3) == Execute(c4, works, m4);
  }

  lemma ConditionRuns(args: seq<string>, works: nat -> bool, store: set<Acl>, calls: nat) returns (m: Machine)
    ensures m == Step(Idle(store, calls), ["if", BINARY] + args, works)
    ensures m == Machine(if works(calls) then Effect([BINARY] + args, store) else store, calls + 1, Some(works(calls)), false, false)
  {
    BinaryIsNoKeyword();
    hide Effect;
    var cmd := ["if", BINARY] + args;
    assert cmd[0] == "if" && cmd[1..] == [BINARY] + args && ([BINARY] + args)[0] == BINARY;
    m := Step(Idle(store, calls), cmd, works);
  }

  lemma LogsRun(m: Machine, ok: string, fail: string, works: nat -> bool) returns (a: Machine, b: Machine)
    requires m.cond.Some? && !m.exited
    ensures a == Step(m, ["then", "log", ok], works) && b == Step(a, ["else", "log", fail], works)
    ensures b == m.(active := !m.cond.value)
  {
    assert |BINARY| == 10 && "log"[0] != "exit"[0];
    assert ["then", "log", ok][1..] == ["log", ok] && ["else", "log", fail][1..] == ["log", fail];
    assert "then"[0] != "if"[0] && "else"[0] != "if"[0] && "then"[0] != "else"[0];
    hide Effect;
    a := Step(m, ["then", "log", ok], works);
    b := Step(a, ["else", "log", fail], works);
  }

  lemma EndRuns(m: Machine, works: nat -> bool) returns (b: Machine)
    requires m.cond.Some? && !m.exited && m.active == !m.cond.value
    ensures b == Step(Step(m, ["exit", "1"], works), ["fi"], works)
    ensures if m.cond.value then b == Idle(m.store, m.calls) else b.exited && b.store == m.store
  {
    assert |"exit"| == 4 && |"fi"| == 2 && |"if"| == 2 && "fi"[0] != "if"[0] && "exit"[1] != "then"[1] && "exit"[1] != "else"[1];
    hide Effect;
    b := Step(Step(m, ["exit", "1"], works), ["fi"], works);
  }

  lemma NextFailure(works: nat -> bool, from: nat, i: nat, n: nat)
    requires FirstFailure(works, from, i, n) && n > 0
    ensures works(from) <==> i > 0
    ensures i > 0 ==> FirstFailure(works, from + 1, i - 1, n - 1)
  {
  }

  /** The first `i` of some rows, one at a time. */
  lemma FirstAcls(rows: seq<Row>, i: nat)
    requires 0 < i <= |rows|
    ensures AclsOf(rows[..i]) == {AclOf(rows[0])} + AclsOf(rows[1..][..i - 1])
  {
    AclsOfCons(rows[..i]);
    assert rows[..i][1..] == rows[1..][..i - 1];
  }

  lemma {:induction false} RunAddCommands(rows: seq<Row>, o: Options, works: nat -> bool, store: set<Acl>, calls: nat, i: nat)
    requires (forall r :: r in rows ==> KnownRow(r) && AllowExpressible(r)) && FirstFailure(works, calls, i, |rows|)
    ensures Execute(AddCommands(rows, o), works, Idle(store, calls)).store == store + AclsOf(rows[..i])
    decreases rows
  {
    hide Execute, Effect, AddArgs, KnownRow, AllowExpressible, AclsOf, FirstFailure;
    if rows == [] {
      NothingToRun(works, store, calls, i, rows);
    } else {
      NextFailure(works, calls, i, |rows|);
      AddEffect(rows[0], o, store);
      BareCommand(AddArgs(rows[0], o), AddCommands(rows[1..], o), works, store, calls);
      if i > 0 {
        RunAddCommands(rows[1..], o, works, store + {AclOf(rows[0])}, calls + 1, i - 1);
        FirstAcls(rows, i);
      } else {
        NoAcls(rows);
      }
    }
  }

  lemma NoAcls(rows: seq<Row>)
    ensures AclsOf(rows[..0]) == {}
  {
  }

  lemma NothingToRun(works: nat -> bool, store: set<Acl>, calls: nat, i: nat, rows: seq<Row>)
    requires FirstFailure(works, calls, i, |rows|) && rows == []
    ensures Execute([], works, Idle(store, calls)).store == store && i == 0 && AclsOf(rows[..i]) == {}
  {
  }

  lemma {:induction false} RunDenyAddCommands(rows: seq<Row>, o: Options, works: nat -> bool, store: set<Acl>, calls: nat, i: nat)
    requires (forall r :: r in rows ==> KnownRow(r) && DenyExpressible(r)) && FirstFailure(works, calls, i, |rows|)
    ensures Execute(DenyAddCommands(rows, o), works, Idle(store, calls)).store == store + AclsOf(rows[..i])
    decreases rows
  {
    hide Execute, Effect, DenyAddArgs, KnownRow, DenyExpressible, AclsOf, FirstFailure;
    if rows == [] {
      NothingToRun(works, store, calls, i, rows);
    } else {
      NextFailure(works, calls, i, |rows|);
      DenyAddEffect(rows[0], o, store);
      BareCommand(DenyAddArgs(rows[0], o), DenyAddCommands(rows[1..], o), works, store, calls);
      if i > 0 {
        RunDenyAddCommands(rows[1..], o, works, store + {AclOf(rows[0])}, calls + 1, i - 1);
        FirstAcls(rows, i);
      } else {
        NoAcls(rows);
      }
    }
  }

  lemma {:induction false} RunRemoveCommands(rows: seq<Row>, o: Options, works: nat -> bool, store: set<Acl>, calls: nat, i: nat)
    requires (forall r :: r in rows ==> KnownRow(r) && AllowExpressible(r)) && FirstFailure(works, calls, i, |rows|)
    ensures Execute(RemoveCommands(rows, o), works, Idle(store, calls)).store == store - AclsOf(rows[..i])
    decreases rows
  {
    hide Execute, Effect, RemoveArgs, RemoveCommandsOf, KnownRow, AllowExpressible, AclsOf, FirstFailure;
    if rows == [] {
      NothingToRun(works, store, calls, i, rows);
    } else {
      NextFailure(works, calls, i, |rows|);
      RemoveEffect(rows[0], o, store);
      RemovalCommands(rows[0], o, RemoveCommands(rows[1..], o), works, store, calls);
      if i > 0 {
        RunRemoveCommands(rows[1..], o, works, store - {AclOf(rows[0])}, calls + 1, i - 1);
        FirstAcls(rows, i);
      } else {
        NoAcls(rows);
      }
    }
  }

  lemma AllWork(n: nat)
    ensures FirstFailure(Always, 0, n, n)
  {
  }

  lemma PutBack(store: set<Acl>, remaining: set<Acl>, some: set<Acl>, all: set<Acl>)
    requires some <= all <= store && store - all <= remaining <= store
    ensures remaining + all == store && remaining + some + all == store
  {
  }

  lemma FirstOfAcls(rows: seq<Row>, i: nat)
    requires i <= |rows|
    ensures AclsOf(rows[..i]) <= AclsOf(rows)
  {
    assert rows == rows[..i] + rows[i..];
  }

  /** When the removal number `i` of delete-acls.sh is the first to fail, exactly the ACLs of the rows
      before it are gone, all of them when none fails; and running the whole rollback.sh restores any
      store that held the ACLs. */
  lemma DeleteThenRollback(rows: seq<Row>, o: Options, works: nat -> bool, store: set<Acl>, i: nat)
    requires (forall r :: r in rows ==> KnownRow(r) && AllowExpressible(r)) && FirstFailure(works, 0, i, |rows|)
    ensures RunScript(RemoveText(rows, o), works, store) == Some(store - AclsOf(rows[..i]))
    ensures AclsOf(rows) <= store ==> RunScript(AddText(rows, o), Always, store - AclsOf(rows[..i])) == Some(store)
  {
    hide Execute, AclsOf, KnownRow, AllowExpressible;
    RemoveTextCommands(rows, o);
    RunRemoveCommands(rows, o, works, store, 0, i);
    AddTextCommands(rows, o);
    AllWork(|rows|);
    FirstOfAcls(rows, i);
    RunAddCommands(rows, o, Always, store - AclsOf(rows[..i]), 0, |rows|);
    assert rows[..|rows|] == rows;
    if AclsOf(rows) <= store { PutBack(store, store - AclsOf(rows[..i]), {}, AclsOf(rows)); }
  }

  /** A rollback that is itself interrupted can be run again. */
  lemma InterruptedRollback(rows: seq<Row>, o: Options, works: nat -> bool, store: set<Acl>, remaining: set<Acl>, i: nat)
    requires (forall r :: r in rows ==> KnownRow(r) && AllowExpressible(r)) && FirstFailure(works, 0, i, |rows|)
    requires AclsOf(rows) <= store && store - AclsOf(rows) <= remaining <= store
    ensures RunScript(AddText(rows, o), works, remaining) == Some(remaining + AclsOf(rows[..i]))
    ensures RunScript(AddText(rows, o), Always, remaining + AclsOf(rows[..i])) == Some(store)
  {
    hide Execute, AclsOf, KnownRow, AllowExpressible;
    AddTextCommands(rows, o);
    RunAddCommands(rows, o, works, remaining, 0, i);
    AllWork(|rows|);
    FirstOfAcls(rows, i);
    RunAddCommands(rows, o, Always, remaining + AclsOf(rows[..i]), 0, |rows|);
    assert rows[..|rows|] == rows;
    PutBack(store, remaining, AclsOf(rows[..i]), AclsOf(rows));
  }

  function DenyRemoveCommands(rows: seq<Row>, o: Options): seq<seq<string>> {
    if rows == [] then [] else [[BINARY] + DenyRemoveArgs(rows[0], o)] + DenyRemoveCommands(rows[1..], o)
  }

  lemma {:induction false} RunDenyRemoveCommands(rows: seq<Row>, o: Options, works: nat -> bool, store: set<Acl>, calls: nat, i: nat)
    requires (forall r :: r in rows ==> KnownRow(r) && DenyExpressible(r)) && FirstFailure(works, calls, i, |rows|)
    ensures Execute(DenyRemoveCommands(rows, o), works, Idle(store, calls)).store == store - AclsOf(rows[..i])
    decreases rows
  {
    hide Execute, Effect, DenyRemoveArgs, KnownRow, DenyExpressible, AclsOf, FirstFailure;
    if rows == [] {
      NothingToRun(works, store, calls, i, rows);
    } else {
      NextFailure(works, calls, i, |rows|);
      DenyRemoveEffect(rows[0], o, store);
      BareCommand(DenyRemoveArgs(rows[0], o), DenyRemoveCommands(rows[1..], o), works, store, calls);
      if i > 0 {
        RunDenyRemoveCommands(rows[1..], o, works, store - {AclOf(rows[0])}, calls + 1, i - 1);
        FirstAcls(rows, i);
      } else {
        NoAcls(rows);
      }
    }
  }

  /** The same for DENY rows of any host: the per-row removals, ended by the first that fails, then
      rollback-deny.sh. */
  lemma DenyDeleteThenRollback(rows: seq<Row>, o: Options, works: nat -> bool, store: set<Acl>, i: nat)
    requires (forall r :: r in rows ==> KnownRow(r) && DenyExpressible(r)) && FirstFailure(works, 0, i, |rows|)
    ensures Execute(DenyRemoveCommands(rows, o), works, Idle(store, 0)).store == store - AclsOf(rows[..i])
    ensures AclsOf(rows) <= store ==> RunScript(DenyAddText(rows, o), Always, store - AclsOf(rows[..i])) == Some(store)
  {
    hide Execute, AclsOf, KnownRow, DenyExpressible;
    RunDenyRemoveCommands(rows, o, works, store, 0, i);
    DenyAddTextCommands(rows, o);
    AllWork(|rows|);
    FirstOfAcls(rows, i);
    RunDenyAddCommands(rows, o, Always, store - AclsOf(rows[..i]), 0, |rows|);
    assert rows[..|rows|] == rows;
    if AclsOf(rows) <= store { PutBack(store, store - AclsOf(rows[..i]), {}, AclsOf(rows)); }
  }
}
