/** The delete and rollback lines for ACL rows, read back by the program's own parser, and their
    effect on a broker (pkg/aclrbac/delete/acls, pkg/aclrbac/delete/deny). */
module Scripts {
  import opened Types
  import opened Shell
  import opened Argv

  datatype Options = Options(bootstrapServers: string, commandConfig: string)

  function ConnectionArgs(o: Options): seq<string> {
    ["--bootstrap-server", o.bootstrapServers] + (if o.commandConfig != "" then ["--command-config", o.commandConfig] else [])
  }

  /** A Subject has no flag of its own. */
  function ResourceArgs(r: Row): seq<string> {
    match r.resourceType
    case Topic => ["--topic", r.resourceName]
    case Group => ["--group", r.resourceName]
    case Cluster => ["--cluster"]
    case TransactionalId => ["--transactional-id", r.resourceName]
    case DelegationToken => ["--delegation-token", r.resourceName]
    case Subject => []
  }

  function WhatArgs(r: Row): seq<string> {
    ["--operation", OpText(r.operation)] + (["--resource-pattern-type", Lower(r.patternType)] + ResourceArgs(r))
  }

  /** The four argument lists, without the binary at the head. */
  function AddArgs(r: Row, o: Options): seq<string> {
    ConnectionArgs(o) + (["--add"] + (["--allow-principal", r.principal] + WhatArgs(r)))
  }

  function RemoveArgs(r: Row, o: Options): seq<string> {
    ConnectionArgs(o) + (["--remove"] + (["--force"] + (["--allow-principal", r.principal] + WhatArgs(r))))
  }

  function DenyAddArgs(r: Row, o: Options): seq<string> {
    ConnectionArgs(o) + (["--add"] + (["--deny-principal", r.principal] + (["--deny-host", r.host] + WhatArgs(r))))
  }

  function DenyRemoveArgs(r: Row, o: Options): seq<string> {
    ConnectionArgs(o) + (["--remove"] + (["--force"] + (["--deny-principal", r.principal] + (["--deny-host", r.host] + WhatArgs(r)))))
  }

  const BINARY: string := "kafka-acls"

  function QuotedAll(args: seq<string>): seq<Piece> {
    if args == [] then [] else [Quoted(args[0])] + QuotedAll(args[1..])
  }

  /** The binary stays bare; every other argument is quoted. */
  function Pieces(args: seq<string>): seq<Piece> { [Bare(BINARY)] + QuotedAll(args) }

  function AddLine(r: Row, o: Options): string { CommandText(Pieces(AddArgs(r, o))) + "\n" }

  function DenyAddLine(r: Row, o: Options): string { CommandText(Pieces(DenyAddArgs(r, o))) + "\n" }

  function RemoveLine(r: Row, o: Options): string {
    "if " + CommandText(Pieces(RemoveArgs(r, o))) + "; then log 'OK acl_id=" + IntText(r.id) +
    "'; else log 'FAIL acl_id=" + IntText(r.id) + "'; exit 1; fi\n"
  }

  // ---------------------------------------------------------------------------
  // The program

  /** Go's strings.Builder. */
  class Builder {
    var text: string

    constructor ()
      ensures text == ""
    {
      text := "";
    }

    method Write(s: string)
      modifies this
      ensures text == old(text) + s
    {
      text := text + s;
    }
  }

  lemma {:induction false} JoinIsCommandText(ps: seq<Piece>, texts: seq<string>)
    requires |texts| == |ps| && forall i :: 0 <= i < |ps| ==> texts[i] == PieceText(ps[i])
    ensures Join(texts, " ") == CommandText(ps)
  {
    if |ps| > 1 { JoinIsCommandText(ps[1..], texts[1..]); }
  }

  lemma {:induction false} QuotedAllAt(args: seq<string>)
    ensures |QuotedAll(args)| == |args| && forall i :: 0 <= i < |args| ==> QuotedAll(args)[i] == Quoted(args[i])
  {
    if args != [] { QuotedAllAt(args[1..]); }
  }

  lemma PiecesAt(args: seq<string>)
    requires args != [] && args[0] == BINARY
    ensures |Pieces(args[1..])| == |args|
    ensures forall j :: 0 <= j < |args| ==> PieceText(Pieces(args[1..])[j]) == if j == 0 then args[0] else Quote(args[j])
  {
    hide QuotedAll, Quote;
    QuotedAllAt(args[1..]);
    var ps := Pieces(args[1..]);
    forall j | 0 <= j < |args| ensures PieceText(ps[j]) == if j == 0 then args[0] else Quote(args[j]) {
      assert ps[j] == if j == 0 then Bare(BINARY) else Quoted(args[1..][j - 1]);
    }
  }

  /** Quotes all but the binary and joins with blanks. */
  method QuoteArgs(args: seq<string>) returns (line: string)
    requires args != [] && args[0] == BINARY
    ensures line == CommandText(Pieces(args[1..]))
  {
    var quoted: seq<string> := [];
    for i := 0 to |args|
      invariant |quoted| == i && forall j :: 0 <= j < i ==> quoted[j] == if j == 0 then args[0] else Quote(args[j])
    {
      if i == 0 {
        quoted := quoted + [args[0]];
      } else {
        quoted := quoted + [Quote(args[i])];
      }
    }
    PiecesAt(args);
    hide *;
    JoinIsCommandText(Pieces(args[1..]), quoted);
    line := Join(quoted, " ");
  }

  method WriteAdd(b: Builder, r: Row, o: Options)
    modifies b
    ensures b.text == old(b.text) + AddLine(r, o)
  {
    var args := [BINARY, "--bootstrap-server", o.bootstrapServers];
    if o.commandConfig != "" {
      args := args + ["--command-config", o.commandConfig];
    }
    args := args + ["--add", "--allow-principal", r.principal, "--operation", OpText(r.operation),
                    "--resource-pattern-type", Lower(r.patternType)];
    args := args + ResourceArgs(r);
    assert args[1..] == AddArgs(r, o);
    var line := QuoteArgs(args);
    b.Write(line + "\n");
  }

  method WriteRemove(b: Builder, r: Row, o: Options)
    modifies b
    ensures b.text == old(b.text) + RemoveLine(r, o)
  {
    var args := [BINARY, "--bootstrap-server", o.bootstrapServers];
    if o.commandConfig != "" {
      args := args + ["--command-config", o.commandConfig];
    }
    args := args + ["--remove", "--force", "--allow-principal", r.principal, "--operation", OpText(r.operation),
                    "--resource-pattern-type", Lower(r.patternType)];
    args := args + ResourceArgs(r);
    assert args[1..] == RemoveArgs(r, o);
    var line := QuoteArgs(args);
    b.Write("if " + line + "; then log 'OK acl_id=" + IntText(r.id) +
            "'; else log 'FAIL acl_id=" + IntText(r.id) + "'; exit 1; fi\n");
  }

  function AddText(rows: seq<Row>, o: Options): string {
    if rows == [] then "" else AddLine(rows[0], o) + AddText(rows[1..], o)
  }

  function RemoveText(rows: seq<Row>, o: Options): string {
    if rows == [] then "" else RemoveLine(rows[0], o) + RemoveText(rows[1..], o)
  }

  function DenyAddText(rows: seq<Row>, o: Options): string {
    if rows == [] then "" else DenyAddLine(rows[0], o) + DenyAddText(rows[1..], o)
  }

  /** The rows' part of rollback.sh. */
  method WriteRollback(b: Builder, rows: seq<Row>, o: Options)
    modifies b
    ensures b.text == old(b.text) + AddText(rows, o)
  {
    hide AddLine;
    for i := 0 to |rows|
      invariant b.text + AddText(rows[i..], o) == old(b.text) + AddText(rows, o)
    {
      assert rows[i..][1..] == rows[i + 1..];
      WriteAdd(b, rows[i], o);
    }
  }

  /** The rows' part of delete-acls.sh. */
  method WriteScript(b: Builder, rows: seq<Row>, o: Options)
    modifies b
    ensures b.text == old(b.text) + RemoveText(rows, o)
  {
    hide RemoveLine;
    for i := 0 to |rows|
      invariant b.text + RemoveText(rows[i..], o) == old(b.text) + RemoveText(rows, o)
    {
      assert rows[i..][1..] == rows[i + 1..];
      WriteRemove(b, rows[i], o);
    }
  }

  /** One turn of the loop of the deny rollback. */
  method WriteDenyAdd(b: Builder, r: Row, o: Options)
    modifies b
    ensures b.text == old(b.text) + DenyAddLine(r, o)
  {
    var args := [BINARY, "--bootstrap-server", o.bootstrapServers];
    if o.commandConfig != "" {
      args := args + ["--command-config", o.commandConfig];
    }
    args := args + ["--add", "--deny-principal", r.principal, "--deny-host", r.host, "--operation", OpText(r.operation),
                    "--resource-pattern-type", Lower(r.patternType)];
    args := args + ResourceArgs(r);
    assert args[1..] == DenyAddArgs(r, o);
    var line := QuoteArgs(args);
    b.Write(line + "\n");
  }

  /** The rows' part of rollback-deny.sh. */
  method WriteDenyRollback(b: Builder, rows: seq<Row>, o: Options)
    modifies b
    ensures b.text == old(b.text) + DenyAddText(rows, o)
  {
    hide DenyAddLine;
    for i := 0 to |rows|
      invariant b.text + DenyAddText(rows[i..], o) == old(b.text) + DenyAddText(rows, o)
    {
      assert rows[i..][1..] == rows[i + 1..];
      WriteDenyAdd(b, rows[i], o);
    }
  }
}
