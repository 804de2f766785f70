/** runtime.env: settings written by the generator and read back by the per-ACL helper
    (pkg/aclrbac/delete/common/runtime_env.go). */
module RuntimeEnvFile {
  import opened Types
  import opened Shell
  import opened Argv
  import opened Scripts

  const MIN_INT: int := -0x8000_0000_0000_0000
  const MAX_INT: int := 0x7FFF_FFFF_FFFF_FFFF

  datatype RuntimeEnv = RuntimeEnv(
    bootstrapServers: string, commandConfig: string, mdsUrl: string, mdsUser: string, mdsPasswordFile: string,
    mdsTokenFile: string, mdsCaCert: string, mdsClientCert: string, mdsClientKey: string,
    insecureSkipVerify: bool, maxRetries: int, authToken: string)

  const UNSET: RuntimeEnv := RuntimeEnv("", "", "", "", "", "", "", "", "", false, 0, "")

  datatype Setting =
    | BootstrapServer | CommandConfig | MdsUrl | MdsUser | MdsPasswordFile | MdsTokenFile | MdsCaCert
    | MdsClientCert | MdsClientKey | InsecureSkipVerify | MaxRetries | AuthToken

  function KeyText(s: Setting): string {
    match s
    case BootstrapServer => "BOOTSTRAP_SERVER" case CommandConfig => "COMMAND_CONFIG"
    case MdsUrl => "MDS_URL" case MdsUser => "MDS_USER" case MdsPasswordFile => "MDS_PASSWORD_FILE"
    case MdsTokenFile => "MDS_TOKEN_FILE" case MdsCaCert => "MDS_CA_CERT" case MdsClientCert => "MDS_CLIENT_CERT"
    case MdsClientKey => "MDS_CLIENT_KEY" case InsecureSkipVerify => "MDS_INSECURE_SKIP_VERIFY"
    case MaxRetries => "MDS_MAX_RETRIES" case AuthToken => "RUNTIME_AUTH_TOKEN"
  }

  function SettingOf(k: string): Option<Setting> {
    if k == "BOOTSTRAP_SERVER" then Some(BootstrapServer) else if k == "COMMAND_CONFIG" then Some(CommandConfig)
    else if k == "MDS_URL" then Some(MdsUrl) else if k == "MDS_USER" then Some(MdsUser)
    else if k == "MDS_PASSWORD_FILE" then Some(MdsPasswordFile) else if k == "MDS_TOKEN_FILE" then Some(MdsTokenFile)
    else if k == "MDS_CA_CERT" then Some(MdsCaCert) else if k == "MDS_CLIENT_CERT" then Some(MdsClientCert)
    else if k == "MDS_CLIENT_KEY" then Some(MdsClientKey)
    else if k == "MDS_INSECURE_SKIP_VERIFY" then Some(InsecureSkipVerify)
    else if k == "MDS_MAX_RETRIES" then Some(MaxRetries) else if k == "RUNTIME_AUTH_TOKEN" then Some(AuthToken)
    else None
  }

  /** The ten string settings. */
  function Value(e: RuntimeEnv, s: Setting): string {
    match s
    case BootstrapServer => e.bootstrapServers case CommandConfig => e.commandConfig
    case MdsUrl => e.mdsUrl case MdsUser => e.mdsUser case MdsPasswordFile => e.mdsPasswordFile
    case MdsTokenFile => e.mdsTokenFile case MdsCaCert => e.mdsCaCert case MdsClientCert => e.mdsClientCert
    case MdsClientKey => e.mdsClientKey case AuthToken => e.authToken
    case _ => ""
  }

  // ---------------------------------------------------------------------------
  // Writing

  function KvLine(s: Setting, v: string): string { KeyText(s) + "=" + Quote(v) }

  function BoolText(b: bool): string { if b then "true" else "false" }

  /** Empty strings are not written. */
  function KvLines(e: RuntimeEnv, s: Setting): seq<string> {
    if Value(e, s) == "" then [] else [KvLine(s, Value(e, s))]
  }

  /** The lines in file order; the two scalars are always written. */
  function WrittenLines(e: RuntimeEnv): seq<string> {
    KvLines(e, BootstrapServer) + KvLines(e, CommandConfig) + KvLines(e, MdsUrl) + KvLines(e, MdsUser) +
    KvLines(e, MdsPasswordFile) + KvLines(e, MdsTokenFile) + KvLines(e, MdsCaCert) + KvLines(e, MdsClientCert) +
    KvLines(e, MdsClientKey) + [InsecureLine(e.insecureSkipVerify)] + [RetriesLine(e.maxRetries)] + KvLines(e, AuthToken)
  }

  function InsecureLine(b: bool): string { KeyText(InsecureSkipVerify) + "=" + BoolText(b) }

  function RetriesLine(n: int): string { KeyText(MaxRetries) + "=" + IntText(n) }

  function Terminated(lines: seq<string>): string {
    if lines == [] then "" else lines[0] + "\n" + Terminated(lines[1..])
  }

  lemma {:induction false} TerminatedAppend(a: seq<string>, b: seq<string>)
    ensures Terminated(a + b) == Terminated(a) + Terminated(b)
  {
    if a == [] {
      assert a + b == b;
    } else {
      assert (a + b)[0] == a[0] && (a + b)[1..] == a[1..] + b;
      TerminatedAppend(a[1..], b);
    }
  }

  method WriteKv(b: Builder, e: RuntimeEnv, s: Setting, ghost before: string, ghost done: seq<string>)
    requires b.text == before + Terminated(done)
    modifies b
    ensures b.text == before + Terminated(done + KvLines(e, s))
  {
    hide KeyText, Quote, Value;
    var v := Value(e, s);
    TerminatedAppend(done, KvLines(e, s));
    if v == "" { return; }
    b.Write(KeyText(s) + "=" + Quote(v) + "\n");
    assert KvLines(e, s)[1..] == [];
  }

  method WriteScalar(b: Builder, line: string, ghost before: string, ghost done: seq<string>)
    requires b.text == before + Terminated(done)
    modifies b
    ensures b.text == before + Terminated(done + [line])
  {
    TerminatedAppend(done, [line]);
    assert [line][1..] == [];
    b.Write(line + "\n");
  }

  method WriteRuntimeEnv(b: Builder, e: RuntimeEnv)
    modifies b
    ensures b.text == old(b.text) + Terminated(WrittenLines(e))
  {
    ghost var t := b.text;
    ghost var d: seq<string> := [];
    assert b.text == t + Terminated(d);
    hide KvLines, Terminated;
    WriteKv(b, e, BootstrapServer, t, d);  d := d + KvLines(e, BootstrapServer);
    assert d == KvLines(e, BootstrapServer);
    WriteKv(b, e, CommandConfig, t, d);    d := d + KvLines(e, CommandConfig);
    WriteKv(b, e, MdsUrl, t, d);           d := d + KvLines(e, MdsUrl);
    WriteKv(b, e, MdsUser, t, d);          d := d + KvLines(e, MdsUser);
    WriteKv(b, e, MdsPasswordFile, t, d);  d := d + KvLines(e, MdsPasswordFile);
    WriteKv(b, e, MdsTokenFile, t, d);     d := d + KvLines(e, MdsTokenFile);
    WriteKv(b, e, MdsCaCert, t, d);        d := d + KvLines(e, MdsCaCert);
    WriteKv(b, e, MdsClientCert, t, d);    d := d + KvLines(e, MdsClientCert);
    WriteKv(b, e, MdsClientKey, t, d);     d := d + KvLines(e, MdsClientKey);
    WriteScalar(b, InsecureLine(e.insecureSkipVerify), t, d);  d := d + [InsecureLine(e.insecureSkipVerify)];
    WriteScalar(b, RetriesLine(e.maxRetries), t, d);           d := d + [RetriesLine(e.maxRetries)];
    WriteKv(b, e, AuthToken, t, d);
  }

  // ---------------------------------------------------------------------------
  // Reading

  /** Where a character first occurs, or -1. */
  function IndexOf(s: string, c: char): (i: int)
    ensures -1 <= i < |s|
    ensures i >= 0 ==> s[i] == c && c !in s[..i]
    ensures i == -1 ==> c !in s
  {
    if s == "" then -1
    else if s[0] == c then 0
    else
      var j := IndexOf(s[1..], c);
      assert s == [s[0]] + s[1..];
      if j < 0 then -1 else
        assert s[..j + 1] == [s[0]] + s[1..][..j];
        j + 1
  }

  /** The lines of a text, without their newlines. */
  function RawLines(text: string): seq<string>
    decreases |text|
  {
    if text == "" then []
    else
      var i := IndexOf(text, '\n');
      if i < 0 then [text] else [text[..i]] + RawLines(text[i + 1..])
  }

  function DropCr(line: string): string {
    if line != "" && line[|line| - 1] == '\r' then line[..|line| - 1] else line
  }

  predicate IsSpace(c: char) { c == ' ' || c == '\t' || c == '\n' || c == '\r' || c == '\U{000B}' || c == '\U{000C}' }

  function TrimLeft(s: string): string { if s != "" && IsSpace(s[0]) then TrimLeft(s[1..]) else s }

  function TrimRight(s: string): string {
    if s != "" && IsSpace(s[|s| - 1]) then TrimRight(s[..|s| - 1]) else s
  }

  function TrimSpace(s: string): string { TrimRight(TrimLeft(s)) }

  /** Key and value of a line; a value in single quotes is unquoted. */
  function SplitKv(line: string): Option<(string, string)> {
    var i := IndexOf(line, '=');
    if i <= 0 then None
    else
      var v := line[i + 1..];
      Some((line[..i],
            if |v| >= 2 && v[0] == '\'' && v[|v| - 1] == '\'' then ReplaceAll(v[1..|v| - 1], ESCAPED_QUOTE, QUOTE) else v))
  }

  predicate ParseBool(v: string) {
    var t := Lower(TrimSpace(v));
    t == "true" || t == "1" || t == "yes"
  }

  predicate AllSpace(s: string) { forall c | c in s :: IsSpace(c) }

  lemma {:induction false} TrimLeftPart(s: string) returns (left: string)
    ensures AllSpace(left) && s == left + TrimLeft(s)
  {
    left := "";
    if s != "" && IsSpace(s[0]) {
      var rest := TrimLeftPart(s[1..]);
      left := [s[0]] + rest;
      assert s == [s[0]] + s[1..];
    }
  }

  lemma {:induction false} TrimRightPart(s: string) returns (right: string)
    ensures AllSpace(right) && s == TrimRight(s) + right
  {
    right := "";
    if s != "" && IsSpace(s[|s| - 1]) {
      var rest := TrimRightPart(s[..|s| - 1]);
      right := rest + [s[|s| - 1]];
      assert s == s[..|s| - 1] + [s[|s| - 1]];
    }
  }

  lemma {:induction false} TrimLeftOf(left: string, s: string)
    requires AllSpace(left) && s != "" && !IsSpace(s[0])
    ensures TrimLeft(left + s) == s
  {
    if left != "" {
      assert (left + s)[1..] == left[1..] + s;
      TrimLeftOf(left[1..], s);
    } else {
      assert left + s == s;
    }
  }

  lemma {:induction false} TrimRightOf(s: string, right: string)
    requires AllSpace(right) && s != "" && !IsSpace(s[|s| - 1])
    ensures TrimRight(s + right) == s
  {
    if right != "" {
      assert (s + right)[..|s + right| - 1] == s + right[..|right| - 1];
      TrimRightOf(s, right[..|right| - 1]);
    } else {
      assert s + right == s;
    }
  }

  /** A word with spaces around it. */
  ghost predicate SpacedWord(v: string, word: string) {
    exists left, right :: AllSpace(left) && AllSpace(right) && v == left + word + right
  }

  lemma TrimOf(left: string, word: string, right: string)
    requires AllSpace(left) && AllSpace(right)
    requires word != "" && !IsSpace(word[0]) && !IsSpace(word[|word| - 1])
    ensures TrimSpace(left + word + right) == word
  {
    hide IsSpace, AllSpace, TrimLeft, TrimRight;
    assert left + word + right == left + (word + right) && (word + right)[0] == word[0];
    TrimLeftOf(left, word + right);
    TrimRightOf(word, right);
  }

  lemma TrimIff(v: string, word: string)
    requires word != "" && !IsSpace(word[0]) && !IsSpace(word[|word| - 1])
    ensures TrimSpace(v) == word <==> SpacedWord(v, word)
  {
    hide IsSpace, AllSpace, TrimLeft, TrimRight;
    if TrimSpace(v) == word {
      var left := TrimLeftPart(v);
      var right := TrimRightPart(TrimLeft(v));
      assert v == left + word + right;
    }
    if l, r :| AllSpace(l) && AllSpace(r) && v == l + word + r { TrimOf(l, word, r); }
  }

  /** A flag is on iff its text is "true", "1" or "yes" in any case, with spaces around it or not. */
  lemma FlagTextIff(v: string)
    ensures ParseBool(v) <==> exists word :: SpacedWord(v, word) && Lower(word) in {"true", "1", "yes"}
  {
    hide TrimSpace, SpacedWord;
    forall word | Lower(word) in {"true", "1", "yes"} ensures TrimSpace(v) == word <==> SpacedWord(v, word) {
      assert |word| == |Lower(word)|;
      assert Lower(word)[0] == LowerChar(word[0]) && Lower(word)[|word| - 1] == LowerChar(word[|word| - 1]);
      TrimIff(v, word);
    }
  }

  function DigitValue(c: char): nat
    requires IsDigit(c)
  {
    (c - '0') as int
  }

  function ParseNat(s: string): Option<nat> {
    if s == "" then None
    else if !IsDigit(s[|s| - 1]) then None
    else if |s| == 1 then Some(DigitValue(s[0]))
    else match ParseNat(s[..|s| - 1])
      case None => None
      case Some(n) => Some(10 * n + DigitValue(s[|s| - 1]))
  }

  /** `strconv.Atoi`: an optional sign, digits, and the range of a 64-bit integer. */
  function ParseInt(s: string): Option<int> {
    var n := if s != "" && (s[0] == '-' || s[0] == '+') then ParseNat(s[1..]) else ParseNat(s);
    match n
    case None => None
    case Some(k) =>
      var m: int := k;
      var v := if s[0] == '-' then -m else m;
      if MIN_INT <= v <= MAX_INT then Some(v) else None
  }

  function Assign(e: RuntimeEnv, s: Setting, v: string): RuntimeEnv {
    match s
    case BootstrapServer => e.(bootstrapServers := v)
    case CommandConfig => e.(commandConfig := v)
    case MdsUrl => e.(mdsUrl := v)
    case MdsUser => e.(mdsUser := v)
    case MdsPasswordFile => e.(mdsPasswordFile := v)
    case MdsTokenFile => e.(mdsTokenFile := v)
    case MdsCaCert => e.(mdsCaCert := v)
    case MdsClientCert => e.(mdsClientCert := v)
    case MdsClientKey => e.(mdsClientKey := v)
    case InsecureSkipVerify => e.(insecureSkipVerify := ParseBool(v))
    case MaxRetries =>
      (match ParseInt(TrimSpace(v)) case None => e case Some(n) => e.(maxRetries := n))
    case AuthToken => e.(authToken := v)
  }

  function ReadLine(raw: string, e: RuntimeEnv): RuntimeEnv {
    var line := TrimSpace(DropCr(raw));
    if line == "" || line[0] == '#' then e
    else match SplitKv(line)
      case None => e
      case Some((k, v)) =>
        match SettingOf(k)
        case None => e
        case Some(s) => Assign(e, s, v)
  }

  /** The scanner's buffer holds 64 KiB, the newline included. */
  const MAX_LINE: nat := 65535

  /** The record read, or the scanner's error on a line that does not fit. */
  function ReadLines(lines: seq<string>, e: RuntimeEnv): Option<RuntimeEnv> {
    if lines == [] then Some(e)
    else if |lines[0]| > MAX_LINE then None
    else ReadLines(lines[1..], ReadLine(lines[0], e))
  }

  function ReadText(text: string): Option<RuntimeEnv> { ReadLines(RawLines(text), UNSET) }

  method ReadRuntimeEnv(text: string) returns (r: Option<RuntimeEnv>)
    ensures r == ReadText(text)
  {
    hide ReadLine;
    var env := UNSET;
    var lines := RawLines(text);
    for i := 0 to |lines|
      invariant ReadLines(lines[i..], env) == ReadText(text)
    {
      assert lines[i..][1..] == lines[i + 1..];
      if |lines[i]| > MAX_LINE { return None; }
      env := ReadLine(lines[i], env);
    }
    return Some(env);
  }

  // ---------------------------------------------------------------------------
  // Round trip

  lemma SettingOfKeyText(s: Setting)
    ensures SettingOf(KeyText(s)) == Some(s)
  {
  }

  /** Keys are made of capitals and underscores. */
  predicate KeyChar(c: char) { 'A' <= c <= 'Z' || c == '_' }

  predicate KeyWord(k: string) { k != "" && 'A' <= k[0] <= 'Z' && forall i :: 0 <= i < |k| ==> KeyChar(k[i]) }

  lemma KeyTextChars(s: Setting)
    ensures KeyWord(KeyText(s))
  {
    hide KeyText;
    match s {
      case BootstrapServer | CommandConfig | MdsUrl | MdsUser | MdsPasswordFile | MdsTokenFile => FirstKeyTexts(s);
      case _ => OtherKeyTexts(s);
    }
  }

  lemma FirstKeyTexts(s: Setting)
    requires s in {BootstrapServer, CommandConfig, MdsUrl, MdsUser, MdsPasswordFile, MdsTokenFile}
    ensures KeyWord(KeyText(s))
  {
  }

  lemma OtherKeyTexts(s: Setting)
    requires s in {MdsCaCert, MdsClientCert, MdsClientKey, InsecureSkipVerify, MaxRetries, AuthToken}
    ensures KeyWord(KeyText(s))
  {
  }

  lemma TrimNothing(s: string)
    requires s != "" && !IsSpace(s[0]) && !IsSpace(s[|s| - 1])
    ensures TrimSpace(s) == s && DropCr(s) == s
  {
  }

  lemma IndexOfKey(k: string, rest: string)
    requires '=' !in k
    ensures IndexOf(k + "=" + rest, '=') == |k|
  {
    var s := k + "=" + rest;
    assert s[|k|] == '=';
    assert forall i :: 0 <= i < |k| ==> s[i] == k[i];
    assert forall i :: |k| < i < |s| ==> s[..i][|k|] == '=';
  }

  /** A line `KEY=value` is split at its first `=`. */
  lemma NoEqualsIn(k: string)
    requires KeyWord(k)
    ensures '=' !in k
  {
  }

  lemma SplitKey(s: Setting, rest: string)
    ensures SplitKv(KeyText(s) + "=" + rest) ==
            Some((KeyText(s), if |rest| >= 2 && rest[0] == '\'' && rest[|rest| - 1] == '\''
                              then ReplaceAll(rest[1..|rest| - 1], ESCAPED_QUOTE, QUOTE) else rest))
  {
    KeyTextChars(s);
    hide KeyText, IndexOf, ReplaceAll;
    var k := KeyText(s);
    NoEqualsIn(k);
    IndexOfKey(k, rest);
    assert (k + "=" + rest)[..|k|] == k && (k + "=" + rest)[|k| + 1..] == rest;
  }

  lemma QuoteShape(v: string)
    ensures |Quote(v)| >= 2 && Quote(v)[0] == '\'' && Quote(v)[|Quote(v)| - 1] == '\''
    ensures Quote(v)[1..|Quote(v)| - 1] == Escape(v)
  {
  }

  /** Unquoting undoes quoting on every written line, and agrees with the shell: quote removal turns
      the line into the one word `KEY=value`. */
  lemma SplitKvAgreesWithShell(s: Setting, v: string)
    ensures SplitKv(KvLine(s, v)) == Some((KeyText(s), v))
    ensures Lex(KvLine(s, v), Between) == Some([Word(KeyText(s) + "=" + v)])
  {
    SplitKey(s, Quote(v));
    QuoteShape(v);
    UnescapeEscape(v);
    KeyIsOrdinary(s);
    var k := KeyText(s) + "=";
    hide KeyText, Quote, ReplaceAll, SplitKv;
    LexBare(k, Quote(v), Between);
    LexQuote(v, "", InWord(k));
    assert Quote(v) + "" == Quote(v) && "" + k == k;
  }

  lemma KeyIsOrdinary(s: Setting)
    ensures forall c :: c in KeyText(s) + "=" ==> IsOrdinary(c)
  {
    KeyTextChars(s);
    hide KeyText;
    forall c | KeyChar(c) || c == '=' ensures IsOrdinary(c) {}
    var k := KeyText(s);
    forall c | c in k + "=" ensures KeyChar(c) || c == '=' {
      if c in k { var i :| 0 <= i < |k| && k[i] == c; }
    }
  }

  lemma ReadKvLine(s: Setting, v: string, e: RuntimeEnv)
    ensures ReadLine(KvLine(s, v), e) == Assign(e, s, v)
  {
    var line := KvLine(s, v);
    KeyTextChars(s);
    QuoteShape(v);
    SplitKvAgreesWithShell(s, v);
    SettingOfKeyText(s);
    hide KeyText, Quote, SplitKv, SettingOf, Assign, Lex;
    assert line[0] == KeyText(s)[0];
    assert line[|line| - 1] == '\'';
    TrimNothing(line);
  }

  lemma {:induction false} ParseNatText(n: nat)
    ensures ParseNat(NatText(n)) == Some(n)
  {
    if n < 10 {
      assert DigitText(n)[0] == '0' + n as char;
    } else {
      ParseNatText(n / 10);
      var t := NatText(n / 10);
      NatTextDigits(n / 10);
      var d := DigitText(n % 10);
      assert d[0] == '0' + (n % 10) as char;
      assert (t + d)[..|t + d| - 1] == t;
      assert 10 * (n / 10) + n % 10 == n;
    }
  }

  lemma ParseIntText(n: int)
    requires MIN_INT <= n <= MAX_INT
    ensures ParseInt(IntText(n)) == Some(n)
  {
    hide ParseNat, NatText;
    if n < 0 {
      ParseNatText(-n);
      assert ("-" + NatText(-n))[1..] == NatText(-n);
    } else {
      ParseNatText(n);
      NatTextStarts(n);
    }
  }

  lemma NatTextStarts(n: nat)
    ensures NatText(n) != "" && NatText(n)[0] != '-' && NatText(n)[0] != '+'
  {
    NatTextDigits(n);
    assert NatText(n)[0] in NatText(n);
  }

  lemma IntTextEnds(n: int)
    ensures IntText(n) != "" && !IsSpace(IntText(n)[0]) && !IsSpace(IntText(n)[|IntText(n)| - 1]) && IntText(n)[0] != '\''
    ensures '\n' !in IntText(n)
  {
    var t := NatText(if n < 0 then -n else n);
    NatTextDigits(if n < 0 then -n else n);
    assert t[0] in t && t[|t| - 1] in t;
  }

  lemma ReadInsecureLine(e: RuntimeEnv, b: bool)
    ensures ReadLine(InsecureLine(b), e) == e.(insecureSkipVerify := b)
  {
    var s := InsecureSkipVerify;
    KeyTextChars(s);
    SplitKey(s, BoolText(b));
    SettingOfKeyText(s);
    ParseBoolText(b);
    hide KeyText, SplitKv, SettingOf, ParseBool, TrimSpace, DropCr;
    var line := InsecureLine(b);
    assert line[0] == KeyText(s)[0] && line[|line| - 1] == 'e';
    TrimNothing(line);
    assert BoolText(b)[0] != '\'';
  }

  lemma RetriesLineIsTrim(n: int)
    ensures TrimSpace(RetriesLine(n)) == RetriesLine(n) && DropCr(RetriesLine(n)) == RetriesLine(n)
    ensures RetriesLine(n) != "" && RetriesLine(n)[0] != '#'
  {
    KeyTextChars(MaxRetries);
    IntTextEnds(n);
    hide KeyText, IntText, TrimSpace, DropCr;
    var line := RetriesLine(n);
    assert line[0] == KeyText(MaxRetries)[0] && line[|line| - 1] == IntText(n)[|IntText(n)| - 1];
    TrimNothing(line);
  }

  lemma ReadRetriesLine(e: RuntimeEnv, n: int)
    requires MIN_INT <= n <= MAX_INT
    ensures ReadLine(RetriesLine(n), e) == e.(maxRetries := n)
  {
    hide KeyText, SplitKv, SettingOf, IntText, ParseInt, TrimSpace, DropCr;
    RetriesLineIsTrim(n);
    SplitKey(MaxRetries, IntText(n));
    SettingOfKeyText(MaxRetries);
    ParseIntText(n);
    IntTextEnds(n);
    TrimNothing(IntText(n));
  }

  lemma ParseBoolText(b: bool)
    ensures ParseBool(BoolText(b)) == b
  {
    TrimNothing(BoolText(b));
    assert Lower("true") == "true";
    assert Lower("false")[0] == 'f';
  }

  // The whole file

  lemma {:induction false} ReadLinesAppend(a: seq<string>, b: seq<string>, e: RuntimeEnv)
    ensures ReadLines(a + b, e) == match ReadLines(a, e) case None => None case Some(e') => ReadLines(b, e')
    decreases a
  {
    hide ReadLine;
    if a == [] {
      assert a + b == b;
    } else {
      assert (a + b)[0] == a[0] && (a + b)[1..] == a[1..] + b;
      if |a[0]| <= MAX_LINE { ReadLinesAppend(a[1..], b, ReadLine(a[0], e)); }
    }
  }

  predicate NoNewline(s: string) { '\n' !in s }

  /** The condition on one setting: its value holds no newline and its line fits the scanner. */
  predicate Fits(e: RuntimeEnv, s: Setting) {
    NoNewline(Value(e, s)) && |KvLine(s, Value(e, s))| <= MAX_LINE
  }

  predicate AllFit(e: RuntimeEnv) { forall s: Setting :: Fits(e, s) }

  lemma {:induction false} EscapeNoNewline(s: string)
    requires NoNewline(s)
    ensures NoNewline(Escape(s))
  {
    if s != "" {
      EscapeStep(s);
      assert s == [s[0]] + s[1..];
      EscapeNoNewline(s[1..]);
    }
  }

  lemma LineHasNoNewline(s: Setting, v: string)
    requires NoNewline(v)
    ensures NoNewline(KvLine(s, v))
  {
    EscapeNoNewline(v);
    KeyTextChars(s);
    hide KeyText, Escape;
    assert NoNewline(KeyText(s));
  }

  /** Splitting into lines undoes terminating them. */
  lemma {:induction false} RawLinesTerminated(lines: seq<string>)
    requires forall l :: l in lines ==> NoNewline(l)
    ensures RawLines(Terminated(lines)) == lines
  {
    if lines != [] {
      var l, rest := lines[0], Terminated(lines[1..]);
      var text := l + "\n" + rest;
      RawLinesTerminated(lines[1..]);
      IndexOfNewline(l, rest);
      assert text[..|l|] == l && text[|l| + 1..] == rest;
      assert lines == [l] + lines[1..];
    }
  }

  lemma IndexOfNewline(l: string, rest: string)
    requires NoNewline(l)
    ensures IndexOf(l + "\n" + rest, '\n') == |l|
  {
    var s := l + "\n" + rest;
    assert s[|l|] == '\n';
    assert forall i :: 0 <= i < |l| ==> s[i] == l[i];
    assert forall i :: |l| < i < |s| ==> s[..i][|l|] == '\n';
  }

  lemma ReadKvLines(e: RuntimeEnv, s: Setting, into: RuntimeEnv)
    requires s != InsecureSkipVerify && s != MaxRetries
    requires Value(e, s) == "" ==> Assign(into, s, "") == into
    ensures ReadLines(KvLines(e, s), into) == if Value(e, s) != "" && |KvLine(s, Value(e, s))| > MAX_LINE then None
                                              else Some(Assign(into, s, Value(e, s)))
  {
    var v := Value(e, s);
    if v != "" {
      ReadKvLine(s, v, into);
      hide KvLine, Value, Assign, ReadLine;
      assert [KvLine(s, v)][1..] == [];
    }
  }

  lemma ShortScalars(b: bool, n: int)
    requires MIN_INT <= n <= MAX_INT
    ensures |InsecureLine(b)| <= MAX_LINE && |RetriesLine(n)| <= MAX_LINE
    ensures NoNewline(InsecureLine(b)) && NoNewline(RetriesLine(n))
  {
    ShortInsecure(b);
    ShortRetries(n);
  }

  lemma ShortInsecure(b: bool)
    ensures |InsecureLine(b)| <= MAX_LINE && NoNewline(InsecureLine(b))
  {
  }

  lemma ShortRetries(n: int)
    requires MIN_INT <= n <= MAX_INT
    ensures |RetriesLine(n)| <= MAX_LINE && NoNewline(RetriesLine(n))
  {
    Pow10Values();
    NatTextLength(if n < 0 then -n else n, 19);
    IntTextEnds(n);
    KeyTextChars(MaxRetries);
    assert |KeyText(MaxRetries)| == 15;
    hide NatText, Pow10, KeyText;
  }

  function Pow10(k: nat): nat { if k == 0 then 1 else 10 * Pow10(k - 1) }

  lemma Pow10Values()
    ensures Pow10(19) == 10_000_000_000_000_000_000
  {
    assert Pow10(3) == 1000;
    assert Pow10(5) == 100_000;
    assert Pow10(7) == 10_000_000;
    assert Pow10(9) == 1_000_000_000;
    assert Pow10(11) == 100_000_000_000;
    assert Pow10(13) == 10_000_000_000_000;
    assert Pow10(15) == 1_000_000_000_000_000;
    assert Pow10(17) == 100_000_000_000_000_000;
  }

  lemma {:induction false} NatTextLength(n: nat, k: nat)
    requires 1 <= k && n < Pow10(k)
    ensures |NatText(n)| <= k
  {
    if n >= 10 {
      assert k > 1 by { assert Pow10(1) == 10; }
      NatTextLength(n / 10, k - 1);
    }
  }

  /** The record read so far: the settings in `done` are those of `e`, the others are unset. */
  ghost predicate Partial(r: RuntimeEnv, e: RuntimeEnv, done: set<Setting>) {
    && (forall s: Setting :: Value(r, s) == if s in done then Value(e, s) else "")
    && r.insecureSkipVerify == (if InsecureSkipVerify in done then e.insecureSkipVerify else false)
    && r.maxRetries == (if MaxRetries in done then e.maxRetries else 0)
  }

  lemma AssignPartial(r: RuntimeEnv, e: RuntimeEnv, done: set<Setting>, s: Setting)
    requires Partial(r, e, done) && s !in done && s != InsecureSkipVerify && s != MaxRetries
    ensures Partial(Assign(r, s, Value(e, s)), e, done + {s})
    ensures Assign(r, s, "") == r
  {
    assert Value(r, s) == "";
    AssignKeeps(r, s, Value(e, s));
    forall x: Setting ensures Value(Assign(r, s, Value(e, s)), x) == if x == s then Value(e, s) else Value(r, x) {
      AssignedValue(r, s, Value(e, s), x);
    }
    hide Value, Assign;
  }

  lemma AssignKeeps(r: RuntimeEnv, s: Setting, v: string)
    requires s != InsecureSkipVerify && s != MaxRetries
    ensures Assign(r, s, v).insecureSkipVerify == r.insecureSkipVerify && Assign(r, s, v).maxRetries == r.maxRetries
    ensures Assign(r, s, Value(r, s)) == r
  {
  }

  lemma PartialIsWhole(r: RuntimeEnv, e: RuntimeEnv, done: set<Setting>)
    requires Partial(r, e, done) && forall s: Setting :: s in done
    ensures r == e
  {
    assert Value(r, BootstrapServer) == Value(e, BootstrapServer) && Value(r, CommandConfig) == Value(e, CommandConfig);
    assert Value(r, MdsUrl) == Value(e, MdsUrl) && Value(r, MdsUser) == Value(e, MdsUser);
    assert Value(r, MdsPasswordFile) == Value(e, MdsPasswordFile) && Value(r, MdsTokenFile) == Value(e, MdsTokenFile);
    assert Value(r, MdsCaCert) == Value(e, MdsCaCert) && Value(r, MdsClientCert) == Value(e, MdsClientCert);
    assert Value(r, MdsClientKey) == Value(e, MdsClientKey) && Value(r, AuthToken) == Value(e, AuthToken);
  }

  /** One more string setting read. */
  lemma ReadOneMore(lines: seq<string>, e: RuntimeEnv, s: Setting, mid: RuntimeEnv, done: set<Setting>) returns (after: RuntimeEnv)
    requires ReadLines(lines, UNSET) == Some(mid) && Partial(mid, e, done) && s !in done
    requires s != InsecureSkipVerify && s != MaxRetries && AllFit(e)
    ensures ReadLines(lines + KvLines(e, s), UNSET) == Some(after) && Partial(after, e, done + {s})
  {
    assert Fits(e, s);
    after := Assign(mid, s, Value(e, s));
    AssignPartial(mid, e, done, s);
    ReadLinesAppend(lines, KvLines(e, s), UNSET);
    hide KvLines, KvLine, Assign, Value;
    ReadKvLines(e, s, mid);
  }

  lemma ReadScalar(lines: seq<string>, line: string, mid: RuntimeEnv)
    requires ReadLines(lines, UNSET) == Some(mid) && |line| <= MAX_LINE
    ensures ReadLines(lines + [line], UNSET) == Some(ReadLine(line, mid))
  {
    hide ReadLine;
    assert [line][1..] == [];
    ReadLinesAppend(lines, [line], UNSET);
  }

  lemma ReadScalars(lines: seq<string>, e: RuntimeEnv, mid: RuntimeEnv, done: set<Setting>) returns (after: RuntimeEnv)
    requires ReadLines(lines, UNSET) == Some(mid) && Partial(mid, e, done) && InsecureSkipVerify !in done && MaxRetries !in done
    requires MIN_INT <= e.maxRetries <= MAX_INT
    ensures ReadLines(lines + [InsecureLine(e.insecureSkipVerify)] + [RetriesLine(e.maxRetries)], UNSET) == Some(after)
    ensures Partial(after, e, done + {InsecureSkipVerify} + {MaxRetries})
  {
    after := mid.(insecureSkipVerify := e.insecureSkipVerify, maxRetries := e.maxRetries);
    ScalarsPartial(mid, e, done, after);
    hide Partial, ReadLines, ReadLine, InsecureLine, RetriesLine;
    ShortScalars(e.insecureSkipVerify, e.maxRetries);
    ReadInsecureLine(mid, e.insecureSkipVerify);
    var next := mid.(insecureSkipVerify := e.insecureSkipVerify);
    ReadRetriesLine(next, e.maxRetries);
    ReadScalar(lines, InsecureLine(e.insecureSkipVerify), mid);
    ReadScalar(lines + [InsecureLine(e.insecureSkipVerify)], RetriesLine(e.maxRetries), next);
  }

  lemma ScalarsPartial(mid: RuntimeEnv, e: RuntimeEnv, done: set<Setting>, after: RuntimeEnv)
    requires Partial(mid, e, done) && InsecureSkipVerify !in done && MaxRetries !in done
    requires after == mid.(insecureSkipVerify := e.insecureSkipVerify, maxRetries := e.maxRetries)
    ensures Partial(after, e, done + {InsecureSkipVerify} + {MaxRetries})
  {
    assert Value(e, InsecureSkipVerify) == "" && Value(e, MaxRetries) == "";
    forall s: Setting ensures Value(after, s) == Value(mid, s) {}
  }

  lemma ReadFirstFive(e: RuntimeEnv) returns (l: seq<string>, r: RuntimeEnv)
    requires AllFit(e)
    ensures l == KvLines(e, BootstrapServer) + KvLines(e, CommandConfig) + KvLines(e, MdsUrl) + KvLines(e, MdsUser) + KvLines(e, MdsPasswordFile)
    ensures ReadLines(l, UNSET) == Some(r)
    ensures Partial(r, e, {} + {BootstrapServer} + {CommandConfig} + {MdsUrl} + {MdsUser} + {MdsPasswordFile})
  {
    l := [];
    assert ReadLines(l, UNSET) == Some(UNSET);
    assert Partial(UNSET, e, {});
    assert [] + KvLines(e, BootstrapServer) == KvLines(e, BootstrapServer);
    hide *;
    var d: set<Setting> := {};
    r := ReadOneMore(l, e, BootstrapServer, UNSET, d);  l, d := l + KvLines(e, BootstrapServer), d + {BootstrapServer};
    r := ReadOneMore(l, e, CommandConfig, r, d);        l, d := l + KvLines(e, CommandConfig), d + {CommandConfig};
    r := ReadOneMore(l, e, MdsUrl, r, d);               l, d := l + KvLines(e, MdsUrl), d + {MdsUrl};
    r := ReadOneMore(l, e, MdsUser, r, d);              l, d := l + KvLines(e, MdsUser), d + {MdsUser};
    r := ReadOneMore(l, e, MdsPasswordFile, r, d);      l, d := l + KvLines(e, MdsPasswordFile), d + {MdsPasswordFile};
  }

  lemma ReadAllFitting(e: RuntimeEnv)
    requires MIN_INT <= e.maxRetries <= MAX_INT && AllFit(e)
    ensures ReadLines(WrittenLines(e), UNSET) == Some(e)
  {
    hide ReadLines, KvLines, InsecureLine, RetriesLine, Partial, AllFit;
    var l, r := ReadFirstFive(e);
    var d := {} + {BootstrapServer} + {CommandConfig} + {MdsUrl} + {MdsUser} + {MdsPasswordFile};
    r := ReadOneMore(l, e, MdsTokenFile, r, d);   l, d := l + KvLines(e, MdsTokenFile), d + {MdsTokenFile};
    r := ReadOneMore(l, e, MdsCaCert, r, d);      l, d := l + KvLines(e, MdsCaCert), d + {MdsCaCert};
    r := ReadOneMore(l, e, MdsClientCert, r, d);  l, d := l + KvLines(e, MdsClientCert), d + {MdsClientCert};
    r := ReadOneMore(l, e, MdsClientKey, r, d);   l, d := l + KvLines(e, MdsClientKey), d + {MdsClientKey};
    r := ReadScalars(l, e, r, d);
    l, d := l + [InsecureLine(e.insecureSkipVerify)] + [RetriesLine(e.maxRetries)], d + {InsecureSkipVerify} + {MaxRetries};
    r := ReadOneMore(l, e, AuthToken, r, d);
    d := d + {AuthToken};
    forall s: Setting ensures s in d { SettingListed(s); }
    PartialIsWhole(r, e, d);
  }

  lemma SettingListed(s: Setting)
    ensures s in {} + {BootstrapServer} + {CommandConfig} + {MdsUrl} + {MdsUser} + {MdsPasswordFile} + {MdsTokenFile} + {MdsCaCert}
                   + {MdsClientCert} + {MdsClientKey} + {InsecureSkipVerify} + {MaxRetries} + {AuthToken}
  {
  }

  lemma {:induction false} TooLongLine(lines: seq<string>, line: string, e: RuntimeEnv)
    requires line in lines && |line| > MAX_LINE
    ensures ReadLines(lines, e) == None
    decreases lines
  {
    hide ReadLine;
    assert lines == [lines[0]] + lines[1..];
    if |lines[0]| <= MAX_LINE { TooLongLine(lines[1..], line, ReadLine(lines[0], e)); }
  }

  ghost predicate Plain(lines: seq<string>) { forall l :: l in lines ==> NoNewline(l) }

  lemma PlainAppend(a: seq<string>, b: seq<string>)
    requires Plain(a) && Plain(b)
    ensures Plain(a + b)
  {
  }

  lemma PlainKv(a: seq<string>, e: RuntimeEnv, s: Setting)
    requires Plain(a) && NoNewlines(e)
    ensures Plain(a + KvLines(e, s))
  {
    LineHasNoNewline(s, Value(e, s));
    hide KvLine, Value;
    PlainAppend(a, KvLines(e, s));
  }

  lemma WrittenIsPlain(e: RuntimeEnv)
    requires MIN_INT <= e.maxRetries <= MAX_INT && NoNewlines(e)
    ensures Plain(WrittenLines(e))
  {
    assert Plain([]) && [] + KvLines(e, BootstrapServer) == KvLines(e, BootstrapServer);
    ShortScalars(e.insecureSkipVerify, e.maxRetries);
    assert Plain([InsecureLine(e.insecureSkipVerify)]) && Plain([RetriesLine(e.maxRetries)]);
    hide KvLines, Plain, InsecureLine, RetriesLine, NoNewlines, NoNewline;
    PlainKv([], e, BootstrapServer);
    var l := KvLines(e, BootstrapServer);
    PlainKv(l, e, CommandConfig);    l := l + KvLines(e, CommandConfig);
    PlainKv(l, e, MdsUrl);           l := l + KvLines(e, MdsUrl);
    PlainKv(l, e, MdsUser);          l := l + KvLines(e, MdsUser);
    PlainKv(l, e, MdsPasswordFile);  l := l + KvLines(e, MdsPasswordFile);
    PlainKv(l, e, MdsTokenFile);     l := l + KvLines(e, MdsTokenFile);
    PlainKv(l, e, MdsCaCert);        l := l + KvLines(e, MdsCaCert);
    PlainKv(l, e, MdsClientCert);    l := l + KvLines(e, MdsClientCert);
    PlainKv(l, e, MdsClientKey);     l := l + KvLines(e, MdsClientKey);
    PlainAppend(l, [InsecureLine(e.insecureSkipVerify)]);
    l := l + [InsecureLine(e.insecureSkipVerify)];
    PlainAppend(l, [RetriesLine(e.maxRetries)]);
    l := l + [RetriesLine(e.maxRetries)];
    PlainKv(l, e, AuthToken);
  }

  lemma WrittenHas(e: RuntimeEnv, s: Setting)
    requires Value(e, s) != ""
    ensures KvLine(s, Value(e, s)) in WrittenLines(e)
  {
  }

  ghost predicate NoNewlines(e: RuntimeEnv) { forall s: Setting :: NoNewline(Value(e, s)) }

  lemma {:induction false} TrimNoNewline(s: string)
    requires NoNewline(s)
    ensures NoNewline(TrimRight(s))
  {
    if s != "" && IsSpace(s[|s| - 1]) { TrimNoNewline(s[..|s| - 1]); }
  }

  lemma {:induction false} TrimLeftNoNewline(s: string)
    requires NoNewline(s)
    ensures NoNewline(TrimLeft(s))
  {
    if s != "" && IsSpace(s[0]) { TrimLeftNoNewline(s[1..]); }
  }

  lemma {:induction false} UnescapeNoNewline(s: string)
    requires NoNewline(s)
    ensures NoNewline(ReplaceAll(s, ESCAPED_QUOTE, QUOTE))
    decreases |s|
  {
    if s != "" {
      if ESCAPED_QUOTE <= s {
        UnescapeNoNewline(s[4..]);
      } else {
        UnescapeNoNewline(s[1..]);
        assert s[0] in s;
      }
    }
  }

  lemma SplitNoNewline(line: string)
    requires NoNewline(line) && SplitKv(line).Some?
    ensures NoNewline(SplitKv(line).value.1)
  {
    var i := IndexOf(line, '=');
    var v := line[i + 1..];
    if |v| >= 2 { UnescapeNoNewline(v[1..|v| - 1]); }
  }

  lemma ReadLineNoNewlines(raw: string, e: RuntimeEnv)
    requires NoNewline(raw) && NoNewlines(e)
    ensures NoNewlines(ReadLine(raw, e))
  {
    TrimLeftNoNewline(DropCr(raw));
    TrimNoNewline(TrimLeft(DropCr(raw)));
    var line := TrimSpace(DropCr(raw));
    if line != "" && line[0] != '#' && SplitKv(line).Some? {
      SplitNoNewline(line);
      var (k, v) := SplitKv(line).value;
      if SettingOf(k).Some? {
        hide SplitKv, TrimSpace, SettingOf, DropCr;
        AssignNoNewlines(e, SettingOf(k).value, v);
      }
    }
  }

  lemma AssignNoNewlines(e: RuntimeEnv, t: Setting, v: string)
    requires NoNewlines(e) && NoNewline(v)
    ensures NoNewlines(Assign(e, t, v))
  {
    forall s: Setting ensures NoNewline(Value(Assign(e, t, v), s)) {
      AssignedValue(e, t, v, s);
      hide Value, Assign;
    }
  }

  lemma AssignedValue(e: RuntimeEnv, t: Setting, v: string, s: Setting)
    ensures Value(Assign(e, t, v), s) == if s == t && s != InsecureSkipVerify && s != MaxRetries then v else Value(e, s)
  {
    hide ParseBool, ParseInt, TrimSpace;
  }

  lemma {:induction false} ReadNeverYieldsNewline(lines: seq<string>, e: RuntimeEnv)
    requires NoNewlines(e) && (forall l :: l in lines ==> NoNewline(l)) && ReadLines(lines, e).Some?
    ensures NoNewlines(ReadLines(lines, e).value)
    decreases lines
  {
    hide ReadLine, NoNewlines;
    if lines != [] {
      ReadLineNoNewlines(lines[0], e);
      ReadNeverYieldsNewline(lines[1..], ReadLine(lines[0], e));
    }
  }

  lemma {:induction false} RawLinesNoNewline(text: string)
    ensures forall l :: l in RawLines(text) ==> NoNewline(l)
    decreases |text|
  {
    var i := IndexOf(text, '\n');
    if text != "" && i >= 0 { RawLinesNoNewline(text[i + 1..]); }
  }

  /** Reading the written file gives back the same record iff no value holds a newline and every
      line fits the scanner's buffer. */
  lemma RuntimeEnvRoundTrip(e: RuntimeEnv)
    requires MIN_INT <= e.maxRetries <= MAX_INT
    ensures ReadText(Terminated(WrittenLines(e))) == Some(e) <==> AllFit(e)
  {
    if NoNewlines(e) {
      RawLinesOfWritten(e);
      if AllFit(e) {
        ReadAllFitting(e);
      } else {
        OneTooLong(e);
      }
    } else {
      NewlineIsLost(e);
    }
  }

  lemma RawLinesOfWritten(e: RuntimeEnv)
    requires MIN_INT <= e.maxRetries <= MAX_INT && NoNewlines(e)
    ensures RawLines(Terminated(WrittenLines(e))) == WrittenLines(e)
  {
    WrittenIsPlain(e);
    hide WrittenLines, NoNewline;
    RawLinesTerminated(WrittenLines(e));
  }

  lemma OneTooLong(e: RuntimeEnv)
    requires NoNewlines(e) && !AllFit(e)
    ensures ReadLines(WrittenLines(e), UNSET) == None
  {
    var s: Setting :| !Fits(e, s);
    if Value(e, s) == "" { ShortKey(s); }
    WrittenHas(e, s);
    hide WrittenLines, KvLine;
    TooLongLine(WrittenLines(e), KvLine(s, Value(e, s)), UNSET);
  }

  /** No value read back ever holds a newline. */
  lemma NewlineIsLost(e: RuntimeEnv)
    requires !NoNewlines(e)
    ensures ReadText(Terminated(WrittenLines(e))) != Some(e) && !AllFit(e)
  {
    assert !AllFit(e) by { var s: Setting :| !NoNewline(Value(e, s)); assert !Fits(e, s); }
    hide *;
    ReadTextNoNewlines(Terminated(WrittenLines(e)));
  }

  lemma ReadTextNoNewlines(text: string)
    ensures ReadText(text).Some? ==> NoNewlines(ReadText(text).value)
  {
    RawLinesNoNewline(text);
    assert NoNewlines(UNSET);
    hide RawLines, ReadLines, NoNewlines, NoNewline;
    if ReadText(text).Some? { ReadNeverYieldsNewline(RawLines(text), UNSET); }
  }

  lemma ShortKey(s: Setting)
    ensures |KvLine(s, "")| <= MAX_LINE
  {
  }
}
