/** Shell quoting (pkg/aclrbac/emit/shell/quote.go) and the part of the shell's token recognition
    and quote removal it relies on: POSIX.1-2017 Shell Command Language, sections 2.2.1 (escape
    character), 2.2.2 (single-quotes) and 2.3 (token recognition). */
module Shell {
  import opened Types

  /** `strings.ReplaceAll`: non-overlapping occurrences, left to right. */
  function ReplaceAll(s: string, from: string, to: string): string
    requires from != ""
    decreases |s|
  {
    if s == "" then ""
    else if from <= s then to + ReplaceAll(s[|from|..], from, to)
    else [s[0]] + ReplaceAll(s[1..], from, to)
  }

  const QUOTE: string := "'"
  const ESCAPED_QUOTE: string := "'\\''"

  function Escape(s: string): string { ReplaceAll(s, QUOTE, ESCAPED_QUOTE) }

  function Quote(s: string): string {
    if s == "" then "''" else "'" + Escape(s) + "'"
  }

  lemma EscapeStep(s: string)
    requires s != ""
    ensures Escape(s) == (if s[0] == '\'' then ESCAPED_QUOTE else [s[0]]) + Escape(s[1..])
  {
    assert QUOTE <= s <==> s[0] == '\'';
  }

  /** Replacing back undoes the escaping. */
  lemma {:induction false} UnescapeEscape(s: string)
    ensures ReplaceAll(Escape(s), ESCAPED_QUOTE, QUOTE) == s
  {
    if s != "" {
      EscapeStep(s);
      UnescapeEscape(s[1..]);
      var rest := Escape(s[1..]);
      hide Escape;
      if s[0] == '\'' {
        assert ESCAPED_QUOTE <= ESCAPED_QUOTE + rest && (ESCAPED_QUOTE + rest)[4..] == rest;
      } else {
        assert ([s[0]] + rest)[0] == s[0] && ([s[0]] + rest)[1..] == rest;
        assert ESCAPED_QUOTE[0] == '\'';
      }
      assert s == [s[0]] + s[1..];
    }
  }

  lemma {:induction false} EscapePlain(s: string)
    requires '\'' !in s
    ensures Escape(s) == s
  {
    if s != "" {
      EscapeStep(s);
      assert s == [s[0]] + s[1..];
      EscapePlain(s[1..]);
    }
  }

  // ---------------------------------------------------------------------------
  // Token recognition

  /** A word after quote removal, or a control operator that ends a command. */
  datatype Token = Word(text: string) | End(operator: char)

  predicate IsBlank(c: char) { c == ' ' || c == '\t' }

  predicate IsEnd(c: char) { c == '\n' || c == ';' }

  /** Characters the model's lexer declines when they are not quoted. */
  predicate IsSpecial(c: char) { c in "\"$`|&<>()*?[#~%" }

  predicate IsOrdinary(c: char) { !IsBlank(c) && !IsEnd(c) && !IsSpecial(c) && c != '\'' && c != '\\' }

  /** Outside quotes, with no word begun, inside an unquoted part of a word, or inside quotes. */
  datatype Mode = Between | InWord(word: string) | InQuotes(word: string)

  function Begun(m: Mode): string { if m.Between? then "" else m.word }

  function Flush(m: Mode): seq<Token> { if m.InWord? then [Word(m.word)] else [] }

  function Prepend(ts: seq<Token>, rest: Option<seq<Token>>): Option<seq<Token>> {
    match rest case None => None case Some(us) => Some(ts + us)
  }

  function Lex(s: string, m: Mode): Option<seq<Token>>
    decreases |s|
  {
    if m.InQuotes? then
      if s == "" then None
      else if s[0] == '\'' then Lex(s[1..], InWord(m.word))
      else Lex(s[1..], InQuotes(m.word + [s[0]]))
    else if s == "" then Some(Flush(m))
    else if s[0] == '\'' then Lex(s[1..], InQuotes(Begun(m)))
    else if s[0] == '\\' then
      if |s| == 1 then None
      else if s[1] == '\n' then Lex(s[2..], m)
      else Lex(s[2..], InWord(Begun(m) + [s[1]]))
    else if IsBlank(s[0]) then Prepend(Flush(m), Lex(s[1..], Between))
    else if IsEnd(s[0]) then Prepend(Flush(m) + [End(s[0])], Lex(s[1..], Between))
    else if IsSpecial(s[0]) then None
    else Lex(s[1..], InWord(Begun(m) + [s[0]]))
  }

  /** The escaped text, read inside quotes, is the original text. */
  lemma {:induction false} LexEscaped(s: string, rest: string, word: string)
    ensures Lex(Escape(s) + "'" + rest, InQuotes(word)) == Lex(rest, InWord(word + s))
    decreases |s|
  {
    if s == "" {
      assert Escape(s) + "'" + rest == "'" + rest;
      assert ("'" + rest)[1..] == rest;
      assert word + s == word;
    } else {
      EscapeStep(s);
      var more := Escape(s[1..]) + "'" + rest;
      LexEscaped(s[1..], rest, word + [s[0]]);
      assert word + [s[0]] + s[1..] == word + s;
      if s[0] == '\'' {
        assert Escape(s) + "'" + rest == "'\\''" + more;
        LexEscapedQuote(more, word);
      } else {
        assert Escape(s) + "'" + rest == [s[0]] + more;
        assert ([s[0]] + more)[1..] == more;
      }
    }
  }

  /** Close the quotes, an escaped quote, reopen. */
  lemma LexEscapedQuote(more: string, word: string)
    ensures Lex("'\\''" + more, InQuotes(word)) == Lex(more, InQuotes(word + ['\'']))
  {
    var s := "'\\''" + more;
    assert s[1..] == "\\''" + more;
    assert (s[1..])[2..] == "'" + more;
    assert ("'" + more)[1..] == more;
    assert Lex(s, InQuotes(word)) == Lex(s[1..], InWord(word));
    assert Lex(s[1..], InWord(word)) == Lex("'" + more, InWord(word + ['\'']));
  }

  /** A quoted text adds exactly itself to the word being read. */
  lemma LexQuote(s: string, rest: string, m: Mode)
    requires !m.InQuotes?
    ensures Lex(Quote(s) + rest, m) == Lex(rest, InWord(Begun(m) + s))
  {
    if s == "" {
      assert Quote(s) + rest == "''" + rest;
      assert ("''" + rest)[1..] == "'" + rest && ("'" + rest)[1..] == rest;
      assert Begun(m) + s == Begun(m);
    } else {
      assert Quote(s) + rest == "'" + (Escape(s) + "'" + rest);
      assert ("'" + (Escape(s) + "'" + rest))[1..] == Escape(s) + "'" + rest;
      LexEscaped(s, rest, Begun(m));
    }
  }

  /** A text of ordinary characters adds itself too. */
  lemma {:induction false} LexBare(s: string, rest: string, m: Mode)
    requires !m.InQuotes? && s != "" && forall c :: c in s ==> IsOrdinary(c)
    ensures Lex(s + rest, m) == Lex(rest, InWord(Begun(m) + s))
    decreases |s|
  {
    var m' := InWord(Begun(m) + [s[0]]);
    assert (s + rest)[1..] == s[1..] + rest && s[0] in s;
    if s[1..] == "" {
      assert s == [s[0]] && s[1..] + rest == rest;
    } else {
      LexBare(s[1..], rest, m');
      assert Begun(m) + [s[0]] + s[1..] == Begun(m) + s;
    }
  }

  // ---------------------------------------------------------------------------
  // Commands

  /** A word as a generated script writes it. */
  datatype Piece = Bare(text: string) | Quoted(text: string)

  predicate WellFormed(p: Piece) {
    p.Bare? ==> p.text != "" && forall c | c in p.text :: IsOrdinary(c)
  }

  function PieceText(p: Piece): string { match p case Bare(t) => t case Quoted(t) => Quote(t) }

  /** The words of a command, joined by single blanks. */
  function CommandText(ps: seq<Piece>): string {
    if ps == [] then ""
    else if |ps| == 1 then PieceText(ps[0])
    else PieceText(ps[0]) + " " + CommandText(ps[1..])
  }

  function Words(ps: seq<Piece>): seq<Token> {
    if ps == [] then [] else [Word(ps[0].text)] + Words(ps[1..])
  }

  lemma LexPiece(p: Piece, rest: string)
    requires WellFormed(p)
    ensures Lex(PieceText(p) + rest, Between) == Lex(rest, InWord(p.text))
  {
    assert "" + p.text == p.text;
    match p {
      case Bare(t) => LexBare(t, rest, Between);
      case Quoted(t) => LexQuote(t, rest, Between);
    }
  }

  /** A command and its terminator lex to the words it was made from. */
  lemma {:induction false} LexCommand(ps: seq<Piece>, end: char, rest: string)
    requires ps != [] && IsEnd(end) && forall p :: p in ps ==> WellFormed(p)
    ensures Lex(CommandText(ps) + [end] + rest, Between) == Prepend(Words(ps) + [End(end)], Lex(rest, Between))
  {
    assert ps == [ps[0]] + ps[1..];
    if |ps| == 1 {
      assert CommandText(ps) + [end] + rest == PieceText(ps[0]) + ([end] + rest);
      LexPiece(ps[0], [end] + rest);
      assert ([end] + rest)[1..] == rest;
      assert Words(ps) == [Word(ps[0].text)];
    } else {
      var more := CommandText(ps[1..]) + [end] + rest;
      assert CommandText(ps) + [end] + rest == PieceText(ps[0]) + (" " + more);
      LexPiece(ps[0], " " + more);
      assert (" " + more)[1..] == more;
      hide CommandText;
      LexCommand(ps[1..], end, rest);
      PrependTwice([Word(ps[0].text)], Words(ps[1..]) + [End(end)], Lex(rest, Between));
      assert [Word(ps[0].text)] + (Words(ps[1..]) + [End(end)]) == Words(ps) + [End(end)];
    }
  }

  lemma PrependTwice(a: seq<Token>, b: seq<Token>, rest: Option<seq<Token>>)
    ensures Prepend(a, Prepend(b, rest)) == Prepend(a + b, rest)
  {
    if rest.Some? { assert a + (b + rest.value) == a + b + rest.value; }
  }

  /** The words of each command of a token list, `word` being the command under way. */
  function Commands(ts: seq<Token>, under: seq<string>): seq<seq<string>> {
    if ts == [] then (if under == [] then [] else [under])
    else match ts[0]
      case Word(t) => Commands(ts[1..], under + [t])
      case End(_) => (if under == [] then [] else [under]) + Commands(ts[1..], [])
  }

  /** The commands of a script text. */
  function ScriptCommands(s: string): Option<seq<seq<string>>> {
    match Lex(s, Between) case None => None case Some(ts) => Some(Commands(ts, []))
  }

  function Texts(ps: seq<Piece>): seq<string> {
    if ps == [] then [] else [ps[0].text] + Texts(ps[1..])
  }

  lemma {:induction false} CommandsOfWords(ps: seq<Piece>, end: char, ts: seq<Token>, under: seq<string>)
    requires ps != [] || under != []
    ensures Commands(Words(ps) + [End(end)] + ts, under) == [under + Texts(ps)] + Commands(ts, [])
    decreases |ps|
  {
    var all := Words(ps) + [End(end)] + ts;
    if ps == [] {
      assert all[0] == End(end) && all[1..] == ts;
      assert under + Texts(ps) == under;
    } else {
      assert all[0] == Word(ps[0].text) && all[1..] == Words(ps[1..]) + [End(end)] + ts;
      CommandsOfWords(ps[1..], end, ts, under + [ps[0].text]);
      assert under + [ps[0].text] + Texts(ps[1..]) == under + Texts(ps);
    }
  }

  /** A script that begins with a command begins with that command's words. */
  lemma FirstCommand(ps: seq<Piece>, end: char, rest: string)
    requires ps != [] && IsEnd(end) && forall p :: p in ps ==> WellFormed(p)
    requires ScriptCommands(rest).Some?
    ensures ScriptCommands(CommandText(ps) + [end] + rest) == Some([Texts(ps)] + ScriptCommands(rest).value)
  {
    LexCommand(ps, end, rest);
    hide Lex, CommandText;
    CommandsOfWords(ps, end, Lex(rest, Between).value, []);
    assert [] + Texts(ps) == Texts(ps);
  }

  /** Blanks before a command are skipped. */
  lemma LeadingBlank(rest: string)
    ensures ScriptCommands(" " + rest) == ScriptCommands(rest)
  {
    assert (" " + rest)[1..] == rest;
    if Lex(rest, Between).Some? { assert [] + Lex(rest, Between).value == Lex(rest, Between).value; }
  }
}
