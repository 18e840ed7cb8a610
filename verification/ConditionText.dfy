/**
 Writing tokens back to text. Quoting undoes `StringBody`, the lexer reads back every token list it
 could have produced, and so a condition written from its syntax tree parses to that tree.
 */
module ConditionText {
  import opened Prelude
  import opened ConditionSyntax
  import opened ConditionPrinter
  import opened ConditionLexer

  function Escape(c: char): string {
    if c == '"' then "\\\""
    else if c == '\\' then "\\\\"
    else if c == '\n' then "\\n"
    else if c == '\t' then "\\t"
    else if c == '\r' then "\\r"
    else [c]
  }

  function EscapeAll(s: string): string {
    if s == "" then "" else Escape(s[0]) + EscapeAll(s[1..])
  }

  function Quote(s: string): string {
    "\"" + EscapeAll(s) + "\""
  }

  function CmpText(op: CmpOp): string {
    match op
    case Eq => "=="
    case Neq => "!="
    case Lt => "<"
    case Le => "<="
    case Gt => ">"
    case Ge => ">="
  }

  function Render(t: Token): (r: string)
    ensures t.TStr? ==> r != ""
  {
    match t
    case TIdent(name) => name
    case TStr(s) => Quote(s)
    case TNum(text) => text
    case TTrue => "true"
    case TFalse => "false"
    case TNull => "null"
    case TCmp(op) => CmpText(op)
    case TAnd => "&&"
    case TOr => "||"
    case TNot => "!"
    case TDot => "."
    case TLParen => "("
    case TRParen => ")"
  }

  function RenderAll(ts: seq<Token>): string {
    if ts == [] then "" else Render(ts[0]) + " " + RenderAll(ts[1..])
  }

  predicate IsIdent(name: string) {
    name != "" && IsIdentStart(name[0]) && RunEnd(name, 1, IsIdentChar) == |name|
    && name != "true" && name != "false" && name != "null"
  }

  predicate IsNumber(text: string) {
    text != "" && (text[0] == '-' || IsDigit(text[0])) && NumberAt(text) == NumberSpan(|text|, true)
  }

  /** The tokens a text can contain. */
  predicate Lexable(t: Token) {
    (t.TIdent? ==> IsIdent(t.name)) && (t.TNum? ==> IsNumber(t.text))
  }

  // ----- string literals -----

  lemma BackslashReads(text: string, x: char, c: char, tail: string)
    requires text == ['\\', x] + tail && Unescape(x) == Some(c)
    ensures StringBody(text) == Prepend([c], 2, StringBody(tail))
  {
    assert text[2..] == tail;
  }

  lemma PlainCharReads(text: string, c: char, tail: string)
    requires text == [c] + tail && c != '"' && c != '\\'
    ensures StringBody(text) == Prepend([c], 1, StringBody(tail))
  {
    assert text[1..] == tail;
  }

  lemma EscapedCharReadsBack(c: char, tail: string)
    ensures StringBody(Escape(c) + tail) == Prepend([c], |Escape(c)|, StringBody(tail))
  {
    if |Escape(c)| == 2 {
      BackslashReads(Escape(c) + tail, Escape(c)[1], c, tail);
    } else {
      PlainCharReads(Escape(c) + tail, c, tail);
    }
  }

  lemma QuoteText(s: string, rest: string)
    requires s != ""
    ensures EscapeAll(s) + "\"" + rest == Escape(s[0]) + (EscapeAll(s[1..]) + "\"" + rest)
    ensures [s[0]] + s[1..] == s
  {
    var head, tail := Escape(s[0]), EscapeAll(s[1..]);
    ConcatAssoc(head, tail, "\"");
    ConcatAssoc(head, tail + "\"", rest);
  }

  lemma QuoteStep(c: char, tail: string, content: string, len: nat)
    requires StringBody(tail) == Ok(Literal(content, len))
    ensures StringBody(Escape(c) + tail) == Ok(Literal([c] + content, |Escape(c)| + len))
  {
    EscapedCharReadsBack(c, tail);
  }

  /** A quoted string reads back as itself, whatever follows it. */
  lemma {:induction false} QuoteReadsBack(s: string, rest: string)
    ensures StringBody(EscapeAll(s) + "\"" + rest) == Ok(Literal(s, |EscapeAll(s)| + 1))
  {
    if s == "" {
      assert EscapeAll(s) + "\"" + rest == "\"" + rest;
    } else {
      QuoteReadsBack(s[1..], rest);
      QuoteStep(s[0], EscapeAll(s[1..]) + "\"" + rest, s[1..], |EscapeAll(s[1..])| + 1);
      QuoteText(s, rest);
    }
  }

  /** Whatever literal a text holds, quoting its content gives a literal with the same content. */
  lemma RequoteSameContent(s: string, rest: string)
    requires StringBody(s).Ok?
    ensures var content := StringBody(s).value.content;
            StringBody(Quote(content)[1..] + rest) == Ok(Literal(content, |EscapeAll(content)| + 1))
  {
    var content := StringBody(s).value.content;
    assert Quote(content)[1..] + rest == EscapeAll(content) + "\"" + rest;
    QuoteReadsBack(content, rest);
  }

  // ----- runs -----

  /** A run that ends before the end of `a`, or meets a character it does not take, ignores what
      comes later. */
  lemma {:induction false} RunEndStops(a: string, rest: string, i: nat, ok: char -> bool)
    requires i <= |a| && !ok(' ')
    ensures RunEnd(a + " " + rest, i, ok) == RunEnd(a, i, ok)
    decreases |a| - i
  {
    if i == |a| || !ok(a[i]) {
    } else {
      RunEndStops(a, rest, i + 1, ok);
    }
  }

  lemma NumberStops(a: string, rest: string)
    requires IsNumber(a)
    ensures NumberAt(a + " " + rest) == NumberSpan(|a|, true)
  {
    var start := if a[0] == '-' then 1 else 0;
    RunEndStops(a, rest, start, IsDigit);
    var whole := RunEnd(a, start, IsDigit);
    if whole < |a| && a[whole] == '.' {
      RunEndStops(a, rest, whole + 1, IsDigit);
    }
  }

  // ----- tokens -----

  lemma ScanReadsIdent(name: string, rest: string)
    requires IsIdent(name)
    ensures ScanOne(name + " " + rest) == Tok(TIdent(name), |name|)
  {
    RunEndStops(name, rest, 1, IsIdentChar);
    assert (name + " " + rest)[..|name|] == name;
  }

  lemma ScanReadsNumber(text: string, rest: string)
    requires IsNumber(text)
    ensures ScanOne(text + " " + rest) == Tok(TNum(text), |text|)
  {
    NumberStops(text, rest);
    assert (text + " " + rest)[..|text|] == text;
  }

  lemma ScanReadsString(s: string, rest: string)
    ensures ScanOne(Quote(s) + " " + rest) == Tok(TStr(s), |Quote(s)|)
  {
    var text := Quote(s) + " " + rest;
    assert text[1..] == EscapeAll(s) + "\"" + (" " + rest);
    QuoteReadsBack(s, " " + rest);
  }

  lemma ScanReadsKeyword(name: string, rest: string)
    requires name == "true" || name == "false" || name == "null"
    ensures ScanOne(name + " " + rest) == Tok(Word(name), |name|)
  {
    KeywordRun(name);
    RunEndStops(name, rest, 1, IsIdentChar);
    assert (name + " " + rest)[..|name|] == name;
  }

  lemma KeywordRun(name: string)
    requires name == "true" || name == "false" || name == "null"
    ensures RunEnd(name, 1, IsIdentChar) == |name|
  {
    assert RunEnd(name, 4, IsIdentChar) == |name|;
    assert RunEnd(name, 3, IsIdentChar) == |name|;
    assert RunEnd(name, 2, IsIdentChar) == |name|;
  }

  lemma ScanReadsBack(t: Token, rest: string)
    requires Lexable(t)
    ensures Render(t) != ""
    ensures ScanOne(Render(t) + " " + rest) == Tok(t, |Render(t)|)
  {
    match t
    case TIdent(name) => ScanReadsIdent(name, rest);
    case TStr(s) => ScanReadsString(s, rest);
    case TNum(text) => ScanReadsNumber(text, rest);
    case TTrue => ScanReadsKeyword("true", rest);
    case TFalse => ScanReadsKeyword("false", rest);
    case TNull => ScanReadsKeyword("null", rest);
    case _ =>
  }

  /** The lexer reads back what it could have produced. */
  lemma {:induction false} LexReadsBack(ts: seq<Token>)
    requires forall t :: t in ts ==> Lexable(t)
    ensures LexText(RenderAll(ts)) == Ok(ts)
  {
    if ts == [] {
    } else {
      var rest := RenderAll(ts[1..]);
      ScanReadsBack(ts[0], rest);
      LexReadsBack(ts[1..]);
      assert [ts[0]] + ts[1..] == ts;
    }
  }

  /** Every token the lexer produces is one `Render` can write. */
  lemma {:induction false} LexedIsLexable(s: string)
    requires LexText(s).Ok?
    ensures forall t :: t in LexText(s).value ==> Lexable(t)
    decreases |s|
  {
    if s == "" {
    } else {
      match ScanOne(s)
      case Skip => LexedIsLexable(s[1..]);
      case Tok(t, n) =>
        LexedIsLexable(s[n..]);
        ScannedIsLexable(s);
      case Fail(_) =>
    }
  }

  lemma {:induction false} RunEndCut(s: string, i: nat, ok: char -> bool, n: nat)
    requires i <= n <= |s| && RunEnd(s, i, ok) <= n
    ensures RunEnd(s[..n], i, ok) == RunEnd(s, i, ok)
    decreases |s| - i
  {
    if i == |s| || !ok(s[i]) {
    } else {
      RunEndCut(s, i + 1, ok, n);
    }
  }

  lemma NumberCut(s: string)
    requires s != "" && NumberAt(s).digits
    ensures NumberAt(s[..NumberAt(s).len]) == NumberAt(s)
  {
    var n := NumberAt(s).len;
    var start := if s[0] == '-' then 1 else 0;
    var whole := RunEnd(s, start, IsDigit);
    RunEndCut(s, start, IsDigit, n);
    if whole < |s| && s[whole] == '.' {
      RunEndCut(s, whole + 1, IsDigit, n);
    }
  }

  lemma ScannedIsLexable(s: string)
    requires s != "" && ScanOne(s).Tok?
    ensures Lexable(ScanOne(s).token)
  {
    if s[0] == '-' || IsDigit(s[0]) {
      NumberCut(s);
    } else if IsIdentStart(s[0]) {
      RunEndCut(s, 1, IsIdentChar, RunEnd(s, 1, IsIdentChar));
    }
  }

  // ----- whole conditions -----

  datatype SyntaxError = Lexing(lex: LexError) | Parsing(parse: ParseError)

  function ParseText(src: string): Result<Expr, SyntaxError> {
    match LexText(src)
    case Err(e) => Err(Lexing(e))
    case Ok(ts) =>
      match ParseTokens(ts)
      case Err(e) => Err(Parsing(e))
      case Ok(e) => Ok(e)
  }

  method ParseCondition(src: string) returns (r: Result<Expr, SyntaxError>)
    ensures r == ParseText(src)
  {
    var ts := Lex(src);
    if ts.Err? {
      return Err(Lexing(ts.error));
    }
    var e := Parse(ts.value);
    r := if e.Ok? then Ok(e.value) else Err(Parsing(e.error));
  }

  function Write(e: Expr): string {
    RenderAll(Print(e))
  }

  /** Every tree the parser can return, written out and parsed again, comes back; and those trees
      are exactly the precedence-respecting ones over lexable tokens. */
  lemma WriteThenParse(e: Expr)
    ensures (exists src :: ParseText(src) == Ok(e))
            <==> OrLevel(e) && forall t :: t in Print(e) ==> Lexable(t)
    ensures (exists src :: ParseText(src) == Ok(e)) ==> ParseText(Write(e)) == Ok(e)
  {
    if src :| ParseText(src) == Ok(e) {
      LexedIsLexable(src);
      ParseInvertsPrint(LexText(src).value, e);
    }
    if OrLevel(e) && forall t :: t in Print(e) ==> Lexable(t) {
      LexReadsBack(Print(e));
      ParseInvertsPrint(Print(e), e);
      assert ParseText(Write(e)) == Ok(e);
    }
  }
}
