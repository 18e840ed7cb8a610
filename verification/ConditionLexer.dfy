/**
 The lexer of the condition language. The functions read the rest of the text; the methods advance
 an index over the whole text, as the source does.
 */
module ConditionLexer {
  import opened Prelude
  import opened ConditionSyntax

  datatype LexError =
    | LoneChar(c: char)
    | UnknownEscape(c: char)
    | UnterminatedEscape
    | UnterminatedString
    | BadNumber

  predicate IsSpace(c: char) {
    c == ' ' || c == '\t' || c == '\n' || c == '\r'
  }

  predicate IsDigit(c: char) {
    '0' <= c <= '9'
  }

  predicate IsIdentStart(c: char) {
    'a' <= c <= 'z' || 'A' <= c <= 'Z' || c == '_'
  }

  predicate IsIdentChar(c: char) {
    IsIdentStart(c) || IsDigit(c)
  }

  /** The end of the run of `ok` characters that starts at `i`. */
  function RunEnd(s: string, i: nat, ok: char -> bool): (r: nat)
    requires i <= |s|
    ensures i <= r <= |s|
    decreases |s| - i
  {
    if i < |s| && ok(s[i]) then RunEnd(s, i + 1, ok) else i
  }

  // ----- string literals -----

  function Unescape(c: char): Option<char> {
    if c == '"' then Some('"')
    else if c == '\\' then Some('\\')
    else if c == 'n' then Some('\n')
    else if c == 't' then Some('\t')
    else if c == 'r' then Some('\r')
    else None
  }

  /** Content and length of a literal. */
  datatype Literal = Literal(content: string, len: nat)

  function Prepend(content: string, len: nat, r: Result<Literal, LexError>): Result<Literal, LexError> {
    match r
    case Ok(l) => Ok(Literal(content + l.content, len + l.len))
    case Err(e) => Err(e)
  }

  /** Reads the text after an opening quote up to and including the closing one. */
  function StringBody(s: string): (r: Result<Literal, LexError>)
    ensures r.Ok? ==> 1 <= r.value.len <= |s|
    decreases |s|
  {
    if s == "" then Err(UnterminatedString)
    else if s[0] == '"' then Ok(Literal("", 1))
    else if s[0] == '\\' then
      if |s| == 1 then Err(UnterminatedEscape)
      else match Unescape(s[1])
        case None => Err(UnknownEscape(s[1]))
        case Some(c) => Prepend([c], 2, StringBody(s[2..]))
    else Prepend([s[0]], 1, StringBody(s[1..]))
  }

  // ----- numbers -----

  datatype NumberSpan = NumberSpan(len: nat, digits: bool)

  /** An optional minus, digits, and optionally a dot with more digits. */
  function NumberAt(s: string): (r: NumberSpan)
    requires s != ""
    ensures r.len <= |s| && (r.digits ==> r.len > 0)
  {
    var start := if s[0] == '-' then 1 else 0;
    var whole := RunEnd(s, start, IsDigit);
    var end := if whole < |s| && s[whole] == '.' then RunEnd(s, whole + 1, IsDigit) else whole;
    NumberSpan(end, whole > start || end > whole + 1)
  }

  // ----- tokens -----

  datatype Scan = Skip | Tok(token: Token, len: nat) | Fail(error: LexError)

  function Word(name: string): Token {
    if name == "true" then TTrue
    else if name == "false" then TFalse
    else if name == "null" then TNull
    else TIdent(name)
  }

  predicate Then(s: string, c: char) {
    |s| > 1 && s[1] == c
  }

  function ScanOne(s: string): (r: Scan)
    requires s != ""
    ensures r.Tok? ==> 1 <= r.len <= |s|
  {
    var c := s[0];
    if IsSpace(c) then Skip
    else if c == '(' then Tok(TLParen, 1)
    else if c == ')' then Tok(TRParen, 1)
    else if c == '.' then Tok(TDot, 1)
    else if c == '=' then if Then(s, '=') then Tok(TCmp(Eq), 2) else Fail(LoneChar(c))
    else if c == '!' then if Then(s, '=') then Tok(TCmp(Neq), 2) else Tok(TNot, 1)
    else if c == '<' then if Then(s, '=') then Tok(TCmp(Le), 2) else Tok(TCmp(Lt), 1)
    else if c == '>' then if Then(s, '=') then Tok(TCmp(Ge), 2) else Tok(TCmp(Gt), 1)
    else if c == '&' then if Then(s, '&') then Tok(TAnd, 2) else Fail(LoneChar(c))
    else if c == '|' then if Then(s, '|') then Tok(TOr, 2) else Fail(LoneChar(c))
    else if c == '"' then
      match StringBody(s[1..])
      case Ok(l) => Tok(TStr(l.content), 1 + l.len)
      case Err(e) => Fail(e)
    else if c == '-' || IsDigit(c) then
      var n := NumberAt(s);
      if n.digits then Tok(TNum(s[..n.len]), n.len) else Fail(BadNumber)
    else if IsIdentStart(c) then
      var end := RunEnd(s, 1, IsIdentChar);
      Tok(Word(s[..end]), end)
    else Fail(LoneChar(c))
  }

  function PrependTokens(ts: seq<Token>, r: Result<seq<Token>, LexError>): Result<seq<Token>, LexError> {
    match r
    case Ok(rest) => Ok(ts + rest)
    case Err(e) => Err(e)
  }

  function LexText(s: string): Result<seq<Token>, LexError>
    decreases |s|
  {
    if s == "" then Ok([])
    else
      match ScanOne(s)
      case Skip => LexText(s[1..])
      case Fail(e) => Err(e)
      case Tok(t, n) => PrependTokens([t], LexText(s[n..]))
  }

  // ----- the lexer's loops -----

  method LexString(src: string, from: nat) returns (r: Result<Literal, LexError>)
    requires from < |src| && src[from] == '"'
    ensures r == StringBody(src[from + 1..])
  {
    var out := "";
    var i := from + 1;
    PrependNothing(StringBody(src[i..]));
    while i < |src|
      invariant from < i <= |src|
      invariant StringBody(src[from + 1..]) == ReadOn(src, from, i, out)
      decreases |src| - i
    {
      if src[i] == '"' {
        QuoteTaken(src, from, i, out);
        return Ok(Literal(out, i - from));
      } else if src[i] == '\\' {
        if i + 1 >= |src| {
          EscapeRefused(src, from, i, out);
          return Err(UnterminatedEscape);
        }
        var c := Unescape(src[i + 1]);
        if c.None? {
          EscapeRefused(src, from, i, out);
          return Err(UnknownEscape(src[i + 1]));
        }
        EscapeTaken(src, from, i, out);
        out := out + [c.value];
        i := i + 2;
      } else {
        CharTaken(src, from, i, out);
        out := out + [src[i]];
        i := i + 1;
      }
    }
    return Err(UnterminatedString);
  }

  lemma DropDrop(s: string, i: nat, n: nat)
    requires i + n <= |s|
    ensures s[i..][n..] == s[i + n..]
  {
  }

  /** What the body of the literal at `from` is, once `out` has been read up to `i`. */
  ghost function ReadOn(src: string, from: nat, i: nat, out: string): Result<Literal, LexError>
    requires from < i <= |src|
  {
    Prepend(out, i - from - 1, StringBody(src[i..]))
  }

  lemma QuoteTaken(src: string, from: nat, i: nat, out: string)
    requires from < i < |src| && src[i] == '"'
    ensures ReadOn(src, from, i, out) == Ok(Literal(out, i - from))
  {
    assert out + "" == out;
  }

  lemma EscapeRefused(src: string, from: nat, i: nat, out: string)
    requires from < i < |src| && src[i] == '\\' && (i + 1 == |src| || Unescape(src[i + 1]).None?)
    ensures ReadOn(src, from, i, out)
            == Err(if i + 1 == |src| then UnterminatedEscape else UnknownEscape(src[i + 1]))
  {
  }

  lemma EscapeTaken(src: string, from: nat, i: nat, out: string)
    requires from < i < |src| - 1 && src[i] == '\\' && Unescape(src[i + 1]).Some?
    ensures ReadOn(src, from, i, out) == ReadOn(src, from, i + 2, out + [Unescape(src[i + 1]).value])
  {
    DropDrop(src, i, 2);
    PrependTwice(out, i - from - 1, [Unescape(src[i + 1]).value], 2, StringBody(src[i + 2..]));
  }

  lemma CharTaken(src: string, from: nat, i: nat, out: string)
    requires from < i < |src| && src[i] != '\\' && src[i] != '"'
    ensures ReadOn(src, from, i, out) == ReadOn(src, from, i + 1, out + [src[i]])
  {
    DropDrop(src, i, 1);
    PrependTwice(out, i - from - 1, [src[i]], 1, StringBody(src[i + 1..]));
  }

  lemma PrependNothing(r: Result<Literal, LexError>)
    ensures Prepend("", 0, r) == r
  {
    if r.Ok? {
      assert "" + r.value.content == r.value.content;
    }
  }

  lemma PrependTwice(a: string, m: nat, b: string, n: nat, r: Result<Literal, LexError>)
    ensures Prepend(a, m, Prepend(b, n, r)) == Prepend(a + b, m + n, r)
  {
    if r.Ok? {
      assert a + (b + r.value.content) == a + b + r.value.content;
    }
  }

  method SkipRun(src: string, from: nat, i0: nat, ok: char -> bool) returns (i: nat)
    requires from + i0 <= |src|
    ensures i == RunEnd(src[from..], i0, ok)
  {
    i := i0;
    while from + i < |src| && ok(src[from + i])
      invariant from + i <= |src|
      invariant RunEnd(src[from..], i0, ok) == RunEnd(src[from..], i, ok)
      decreases |src| - i
    {
      i := i + 1;
    }
  }

  method LexNumber(src: string, from: nat) returns (r: Result<NumberSpan, LexError>)
    requires from < |src|
    ensures var n := NumberAt(src[from..]); r == if n.digits then Ok(n) else Err(BadNumber)
  {
    var start := if src[from] == '-' then 1 else 0;
    var whole := SkipRun(src, from, start, IsDigit);
    var end := whole;
    if from + whole < |src| && src[from + whole] == '.' {
      end := SkipRun(src, from, whole + 1, IsDigit);
    }
    if whole == start && end <= whole + 1 {
      return Err(BadNumber);
    }
    return Ok(NumberSpan(end, true));
  }

  method LexWord(src: string, from: nat) returns (name: string)
    requires from < |src| && IsIdentStart(src[from])
    ensures name == src[from..][..RunEnd(src[from..], 1, IsIdentChar)]
  {
    var end := SkipRun(src, from, 1, IsIdentChar);
    name := src[from..from + end];
    assert name == src[from..][..end];
  }

  /** The character after position `i` is `c`. */
  predicate Ahead(src: string, i: nat, c: char) {
    i + 1 < |src| && src[i + 1] == c
  }

  method LexSymbol(src: string, i: nat) returns (r: Scan)
    requires i < |src|
    requires src[i] != '"' && src[i] != '-' && !IsDigit(src[i]) && !IsIdentStart(src[i])
    ensures r == ScanOne(src[i..])
  {
    match src[i] {
      case ' ' | '\t' | '\n' | '\r' => r := Skip;
      case '(' => r := Tok(TLParen, 1);
      case ')' => r := Tok(TRParen, 1);
      case '.' => r := Tok(TDot, 1);
      case '=' => r := if Ahead(src, i, '=') then Tok(TCmp(Eq), 2) else Fail(LoneChar('='));
      case '!' => r := if Ahead(src, i, '=') then Tok(TCmp(Neq), 2) else Tok(TNot, 1);
      case '<' => r := if Ahead(src, i, '=') then Tok(TCmp(Le), 2) else Tok(TCmp(Lt), 1);
      case '>' => r := if Ahead(src, i, '=') then Tok(TCmp(Ge), 2) else Tok(TCmp(Gt), 1);
      case '&' => r := if Ahead(src, i, '&') then Tok(TAnd, 2) else Fail(LoneChar('&'));
      case '|' => r := if Ahead(src, i, '|') then Tok(TOr, 2) else Fail(LoneChar('|'));
      case c => r := Fail(LoneChar(c));
    }
  }

  method LexOne(src: string, i: nat) returns (r: Scan)
    requires i < |src|
    ensures r == ScanOne(src[i..])
  {
    var c := src[i];
    assert src[i..][0] == c && src[i..][1..] == src[i + 1..];
    if c == '"' {
      var l := LexString(src, i);
      r := if l.Ok? then Tok(TStr(l.value.content), 1 + l.value.len) else Fail(l.error);
    } else if c == '-' || IsDigit(c) {
      var n := LexNumber(src, i);
      r := if n.Ok? then Tok(TNum(src[i..][..n.value.len]), n.value.len) else Fail(n.error);
    } else if IsIdentStart(c) {
      var name := LexWord(src, i);
      r := Tok(Word(name), |name|);
    } else {
      r := LexSymbol(src, i);
    }
  }

  method Lex(src: string) returns (r: Result<seq<Token>, LexError>)
    ensures r == LexText(src)
  {
    var tokens: seq<Token> := [];
    var i := 0;
    NothingRead(src);
    while i < |src|
      invariant 0 <= i <= |src|
      invariant LexText(src) == LexOn(src, i, tokens)
      decreases |src| - i
    {
      var scan := LexOne(src, i);
      if scan.Fail? {
        ScanFails(src, i, tokens);
        return Err(scan.error);
      } else if scan.Tok? {
        ScanTakes(src, i, tokens);
        tokens := tokens + [scan.token];
        i := i + scan.len;
      } else {
        ScanSkips(src, i, tokens);
        i := i + 1;
      }
    }
    AllRead(src, tokens);
    return Ok(tokens);
  }

  /** What the tokens of the text are, once `tokens` have been read up to `i`. */
  ghost function LexOn(src: string, i: nat, tokens: seq<Token>): Result<seq<Token>, LexError>
    requires i <= |src|
  {
    PrependTokens(tokens, LexText(src[i..]))
  }

  lemma NothingRead(src: string)
    ensures LexText(src) == LexOn(src, 0, [])
  {
    assert src[0..] == src;
    TokensAround([], LexText(src));
  }

  lemma AllRead(src: string, tokens: seq<Token>)
    ensures LexOn(src, |src|, tokens) == Ok(tokens)
  {
    assert src[|src|..] == "" && tokens + [] == tokens;
  }

  lemma ScanFails(src: string, i: nat, tokens: seq<Token>)
    requires i < |src| && ScanOne(src[i..]).Fail?
    ensures LexOn(src, i, tokens) == Err(ScanOne(src[i..]).error)
  {
  }

  lemma ScanSkips(src: string, i: nat, tokens: seq<Token>)
    requires i < |src| && ScanOne(src[i..]).Skip?
    ensures LexOn(src, i, tokens) == LexOn(src, i + 1, tokens)
  {
    DropDrop(src, i, 1);
  }

  lemma ScanTakes(src: string, i: nat, tokens: seq<Token>)
    requires i < |src| && ScanOne(src[i..]).Tok?
    ensures var scan := ScanOne(src[i..]);
            LexOn(src, i, tokens) == LexOn(src, i + scan.len, tokens + [scan.token])
  {
    var scan := ScanOne(src[i..]);
    DropDrop(src, i, scan.len);
    TokensTwice(tokens, [scan.token], LexText(src[i + scan.len..]));
  }

  lemma TokensAround(ts: seq<Token>, r: Result<seq<Token>, LexError>)
    requires ts == []
    ensures PrependTokens(ts, r) == r
  {
    if r.Ok? {
      assert ts + r.value == r.value;
    }
  }

  lemma TokensTwice(a: seq<Token>, b: seq<Token>, r: Result<seq<Token>, LexError>)
    ensures PrependTokens(a, PrependTokens(b, r)) == PrependTokens(a + b, r)
  {
    if r.Ok? {
      assert a + (b + r.value) == a + b + r.value;
    }
  }
}
