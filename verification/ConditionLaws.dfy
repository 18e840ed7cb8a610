/**
 What conditions mean, said of numbers, characters and fields: comparison of values, the number a
 literal stands for, what a reference finds, which characters make up a token, and which texts and
 token lists are refused with which error.
 */
module ConditionLaws {
  import opened Prelude
  import V = Values
  import opened ConditionSyntax
  import opened ConditionLexer
  import opened ConditionEval

  // ----- comparison -----

  /** The value is a number, integer or not, equal to `x`. */
  predicate IsReal(v: V.Value, x: real) {
    v == V.Num(V.Float(x)) || (v.Num? && v.n.Int? && v.n.i as real == x)
  }

  predicate Compares(op: CmpOp, x: real, y: real) {
    match op
    case Eq => x == y
    case Neq => x != y
    case Lt => x < y
    case Le => x <= y
    case Gt => x > y
    case Ge => x >= y
  }

  /** Two numbers compare by value, whether they are integers or not. */
  lemma NumbersCompare(
      op: CmpOp, a: Atom, b: Atom, event: V.Event, context: Option<V.Context>, x: real, y: real)
    requires EvalAtom(a, event, context).Ok? && IsReal(EvalAtom(a, event, context).value, x)
    requires EvalAtom(b, event, context).Ok? && IsReal(EvalAtom(b, event, context).value, y)
    ensures EvalExpr(Cmp(op, a, b), event, context) == Ok(V.Bool(Compares(op, x, y)))
  {
  }

  /** Anything else can be compared for equality only, which is structural; ordering it is an error. */
  lemma OthersCompare(op: CmpOp, a: Atom, b: Atom, event: V.Event, context: Option<V.Context>)
    requires EvalAtom(a, event, context).Ok? && EvalAtom(b, event, context).Ok?
    requires !EvalAtom(a, event, context).value.Num? || !EvalAtom(b, event, context).value.Num?
    ensures var x, y := EvalAtom(a, event, context).value, EvalAtom(b, event, context).value;
            EvalExpr(Cmp(op, a, b), event, context)
            == if op == Eq then Ok(V.Bool(x == y)) else if op == Neq then Ok(V.Bool(x != y)) else Err(NotNumeric)
  {
  }

  /** A comparison fails when an operand does, and a condition is true only as a boolean. */
  lemma ErrorsSpread(op: CmpOp, a: Atom, b: Atom, e: Expr, event: V.Event, context: Option<V.Context>)
    ensures EvalAtom(a, event, context).Err? || EvalAtom(b, event, context).Err? ==>
              EvalExpr(Cmp(op, a, b), event, context).Err?
    ensures forall v :: Eval(e, event, context) == Ok(v) <==> EvalExpr(e, event, context) == Ok(V.Bool(v))
  {
  }

  /** Literals stand for themselves, a group for what is inside. */
  lemma AtomsEvaluate(s: string, text: string, v: bool, e: Expr, event: V.Event, context: Option<V.Context>)
    ensures EvalAtom(Str(s), event, context) == Ok(V.Str(s))
    ensures EvalAtom(Bool(v), event, context) == Ok(V.Bool(v))
    ensures EvalAtom(Null, event, context) == Ok(V.Null)
    ensures EvalAtom(Group(e), event, context) == EvalExpr(e, event, context)
    ensures EvalAtom(Lit(text), event, context).Ok? && IsReal(EvalAtom(Lit(text), event, context).value, Denotes(text))
  {
  }

  // ----- what a number literal denotes -----

  predicate AllDigits(s: string) {
    forall k :: 0 <= k < |s| ==> '0' <= s[k] <= '9'
  }

  function Digit(c: char): real {
    (c as int - '0' as int) as real
  }

  /** A run of `ok` characters up to a place where it cannot go on ends there. */
  lemma {:induction false} RunIs(s: string, i: nat, j: nat, ok: char -> bool)
    requires i <= j <= |s| && (forall k :: i <= k < j ==> ok(s[k])) && (j < |s| ==> !ok(s[j]))
    ensures RunEnd(s, i, ok) == j
    decreases j - i
  {
    if i == j {
    } else {
      RunIs(s, i + 1, j, ok);
    }
  }

  /** What follows the digits does not count. */
  lemma {:induction false} DigitsThen(w: string, rest: string, i: nat, acc: real)
    requires AllDigits(w) && i <= |w| && (rest != "" ==> !('0' <= rest[0] <= '9'))
    ensures DigitsFrom(w + rest, i, acc) == DigitsFrom(w, i, acc)
    decreases |w| - i
  {
    if i == |w| {
    } else {
      DigitsThen(w, rest, i + 1, acc * 10.0 + Digit(w[i]));
    }
  }

  lemma {:induction false} DigitsSnoc(w: string, d: char, i: nat, acc: real)
    requires AllDigits(w) && '0' <= d <= '9' && i <= |w|
    ensures DigitsFrom(w + [d], i, acc) == 10.0 * DigitsFrom(w, i, acc) + Digit(d)
    decreases |w| - i
  {
    if i == |w| {
      assert DigitsFrom(w + [d], i + 1, acc * 10.0 + Digit(d)) == acc * 10.0 + Digit(d);
    } else {
      DigitsSnoc(w, d, i + 1, acc * 10.0 + Digit(w[i]));
    }
  }

  lemma {:induction false} FractionScales(text: string, i: nat, unit: real)
    ensures FractionFrom(text, i, 10.0 * unit) == 10.0 * FractionFrom(text, i, unit)
    decreases |text| - i
  {
    if i >= |text| || !IsDigit(text[i]) {
    } else {
      FractionScales(text, i + 1, unit / 10.0);
      TimesTen(Digit(text[i]), unit);
    }
  }

  lemma TimesTen(d: real, unit: real)
    ensures d * (10.0 * unit) == 10.0 * (d * unit)
  {
  }

  /** The fraction depends on what stands from there on. */
  lemma {:induction false} FractionShifts(a: string, i: nat, b: string, j: nat, unit: real)
    requires i <= |a| && j <= |b| && a[i..] == b[j..]
    ensures FractionFrom(a, i, unit) == FractionFrom(b, j, unit)
    decreases |a| - i
  {
    assert |a| - i == |b| - j;
    if i == |a| {
    } else {
      assert a[i] == a[i..][0] == b[j];
      assert a[i + 1..] == a[i..][1..] == b[j + 1..];
      FractionShifts(a, i + 1, b, j + 1, unit / 10.0);
    }
  }

  /** A single digit denotes itself. */
  lemma DigitDenotes(d: char)
    requires '0' <= d <= '9'
    ensures Denotes([d]) == Digit(d)
  {
    DigitsSnoc("", d, 0, 0.0);
    assert "" + [d] == [d];
    RunIs([d], 0, 1, IsDigit);
  }

  lemma WholeDenotes(w: string)
    requires w != "" && AllDigits(w)
    ensures Denotes(w) == DigitsFrom(w, 0, 0.0)
  {
    RunIs(w, 0, |w|, IsDigit);
  }

  /** A digit appended makes ten times as much and that digit. */
  lemma DigitAppended(w: string, d: char)
    requires w != "" && AllDigits(w) && '0' <= d <= '9'
    ensures Denotes(w + [d]) == 10.0 * Denotes(w) + Digit(d)
  {
    WholeDenotes(w);
    WholeDenotes(w + [d]);
    DigitsSnoc(w, d, 0, 0.0);
  }

  lemma DottedDenotes(w: string, f: string)
    requires AllDigits(w)
    ensures Denotes(w + "." + f) == DigitsFrom(w, 0, 0.0) + FractionFrom(f, 0, 1.0 / 10.0)
  {
    var text := w + "." + f;
    assert text == w + ("." + f);
    assert text[|w|] == '.' && text[0] != '-';
    RunIs(text, 0, |w|, IsDigit);
    DigitsThen(w, "." + f, 0, 0.0);
    FractionShifts(text, |w| + 1, f, 0, 1.0 / 10.0);
  }

  /** A dot at the end changes nothing. */
  lemma DotEnds(w: string)
    requires w != "" && AllDigits(w)
    ensures Denotes(w + ".") == Denotes(w)
  {
    DottedDenotes(w, "");
    assert w + "." + "" == w + ".";
    WholeDenotes(w);
  }

  /** Moving the dot past a digit makes ten times as much. */
  lemma DotMoves(w: string, d: char, f: string)
    requires AllDigits(w) && '0' <= d <= '9' && AllDigits(f)
    ensures Denotes((w + [d]) + "." + f) == 10.0 * Denotes(w + "." + ([d] + f))
  {
    DottedDenotes(w + [d], f);
    DottedDenotes(w, [d] + f);
    DigitsSnoc(w, d, 0, 0.0);
    assert ([d] + f)[0] == d;
    FractionShifts([d] + f, 1, f, 0, 1.0 / 100.0);
    FractionScales(f, 0, 1.0 / 100.0);
  }

  lemma {:induction false} ShiftDigits(text: string, i: nat, acc: real)
    ensures DigitsFrom("-" + text, i + 1, acc) == DigitsFrom(text, i, acc)
    decreases |text| - i
  {
    if i >= |text| || !IsDigit(text[i]) {
    } else {
      ShiftDigits(text, i + 1, acc * 10.0 + Digit(text[i]));
    }
  }

  lemma {:induction false} ShiftRun(text: string, i: nat)
    requires i <= |text|
    ensures RunEnd("-" + text, i + 1, IsDigit) == RunEnd(text, i, IsDigit) + 1
    decreases |text| - i
  {
    if i == |text| || !IsDigit(text[i]) {
    } else {
      ShiftRun(text, i + 1);
    }
  }

  /** A minus sign in front negates. */
  lemma MinusDenotes(text: string)
    requires text != "" && text[0] != '-'
    ensures Denotes("-" + text) == -Denotes(text)
  {
    var whole := RunEnd(text, 0, IsDigit);
    ShiftDigits(text, 0, 0.0);
    ShiftRun(text, 0);
    if whole < |text| {
      FractionShifts("-" + text, whole + 2, text, whole + 1, 1.0 / 10.0);
    }
  }

  // ----- references -----

  /** One field of the payload, or null. */
  lemma FieldFound(k: string, event: V.Event, context: Option<V.Context>)
    ensures ResolveRef(["event", k], event, context)
            == if event.payload.Obj? && k in event.payload.fields then event.payload.fields[k] else V.Null
  {
    var path := ["event", k];
    assert path[1..] == [k];
    match V.Get(event.payload, k)
    case None => assert Walk(event.payload, [k]) == V.Null;
    case Some(v) =>
      assert [k][1..] == [];
      assert Walk(v, []) == v;
  }

  lemma {:induction false} WalkConcat(v: V.Value, a: seq<string>, b: seq<string>)
    ensures Walk(v, a + b) == Walk(Walk(v, a), b)
    decreases |a|
  {
    if a == [] {
      assert a + b == b;
    } else {
      ConcatTail(a, b);
      match V.Get(v, a[0])
      case Some(next) => WalkConcat(next, a[1..], b);
      case None => NullWalks(b);
    }
  }

  lemma NullWalks(b: seq<string>)
    ensures Walk(V.Null, b) == V.Null
  {
  }

  /** A longer path goes on from what the shorter one finds. */
  lemma PathsCompose(a: seq<string>, b: seq<string>, event: V.Event, context: Option<V.Context>)
    requires a != [] && b != []
    ensures ResolveRef(["event"] + a + b, event, context)
            == ResolveRef(["event"] + b, event.(payload := ResolveRef(["event"] + a, event, context)), context)
  {
    assert (["event"] + a + b)[1..] == a + b && (["event"] + a)[1..] == a && (["event"] + b)[1..] == b;
    WalkConcat(event.payload, a, b);
  }

  /** Three fields of the context are visible, each under its own name and no deeper; any other
      reference is null. */
  lemma ContextFound(path: seq<string>, event: V.Event, cx: V.Context)
    requires path != [] && path[0] != "event"
    ensures ResolveRef(path, event, None) == V.Null
    ensures ResolveRef(path, event, Some(cx))
            == if path == ["context", "active_panel"] && cx.activePanel.Some? then V.Str(cx.activePanel.value)
               else if path == ["context", "active_cwd"] && cx.activeCwd.Some? then V.Str(cx.activeCwd.value)
               else if path == ["context", "presence"] then V.Str(if cx.presence == V.Active then "active" else "away")
               else V.Null
  {
    assert |path| == 2 ==> path == [path[0], path[1]];
  }

  // ----- characters -----

  predicate IsLetter(c: char) {
    'a' <= c <= 'z' || 'A' <= c <= 'Z'
  }

  /** Names are made of letters, underscores and, after the first character, digits. */
  lemma NameChars(c: char)
    ensures IsDigit(c) <==> '0' <= c <= '9'
    ensures IsIdentStart(c) <==> IsLetter(c) || c == '_'
    ensures IsIdentChar(c) <==> IsLetter(c) || c == '_' || '0' <= c <= '9'
  {
  }

  /** Four characters separate tokens and mean nothing else. */
  lemma SpaceSkipped(c: char, s: string)
    requires c in " \t\n\r"
    ensures LexText([c] + s) == LexText(s)
  {
    assert ([c] + s)[1..] == s;
  }

  /** A name is read to its end; three names are literals. */
  lemma NameLexes(name: string, rest: string)
    requires name != "" && (IsLetter(name[0]) || name[0] == '_')
    requires forall k :: 0 <= k < |name| ==> IsLetter(name[k]) || name[k] == '_' || '0' <= name[k] <= '9'
    requires rest != "" ==> !IsLetter(rest[0]) && rest[0] != '_' && !('0' <= rest[0] <= '9')
    ensures ScanOne(name + rest)
            == Tok(if name == "true" then TTrue else if name == "false" then TFalse else if name == "null" then TNull
                   else TIdent(name), |name|)
  {
    var s := name + rest;
    assert s[0] == name[0] && s[..|name|] == name;
    RunIs(s, 1, |name|, IsIdentChar);
  }

  function Sign(minus: bool): string {
    if minus then "-" else ""
  }

  function Dotted(dot: bool, f: string): string {
    if dot then "." + f else ""
  }

  predicate DigitsIn(s: string, i: nat, j: nat) {
    i <= j <= |s| && forall k :: i <= k < j ==> '0' <= s[k] <= '9'
  }

  /** How far a number goes, by positions. */
  lemma NumberSpans(s: string, start: nat, whole: nat, end: nat)
    requires s != "" && start == (if s[0] == '-' then 1 else 0)
    requires DigitsIn(s, start, whole) && (whole < |s| ==> !('0' <= s[whole] <= '9'))
    requires if whole < |s| && s[whole] == '.'
             then DigitsIn(s, whole + 1, end) && (end < |s| ==> !('0' <= s[end] <= '9'))
             else end == whole
    ensures NumberAt(s) == NumberSpan(end, whole > start || end > whole + 1)
  {
    RunIs(s, start, whole, IsDigit);
    if whole < |s| && s[whole] == '.' {
      RunIs(s, whole + 1, end, IsDigit);
    }
  }

  lemma DigitsAt(a: string, w: string, b: string)
    requires AllDigits(w)
    ensures DigitsIn(a + w + b, |a|, |a| + |w|)
  {
  }

  lemma WholeGoes(sign: string, w: string, rest: string)
    requires AllDigits(w) && (sign == "-" || (sign == "" && w != ""))
    requires rest != "" ==> !('0' <= rest[0] <= '9') && rest[0] != '.'
    ensures var s := sign + w + rest; s != "" && NumberAt(s) == NumberSpan(|sign + w|, w != "")
  {
    DigitsAt(sign, w, rest);
    NumberSpans(sign + w + rest, |sign|, |sign + w|, |sign + w|);
  }

  lemma DottedGoes(sign: string, w: string, f: string, rest: string)
    requires AllDigits(w) && AllDigits(f) && (sign == "-" || (sign == "" && w != ""))
    requires rest != "" ==> !('0' <= rest[0] <= '9')
    ensures var s := sign + w + ("." + f) + rest;
            s != "" && NumberAt(s) == NumberSpan(|sign + w + ("." + f)|, w != "" || f != "")
  {
    var s := sign + w + ("." + f) + rest;
    DigitsAt(sign, w, ("." + f) + rest);
    ConcatAssoc(sign + w, "." + f, rest);
    DigitsAt(sign + w + ".", f, rest);
    assert sign + w + ("." + f) == sign + w + "." + f;
    assert s[|sign + w|] == '.';
    NumberSpans(s, |sign|, |sign + w|, |sign + w + "." + f|);
  }

  lemma NumberGoes(minus: bool, w: string, dot: bool, f: string, rest: string)
    requires AllDigits(w) && AllDigits(f) && (!dot ==> f == "")
    requires rest != "" ==> !('0' <= rest[0] <= '9') && (!dot ==> rest[0] != '.')
    requires !minus ==> w != ""
    ensures var number := Sign(minus) + w + Dotted(dot, f);
            number + rest != "" && NumberAt(number + rest) == NumberSpan(|number|, w != "" || f != "")
  {
    if dot {
      DottedGoes(Sign(minus), w, f, rest);
    } else {
      WholeGoes(Sign(minus), w, rest);
      AppendNothing(Sign(minus) + w);
    }
  }

  lemma NumberStarts(s: string)
    requires s != "" && (s[0] == '-' || '0' <= s[0] <= '9')
    ensures ScanOne(s) == if NumberAt(s).digits then Tok(TNum(s[..NumberAt(s).len]), NumberAt(s).len)
                          else Fail(BadNumber)
  {
  }

  /** An optional minus, digits and optionally a dot with more digits make a number, as far as they go;
      without any digit they are refused. */
  lemma NumberLexes(minus: bool, w: string, dot: bool, f: string, rest: string)
    requires AllDigits(w) && AllDigits(f) && (!dot ==> f == "")
    requires rest != "" ==> !('0' <= rest[0] <= '9') && (!dot ==> rest[0] != '.')
    requires !minus ==> w != ""
    ensures var number := Sign(minus) + w + Dotted(dot, f);
            number + rest != ""
            && ScanOne(number + rest) == if w == "" && f == "" then Fail(BadNumber) else Tok(TNum(number), |number|)
  {
    var number := Sign(minus) + w + Dotted(dot, f);
    var s := number + rest;
    NumberGoes(minus, w, dot, f, rest);
    assert s[0] == if minus then '-' else w[0];
    NumberStarts(s);
    assert s[..|number|] == number;
  }

  // ----- refused texts -----

  /** `=`, `&` and `|` only come in pairs, and a character that starts no token is refused. */
  lemma LoneCharRefused(c: char, rest: string)
    requires c in "=&|" ==> rest == "" || rest[0] != c
    requires c !in " \t\n\r().!<>-_" && c != '"' && !IsLetter(c) && !('0' <= c <= '9')
    ensures LexText([c] + rest) == Err(LoneChar(c))
  {
    NameChars(c);
  }

  /** Five characters may follow a backslash. */
  lemma EscapesExactly(c: char, rest: string)
    ensures StringBody(['\\', c] + rest)
            == if c == '"' then Prepend("\"", 2, StringBody(rest))
               else if c == '\\' then Prepend("\\", 2, StringBody(rest))
               else if c == 'n' then Prepend("\n", 2, StringBody(rest))
               else if c == 't' then Prepend("\t", 2, StringBody(rest))
               else if c == 'r' then Prepend("\r", 2, StringBody(rest))
               else Err(UnknownEscape(c))
    ensures StringBody("") == Err(UnterminatedString) && StringBody("\\") == Err(UnterminatedEscape)
  {
    assert (['\\', c] + rest)[2..] == rest;
  }

  // ----- refused token lists -----

  /** What an operand may not be. */
  lemma OperandRefused(t: seq<Token>, i: nat)
    requires i <= |t|
    ensures i == |t| ==> ParseAtom(t, i) == Bad(EndOfInput)
    ensures i < |t| && (t[i].TCmp? || t[i] in [TAnd, TOr, TNot, TDot, TRParen]) ==>
              ParseAtom(t, i) == Bad(Unexpected(t[i]))
    ensures i < |t| && t[i].TIdent? && !At(t, i + 1, TDot) ==> ParseAtom(t, i) == Bad(BareIdent(t[i].name))
    ensures i < |t| && t[i].TIdent? && At(t, i + 1, TDot) && (i + 2 == |t| || !t[i + 2].TIdent?) ==>
              ParseAtom(t, i) == Bad(ExpectedIdent)
  {
  }

  /** A dotted name starts with `event` or `context`. */
  lemma RootRefused(first: string, second: string, rest: seq<Token>)
    requires first != "event" && first != "context" && (rest != [] ==> rest[0] != TDot)
    ensures ParseAtom([TIdent(first), TDot, TIdent(second)] + rest, 0) == Bad(BadRoot(first))
  {
    var t := [TIdent(first), TDot, TIdent(second)] + rest;
    assert !At(t, 3, TDot);
    assert PathTail(t, [first, second], 3) == Got([first, second], 3);
    assert [first] + [second] == [first, second];
  }

  /** A parenthesis must be closed, and nothing may follow a whole condition. */
  lemma RestRefused(t: seq<Token>, i: nat)
    requires i < |t|
    ensures t[i] == TLParen && ParseOr(t, i + 1).Got? && !At(t, ParseOr(t, i + 1).pos, TRParen) ==>
              ParseAtom(t, i) == Bad(ExpectedRParen)
    ensures ParseOr(t, 0).Got? && ParseOr(t, 0).pos < |t| ==> ParseTokens(t) == Err(Trailing(ParseOr(t, 0).pos))
  {
  }
}
