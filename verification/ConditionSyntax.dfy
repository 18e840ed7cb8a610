/**
 The condition language: its tokens, its syntax trees and the recursive-descent parser. The
 functions are the parser's specification, the class is the parser that moves a position over the
 token list.
 */
module ConditionSyntax {
  import opened Prelude

  datatype CmpOp = Eq | Neq | Lt | Le | Gt | Ge

  datatype Expr =
    | Or(l: Expr, r: Expr)
    | And(l: Expr, r: Expr)
    | Not(e: Expr)
    | Cmp(op: CmpOp, a: Atom, b: Atom)
    | Leaf(atom: Atom)

  /** `Lit` keeps the text of a number literal. */
  datatype Atom =
    | Ref(path: seq<string>)
    | Str(s: string)
    | Lit(text: string)
    | Bool(v: bool)
    | Null
    | Group(inner: Expr)

  datatype Token =
    | TIdent(name: string)
    | TStr(s: string)
    | TNum(text: string)
    | TTrue | TFalse | TNull
    | TCmp(op: CmpOp)
    | TAnd | TOr | TNot | TDot | TLParen | TRParen

  datatype ParseError =
    | Trailing(pos: nat)
    | ExpectedRParen
    | ExpectedIdent
    | BareIdent(name: string)
    | BadRoot(name: string)
    | Unexpected(token: Token)
    | EndOfInput

  datatype Parsed<+T> = Got(v: T, pos: nat) | Bad(error: ParseError)

  predicate At(t: seq<Token>, i: nat, tok: Token) {
    i < |t| && t[i] == tok
  }

  predicate CmpAt(t: seq<Token>, i: nat) {
    i < |t| && t[i].TCmp?
  }

  function ParseOr(t: seq<Token>, i: nat): (r: Parsed<Expr>)
    requires i <= |t|
    ensures r.Got? ==> i < r.pos <= |t|
    decreases |t| - i, 5
  {
    match ParseAnd(t, i)
    case Bad(e) => Bad(e)
    case Got(l, j) => OrTail(t, l, j)
  }

  function OrTail(t: seq<Token>, l: Expr, i: nat): (r: Parsed<Expr>)
    requires i <= |t|
    ensures r.Got? ==> i <= r.pos <= |t|
    decreases |t| - i, 5
  {
    if At(t, i, TOr) then
      match ParseAnd(t, i + 1)
      case Bad(e) => Bad(e)
      case Got(r, j) => OrTail(t, Or(l, r), j)
    else Got(l, i)
  }

  function ParseAnd(t: seq<Token>, i: nat): (r: Parsed<Expr>)
    requires i <= |t|
    ensures r.Got? ==> i < r.pos <= |t|
    decreases |t| - i, 4
  {
    match ParseNot(t, i)
    case Bad(e) => Bad(e)
    case Got(l, j) => AndTail(t, l, j)
  }

  function AndTail(t: seq<Token>, l: Expr, i: nat): (r: Parsed<Expr>)
    requires i <= |t|
    ensures r.Got? ==> i <= r.pos <= |t|
    decreases |t| - i, 4
  {
    if At(t, i, TAnd) then
      match ParseNot(t, i + 1)
      case Bad(e) => Bad(e)
      case Got(r, j) => AndTail(t, And(l, r), j)
    else Got(l, i)
  }

  function ParseNot(t: seq<Token>, i: nat): (r: Parsed<Expr>)
    requires i <= |t|
    ensures r.Got? ==> i < r.pos <= |t|
    decreases |t| - i, 3
  {
    if At(t, i, TNot) then
      match ParseNot(t, i + 1)
      case Bad(e) => Bad(e)
      case Got(inner, j) => Got(Not(inner), j)
    else ParseCmp(t, i)
  }

  function ParseCmp(t: seq<Token>, i: nat): (r: Parsed<Expr>)
    requires i <= |t|
    ensures r.Got? ==> i < r.pos <= |t|
    decreases |t| - i, 2
  {
    match ParseAtom(t, i)
    case Bad(e) => Bad(e)
    case Got(a, j) =>
      if CmpAt(t, j) then
        match ParseAtom(t, j + 1)
        case Bad(e) => Bad(e)
        case Got(b, k) => Got(Cmp(t[j].op, a, b), k)
      else Got(Leaf(a), j)
  }

  function ParseAtom(t: seq<Token>, i: nat): (r: Parsed<Atom>)
    requires i <= |t|
    ensures r.Got? ==> i < r.pos <= |t|
    decreases |t| - i, 1
  {
    if i == |t| then Bad(EndOfInput)
    else
      match t[i]
      case TStr(s) => Got(Str(s), i + 1)
      case TNum(text) => Got(Lit(text), i + 1)
      case TTrue => Got(Bool(true), i + 1)
      case TFalse => Got(Bool(false), i + 1)
      case TNull => Got(Null, i + 1)
      case TLParen =>
        (match ParseOr(t, i + 1)
         case Bad(e) => Bad(e)
         case Got(inner, j) => if At(t, j, TRParen) then Got(Group(inner), j + 1) else Bad(ExpectedRParen))
      case TIdent(first) =>
        (match PathTail(t, [first], i + 1)
         case Bad(e) => Bad(e)
         case Got(path, j) =>
           if |path| == 1 then Bad(BareIdent(first))
           else if first != "event" && first != "context" then Bad(BadRoot(first))
           else Got(Ref(path), j))
      case other => Bad(Unexpected(other))
  }

  function PathTail(t: seq<Token>, path: seq<string>, i: nat): (r: Parsed<seq<string>>)
    requires i <= |t|
    ensures r.Got? ==> i <= r.pos <= |t| && path <= r.v && (|r.v| == |path| ==> r.v == path)
    decreases |t| - i, 0
  {
    if At(t, i, TDot) then
      if i + 1 < |t| && t[i + 1].TIdent? then PathTail(t, path + [t[i + 1].name], i + 2)
      else Bad(ExpectedIdent)
    else Got(path, i)
  }

  function ParseTokens(t: seq<Token>): Result<Expr, ParseError> {
    match ParseOr(t, 0)
    case Bad(e) => Err(e)
    case Got(e, j) => if j < |t| then Err(Trailing(j)) else Ok(e)
  }

  // ----- the parser -----

  /** The outcome a method reports, together with where it leaves the position. */
  predicate Agrees<T(==)>(spec: Parsed<T>, r: Result<T, ParseError>, pos: nat) {
    match spec
    case Got(v, j) => r == Ok(v) && pos == j
    case Bad(e) => r == Err(e)
  }

  class Parser {
    const tokens: seq<Token>
    var pos: nat

    constructor (t: seq<Token>)
      ensures tokens == t && pos == 0
    {
      tokens, pos := t, 0;
    }

    method Disjunction() returns (r: Result<Expr, ParseError>)
      requires pos <= |tokens|
      modifies this
      ensures old(pos) <= pos <= |tokens| && Agrees(ParseOr(tokens, old(pos)), r, pos)
      decreases |tokens| - pos, 5
    {
      r := Conjunction();
      ghost var start := old(pos);
      while r.Ok? && At(tokens, pos, TOr)
        invariant start <= pos <= |tokens| && (r.Ok? ==> start < pos)
        invariant ParseOr(tokens, start)
                  == if r.Ok? then OrTail(tokens, r.value, pos) else Bad(r.error)
        decreases r.Ok?, |tokens| - pos
      {
        pos := pos + 1;
        var rhs := Conjunction();
        r := if rhs.Ok? then Ok(Or(r.value, rhs.value)) else rhs;
      }
    }

    method Conjunction() returns (r: Result<Expr, ParseError>)
      requires pos <= |tokens|
      modifies this
      ensures old(pos) <= pos <= |tokens| && Agrees(ParseAnd(tokens, old(pos)), r, pos)
      decreases |tokens| - pos, 4
    {
      r := Negation();
      ghost var start := old(pos);
      while r.Ok? && At(tokens, pos, TAnd)
        invariant start <= pos <= |tokens| && (r.Ok? ==> start < pos)
        invariant ParseAnd(tokens, start)
                  == if r.Ok? then AndTail(tokens, r.value, pos) else Bad(r.error)
        decreases r.Ok?, |tokens| - pos
      {
        pos := pos + 1;
        var rhs := Negation();
        r := if rhs.Ok? then Ok(And(r.value, rhs.value)) else rhs;
      }
    }

    method Negation() returns (r: Result<Expr, ParseError>)
      requires pos <= |tokens|
      modifies this
      ensures old(pos) <= pos <= |tokens| && Agrees(ParseNot(tokens, old(pos)), r, pos)
      decreases |tokens| - pos, 3
    {
      if At(tokens, pos, TNot) {
        pos := pos + 1;
        r := Negation();
        if r.Ok? {
          r := Ok(Not(r.value));
        }
        return;
      }
      r := Comparison();
    }

    method Comparison() returns (r: Result<Expr, ParseError>)
      requires pos <= |tokens|
      modifies this
      ensures old(pos) <= pos <= |tokens| && Agrees(ParseCmp(tokens, old(pos)), r, pos)
      decreases |tokens| - pos, 2
    {
      var a := Operand();
      if a.Err? {
        return Err(a.error);
      }
      if !CmpAt(tokens, pos) {
        return Ok(Leaf(a.value));
      }
      var op := tokens[pos].op;
      pos := pos + 1;
      var b := Operand();
      r := if b.Ok? then Ok(Cmp(op, a.value, b.value)) else Err(b.error);
    }

    method Operand() returns (r: Result<Atom, ParseError>)
      requires pos <= |tokens|
      modifies this
      ensures old(pos) <= pos <= |tokens| && Agrees(ParseAtom(tokens, old(pos)), r, pos)
      decreases |tokens| - pos, 1
    {
      if pos == |tokens| {
        return Err(EndOfInput);
      }
      var token := tokens[pos];
      pos := pos + 1;
      match token {
        case TStr(s) => return Ok(Str(s));
        case TNum(text) => return Ok(Lit(text));
        case TTrue => return Ok(Bool(true));
        case TFalse => return Ok(Bool(false));
        case TNull => return Ok(Null);
        case TLParen =>
          var inner := Disjunction();
          if inner.Err? {
            return Err(inner.error);
          }
          if !At(tokens, pos, TRParen) {
            return Err(ExpectedRParen);
          }
          pos := pos + 1;
          return Ok(Group(inner.value));
        case TIdent(first) =>
          r := Reference(first);
        case _ => return Err(Unexpected(token));
      }
    }

    /** The dotted rest of a reference whose first name was just read. */
    method Reference(first: string) returns (r: Result<Atom, ParseError>)
      requires 1 <= pos <= |tokens| && tokens[pos - 1] == TIdent(first)
      modifies this
      ensures old(pos) <= pos <= |tokens| && Agrees(ParseAtom(tokens, old(pos) - 1), r, pos)
      decreases |tokens| - pos, 0
    {
      var path := [first];
      ghost var start := pos;
      while At(tokens, pos, TDot)
        invariant start <= pos <= |tokens| && path != [] && path[0] == first
        invariant PathTail(tokens, [first], start) == PathTail(tokens, path, pos)
        decreases |tokens| - pos
      {
        if pos + 1 == |tokens| || !tokens[pos + 1].TIdent? {
          return Err(ExpectedIdent);
        }
        path := path + [tokens[pos + 1].name];
        pos := pos + 2;
      }
      if |path| == 1 {
        return Err(BareIdent(first));
      }
      if first != "event" && first != "context" {
        return Err(BadRoot(first));
      }
      return Ok(Ref(path));
    }
  }

  method Parse(t: seq<Token>) returns (r: Result<Expr, ParseError>)
    ensures r == ParseTokens(t)
  {
    var p := new Parser(t);
    r := p.Disjunction();
    if r.Ok? && p.pos < |t| {
      r := Err(Trailing(p.pos));
    }
  }
}
