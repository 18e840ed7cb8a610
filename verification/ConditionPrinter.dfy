/**
 Printing a syntax tree back to tokens. The parser accepts a token list with result `e` exactly
 when `e` respects the precedence levels and prints to that list.
 */
module ConditionPrinter {
  import opened Prelude
  import opened ConditionSyntax

  function Print(e: Expr): (r: seq<Token>)
    ensures r != []
  {
    match e
    case Or(l, r) => Print(l) + [TOr] + Print(r)
    case And(l, r) => Print(l) + [TAnd] + Print(r)
    case Not(x) => [TNot] + Print(x)
    case Cmp(op, a, b) => PrintAtom(a) + [TCmp(op)] + PrintAtom(b)
    case Leaf(a) => PrintAtom(a)
  }

  function PrintAtom(a: Atom): (r: seq<Token>)
    ensures r != []
  {
    match a
    case Ref(path) => PrintPath(path)
    case Str(s) => [TStr(s)]
    case Lit(text) => [TNum(text)]
    case Bool(v) => [if v then TTrue else TFalse]
    case Null => [TNull]
    case Group(e) => [TLParen] + Print(e) + [TRParen]
  }

  function PrintPath(path: seq<string>): (r: seq<Token>)
    ensures r != []
  {
    if |path| <= 1 then [TIdent(if path == [] then "" else path[0])]
    else [TIdent(path[0])] + DottedPath(path[1..])
  }

  function DottedPath(path: seq<string>): seq<Token> {
    if path == [] then [] else [TDot, TIdent(path[0])] + DottedPath(path[1..])
  }

  // ----- the precedence levels -----

  predicate OrLevel(e: Expr)
    decreases e, 2
  {
    match e
    case Or(l, r) => OrLevel(l) && AndLevel(r)
    case _ => AndLevel(e)
  }

  predicate AndLevel(e: Expr)
    decreases e, 1
  {
    match e
    case And(l, r) => AndLevel(l) && NotLevel(r)
    case _ => NotLevel(e)
  }

  predicate NotLevel(e: Expr)
    decreases e, 0
  {
    match e
    case Not(x) => NotLevel(x)
    case Cmp(_, a, b) => WellFormed(a) && WellFormed(b)
    case Leaf(a) => WellFormed(a)
    case _ => false
  }

  predicate WellFormed(a: Atom) {
    match a
    case Ref(path) => |path| >= 2 && (path[0] == "event" || path[0] == "context")
    case Group(e) => OrLevel(e)
    case _ => true
  }

  // ----- what may follow a complete phrase without being drawn into it -----

  predicate AfterAtom(t: seq<Token>, i: nat) {
    !At(t, i, TDot)
  }

  predicate AfterNot(t: seq<Token>, i: nat) {
    AfterAtom(t, i) && !CmpAt(t, i)
  }

  predicate AfterAnd(t: seq<Token>, i: nat) {
    AfterNot(t, i) && !At(t, i, TAnd)
  }

  /** The tokens at `i..j` are `p`. */
  predicate Reads(t: seq<Token>, i: nat, p: seq<Token>, j: nat) {
    i + |p| == j <= |t| && t[i..j] == p
  }

  lemma ReadsConcat(t: seq<Token>, i: nat, p: seq<Token>, m: nat, q: seq<Token>, j: nat)
    requires i + |p| == m
    ensures Reads(t, i, p + q, j) <==> Reads(t, i, p, m) && Reads(t, m, q, j)
  {
    if Reads(t, i, p + q, j) {
      assert p == (p + q)[..|p|] == t[i..m];
      assert q == (p + q)[|p|..] == t[m..j];
    }
    if Reads(t, i, p, m) && Reads(t, m, q, j) {
      assert t[i..j] == t[i..m] + t[m..j];
    }
  }

  lemma ReadsInfix(t: seq<Token>, i: nat, p: seq<Token>, m: nat, tok: Token, q: seq<Token>, j: nat)
    requires i + |p| == m && Reads(t, i, p + [tok] + q, j)
    ensures Reads(t, i, p, m) && At(t, m, tok) && m < |t| && Reads(t, m + 1, q, j)
  {
    ReadsConcat(t, i, p + [tok], m + 1, q, j);
    ReadsConcat(t, i, p, m, [tok], m + 1);
  }

  // ----- everything parsed prints back -----

  lemma ParseOrSound(t: seq<Token>, i: nat)
    requires i <= |t| && ParseOr(t, i).Got?
    ensures var g := ParseOr(t, i); OrLevel(g.v) && Reads(t, i, Print(g.v), g.pos)
    decreases |t| - i, 5
  {
    ParseAndSound(t, i);
    var g := ParseAnd(t, i);
    OrTailSound(t, i, g.v, g.pos);
  }

  lemma {:induction false} OrTailSound(t: seq<Token>, start: nat, l: Expr, i: nat)
    requires start <= i <= |t| && OrTail(t, l, i).Got?
    requires OrLevel(l) && Reads(t, start, Print(l), i)
    ensures var g := OrTail(t, l, i); OrLevel(g.v) && Reads(t, start, Print(g.v), g.pos)
    decreases |t| - i, 5
  {
    if !At(t, i, TOr) {
    } else {
      ParseAndSound(t, i + 1);
      var g := ParseAnd(t, i + 1);
      ReadsConcat(t, start, Print(l), i, [TOr], i + 1);
      ReadsConcat(t, start, Print(l) + [TOr], i + 1, Print(g.v), g.pos);
      OrTailSound(t, start, Or(l, g.v), g.pos);
    }
  }

  lemma ParseAndSound(t: seq<Token>, i: nat)
    requires i <= |t| && ParseAnd(t, i).Got?
    ensures var g := ParseAnd(t, i); AndLevel(g.v) && OrLevel(g.v) && Reads(t, i, Print(g.v), g.pos)
    decreases |t| - i, 4
  {
    ParseNotSound(t, i);
    var g := ParseNot(t, i);
    AndTailSound(t, i, g.v, g.pos);
    assert !ParseAnd(t, i).v.Or?;
  }

  lemma {:induction false} AndTailSound(t: seq<Token>, start: nat, l: Expr, i: nat)
    requires start <= i <= |t| && AndTail(t, l, i).Got?
    requires AndLevel(l) && Reads(t, start, Print(l), i)
    ensures var g := AndTail(t, l, i); AndLevel(g.v) && Reads(t, start, Print(g.v), g.pos)
    decreases |t| - i, 4
  {
    if !At(t, i, TAnd) {
    } else {
      ParseNotSound(t, i + 1);
      var g := ParseNot(t, i + 1);
      ReadsConcat(t, start, Print(l), i, [TAnd], i + 1);
      ReadsConcat(t, start, Print(l) + [TAnd], i + 1, Print(g.v), g.pos);
      AndTailSound(t, start, And(l, g.v), g.pos);
    }
  }

  lemma {:induction false} ParseNotSound(t: seq<Token>, i: nat)
    requires i <= |t| && ParseNot(t, i).Got?
    ensures var g := ParseNot(t, i); NotLevel(g.v) && AndLevel(g.v) && Reads(t, i, Print(g.v), g.pos)
    decreases |t| - i, 3
  {
    if At(t, i, TNot) {
      ParseNotSound(t, i + 1);
      var g := ParseNot(t, i + 1);
      ReadsConcat(t, i, [TNot], i + 1, Print(g.v), g.pos);
    } else {
      ParseCmpSound(t, i);
    }
  }

  lemma ParseCmpSound(t: seq<Token>, i: nat)
    requires i <= |t| && ParseCmp(t, i).Got?
    ensures var g := ParseCmp(t, i); NotLevel(g.v) && AndLevel(g.v) && Reads(t, i, Print(g.v), g.pos)
    decreases |t| - i, 2
  {
    ParseAtomSound(t, i);
    var a := ParseAtom(t, i);
    if CmpAt(t, a.pos) {
      ParseAtomSound(t, a.pos + 1);
      var b := ParseAtom(t, a.pos + 1);
      var op := TCmp(t[a.pos].op);
      ReadsConcat(t, i, PrintAtom(a.v), a.pos, [op], a.pos + 1);
      ReadsConcat(t, i, PrintAtom(a.v) + [op], a.pos + 1, PrintAtom(b.v), b.pos);
    }
  }

  lemma ParseAtomSound(t: seq<Token>, i: nat)
    requires i <= |t| && ParseAtom(t, i).Got?
    ensures var g := ParseAtom(t, i); WellFormed(g.v) && Reads(t, i, PrintAtom(g.v), g.pos)
    decreases |t| - i, 1
  {
    if t[i].TLParen? {
      ParseOrSound(t, i + 1);
      var g := ParseOr(t, i + 1);
      ReadsConcat(t, i, [TLParen], i + 1, Print(g.v), g.pos);
      ReadsConcat(t, i, [TLParen] + Print(g.v), g.pos, [TRParen], g.pos + 1);
    } else if t[i].TIdent? {
      var path := [t[i].name];
      PathTailSound(t, path, i + 1);
      var g := PathTail(t, path, i + 1);
      ReadsConcat(t, i, [t[i]], i + 1, DottedPath(g.v[1..]), g.pos);
    }
  }

  lemma {:induction false} PathTailSound(t: seq<Token>, path: seq<string>, i: nat)
    requires i <= |t| && PathTail(t, path, i).Got?
    ensures var g := PathTail(t, path, i);
            path <= g.v && Reads(t, i, DottedPath(g.v[|path|..]), g.pos)
    decreases |t| - i
  {
    var g := PathTail(t, path, i);
    if !At(t, i, TDot) {
    } else {
      var name := t[i + 1].name;
      PathTailSound(t, path + [name], i + 2);
      assert g.v[|path|..] == [name] + g.v[|path| + 1..];
      assert DottedPath(g.v[|path|..]) == [TDot, TIdent(name)] + DottedPath(g.v[|path| + 1..]);
      assert Reads(t, i, [TDot, TIdent(name)], i + 2);
      ReadsConcat(t, i, [TDot, TIdent(name)], i + 2, DottedPath(g.v[|path| + 1..]), g.pos);
    }
  }

  // ----- everything printed parses back -----

  /** The parser, having read the whole of `e`, is in its `||` loop with `e` on the left. */
  lemma {:induction false} ParseOrComplete(e: Expr, t: seq<Token>, i: nat, j: nat)
    requires OrLevel(e) && Reads(t, i, Print(e), j) && AfterAnd(t, j)
    ensures ParseOr(t, i) == OrTail(t, e, j)
    decreases e, 3
  {
    if e.Or? {
      var m := i + |Print(e.l)|;
      ReadsInfix(t, i, Print(e.l), m, TOr, Print(e.r), j);
      ParseOrComplete(e.l, t, i, m);
      ParseAndComplete(e.r, t, m + 1, j);
    } else {
      ParseAndComplete(e, t, i, j);
    }
  }

  lemma ParseAndComplete(e: Expr, t: seq<Token>, i: nat, j: nat)
    requires AndLevel(e) && Reads(t, i, Print(e), j) && AfterAnd(t, j)
    ensures ParseAnd(t, i) == Got(e, j)
    decreases e, 2
  {
    AndLoopComplete(e, t, i, j);
  }

  lemma {:induction false} AndLoopComplete(e: Expr, t: seq<Token>, i: nat, j: nat)
    requires AndLevel(e) && Reads(t, i, Print(e), j) && AfterNot(t, j)
    ensures ParseAnd(t, i) == AndTail(t, e, j)
    decreases e, 1
  {
    if e.And? {
      var m := i + |Print(e.l)|;
      ReadsInfix(t, i, Print(e.l), m, TAnd, Print(e.r), j);
      AndLoopComplete(e.l, t, i, m);
      ParseNotComplete(e.r, t, m + 1, j);
    } else {
      ParseNotComplete(e, t, i, j);
    }
  }

  lemma {:induction false} ParseNotComplete(e: Expr, t: seq<Token>, i: nat, j: nat)
    requires NotLevel(e) && Reads(t, i, Print(e), j) && AfterNot(t, j)
    ensures ParseNot(t, i) == Got(e, j)
    decreases e, 0, 1
  {
    if e.Not? {
      ReadsConcat(t, i, [TNot], i + 1, Print(e.e), j);
      ParseNotComplete(e.e, t, i + 1, j);
    } else {
      ParseCmpComplete(e, t, i, j);
    }
  }

  lemma {:induction false} ParseCmpComplete(e: Expr, t: seq<Token>, i: nat, j: nat)
    requires NotLevel(e) && !e.Not? && Reads(t, i, Print(e), j) && AfterNot(t, j)
    ensures ParseCmp(t, i) == Got(e, j) && !At(t, i, TNot)
    decreases e, 0, 0
  {
    if e.Cmp? {
      var m := i + |PrintAtom(e.a)|;
      ReadsInfix(t, i, PrintAtom(e.a), m, TCmp(e.op), PrintAtom(e.b), j);
      ParseAtomComplete(e.a, t, i, m);
      ParseAtomComplete(e.b, t, m + 1, j);
    } else {
      ParseAtomComplete(e.atom, t, i, j);
    }
  }

  lemma {:induction false} ParseAtomComplete(a: Atom, t: seq<Token>, i: nat, j: nat)
    requires WellFormed(a) && Reads(t, i, PrintAtom(a), j) && AfterAtom(t, j)
    ensures ParseAtom(t, i) == Got(a, j)
    decreases a, 9
  {
    if a.Group? {
      var m := j - 1;
      ReadsConcat(t, i, [TLParen] + Print(a.inner), m, [TRParen], j);
      ReadsConcat(t, i, [TLParen], i + 1, Print(a.inner), m);
      assert t[i..i + 1][0] == TLParen && t[m..j][0] == TRParen;
      ParseOrComplete(a.inner, t, i + 1, m);
    } else if a.Ref? {
      ParsePathComplete(a.path, t, i, j);
    }
  }

  lemma ParsePathComplete(path: seq<string>, t: seq<Token>, i: nat, j: nat)
    requires WellFormed(Ref(path)) && Reads(t, i, PrintAtom(Ref(path)), j) && AfterAtom(t, j)
    ensures ParseAtom(t, i) == Got(Ref(path), j)
  {
    ReadsConcat(t, i, [TIdent(path[0])], i + 1, DottedPath(path[1..]), j);
    PathTailComplete(t, path, 1, i + 1, j);
    assert path[..1] == [path[0]];
  }

  lemma {:induction false} PathTailComplete(t: seq<Token>, path: seq<string>, k: nat, i: nat, j: nat)
    requires k <= |path| && Reads(t, i, DottedPath(path[k..]), j) && AfterAtom(t, j)
    ensures PathTail(t, path[..k], i) == Got(path, j)
    decreases |path| - k
  {
    if k == |path| {
      assert path[..k] == path;
    } else {
      var name := path[k];
      assert path[k..][1..] == path[k + 1..];
      ReadsConcat(t, i, [TDot, TIdent(name)], i + 2, DottedPath(path[k + 1..]), j);
      assert t[i..i + 2] == [TDot, TIdent(name)];
      assert t[i] == t[i..i + 2][0] && t[i + 1] == t[i..i + 2][1];
      assert path[..k] + [name] == path[..k + 1];
      PathTailComplete(t, path, k + 1, i + 2, j);
    }
  }

  // ----- main results -----

  /** Parsing accepts `t` with result `e` exactly when `e` respects precedence and prints to `t`. */
  lemma ParseInvertsPrint(t: seq<Token>, e: Expr)
    ensures ParseTokens(t) == Ok(e) <==> OrLevel(e) && Print(e) == t
  {
    if ParseTokens(t) == Ok(e) {
      ParseOrSound(t, 0);
      assert t[0..|t|] == t;
    }
    if OrLevel(e) && Print(e) == t {
      assert t[0..|t|] == t;
      ParseOrComplete(e, t, 0, |t|);
    }
  }

  /** No token list has two readings. */
  lemma Unambiguous(e: Expr, f: Expr)
    requires OrLevel(e) && OrLevel(f) && Print(e) == Print(f)
    ensures e == f
  {
    ParseInvertsPrint(Print(e), e);
    ParseInvertsPrint(Print(e), f);
  }
}
