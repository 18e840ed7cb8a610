/**
 Filling `{event.X}`, `{action_result.X}` and `{context.X}` tokens in trigger parameters. A template
 string is a list of plain and token segments; substitution is per segment and never looks again
 at text it inserted.
 */
module Interpolation {
  import opened Prelude
  import opened Values

  /** What tokens may refer to. `json` writes a value that is neither string nor null. */
  datatype Env = Env(event: Event, context: Option<Context>, actionResult: Option<Value>, json: Value -> string)

  // ----- paths -----

  /** The first position of `c` at or after `i`, or the length. */
  function Find(s: string, c: char, i: nat): (r: nat)
    requires i <= |s|
    ensures i <= r <= |s|
    decreases |s| - i
  {
    if i == |s| || s[i] == c then i else Find(s, c, i + 1)
  }

  lemma FindIsFirst(s: string, c: char, i: nat)
    requires i <= |s|
    ensures Find(s, c, i) < |s| ==> s[Find(s, c, i)] == c
    ensures forall k :: i <= k < Find(s, c, i) ==> s[k] != c
    decreases |s| - i
  {
  }

  function SplitDots(s: string): (r: seq<string>)
    ensures r != []
    decreases |s|
  {
    var dot := Find(s, '.', 0);
    if dot == |s| then [s] else [s[..dot]] + SplitDots(s[dot + 1..])
  }

  function WalkPath(v: Value, path: seq<string>): Option<Value> {
    if path == [] then Some(v)
    else match Get(v, path[0])
      case None => None
      case Some(next) => WalkPath(next, path[1..])
  }

  function ResolvePath(root: Value, field: string): Option<Value> {
    WalkPath(root, SplitDots(field))
  }

  function TopLevel(field: string, event: Event): Option<Value> {
    if field == "kind" then Some(Str(event.kind))
    else if field == "source" then Some(Str(event.source))
    else if field == "timestamp_ms" then Some(Num(Int(event.timestampMs)))
    else None
  }

  function After(prefix: string, s: string): Option<string> {
    if prefix <= s then Some(s[|prefix|..]) else None
  }

  /** Payload keys win over the event's own fields. */
  function EventValue(field: string, event: Event): Option<Value> {
    var v := ResolvePath(event.payload, field);
    if v.Some? then v else TopLevel(field, event)
  }

  function ActionValue(field: string, env: Env): Option<Value> {
    if env.actionResult.Some? then ResolvePath(env.actionResult.value, field) else None
  }

  /** The value a token stands for, keeping its type; context tokens have none. */
  function ResolveValue(token: string, env: Env): Option<Value> {
    var event, action := After("event.", token), After("action_result.", token);
    if event.Some? then EventValue(event.value, env.event)
    else if action.Some? then ActionValue(action.value, env)
    else None
  }

  function ScalarText(v: Value, env: Env): string {
    if v.Str? then v.s else if v.Null? then "null" else env.json(v)
  }

  function ContextText(field: string, env: Env): Option<string> {
    if env.context.None? then None
    else if field == "active_panel" then env.context.value.activePanel
    else if field == "active_cwd" then env.context.value.activeCwd
    else None
  }

  function Shown(v: Option<Value>, env: Env): Option<string> {
    if v.Some? then Some(ScalarText(v.value, env)) else None
  }

  function ResolveText(token: string, env: Env): Option<string> {
    var event, action, context :=
      After("event.", token), After("action_result.", token), After("context.", token);
    if event.Some? then Shown(EventValue(event.value, env.event), env)
    else if action.Some? then Shown(ActionValue(action.value, env), env)
    else if context.Some? then ContextText(context.value, env)
    else None
  }

  // ----- segments -----

  /** The first `{token}` of a string with what stands before and after it. */
  datatype Cut = Whole | Cut(head: string, token: string, tail: string)

  /** The cut of a string whose first brace is at `open`. */
  function CutAt(s: string, open: nat): (c: Cut)
    requires open < |s|
    ensures c.Cut? ==> |c.tail| < |s|
  {
    var after := s[open + 1..];
    var close := Find(after, '}', 0);
    if close == |after| then Whole else Cut(s[..open], after[..close], after[close + 1..])
  }

  function FirstToken(s: string): (c: Cut)
    ensures c.Cut? ==> |c.tail| < |s|
  {
    var open := Find(s, '{', 0);
    if open == |s| then Whole else CutAt(s, open)
  }

  datatype Segment = Plain(text: string) | Token(name: string)

  function Segments(s: string): seq<Segment>
    decreases |s|
  {
    match FirstToken(s)
    case Whole => [Plain(s)]
    case Cut(head, token, tail) => [Plain(head)] + ([Token(token)] + Segments(tail))
  }

  function Source(g: Segment): string {
    match g
    case Plain(text) => text
    case Token(name) => "{" + name + "}"
  }

  /** An unresolvable token stays as written. */
  function Filled(g: Segment, env: Env): string {
    if g.Token? && ResolveText(g.name, env).Some? then ResolveText(g.name, env).value else Source(g)
  }

  function Sources(gs: seq<Segment>): string {
    if gs == [] then "" else Source(gs[0]) + Sources(gs[1..])
  }

  function Fill(gs: seq<Segment>, env: Env): string {
    if gs == [] then "" else Filled(gs[0], env) + Fill(gs[1..], env)
  }

  /** Segment-by-segment substitution. */
  function Interpolated(s: string, env: Env): string {
    Fill(Segments(s), env)
  }

  /** One turn of the loop: plain text up to a token, the token, and the rest. */
  lemma InterpolatedStep(s: string, env: Env)
    ensures var c := FirstToken(s);
            Interpolated(s, env)
            == if c.Whole? then s else c.head + (Filled(Token(c.token), env) + Interpolated(c.tail, env))
  {
    var c := FirstToken(s);
    if c.Whole? {
      assert Fill([Plain(s)], env) == s + Fill([], env);
    } else {
      FillCons(Plain(c.head), [Token(c.token)] + Segments(c.tail), env);
      FillCons(Token(c.token), Segments(c.tail), env);
    }
  }

  lemma FillCons(g: Segment, gs: seq<Segment>, env: Env)
    ensures Fill([g] + gs, env) == Filled(g, env) + Fill(gs, env)
  {
  }

  method InterpolateString(s: string, env: Env) returns (result: string)
    ensures result == Interpolated(s, env)
  {
    result := "";
    var rest := s;
    while Find(rest, '{', 0) < |rest|
      invariant Interpolated(s, env) == result + Interpolated(rest, env)
      decreases |rest|
    {
      var open := Find(rest, '{', 0);
      var cut := CutAt(rest, open);
      InterpolatedStep(rest, env);
      if cut.Whole? {
        result := result + rest;
        return;
      }
      var value := ResolveText(cut.token, env);
      var filling := if value.Some? then value.value else "{" + cut.token + "}";
      Regroup(result, cut.head, filling, Interpolated(cut.tail, env));
      result := result + cut.head + filling;
      rest := cut.tail;
    }
    InterpolatedStep(rest, env);
    result := result + rest;
  }

  lemma Regroup(a: string, b: string, c: string, d: string)
    ensures a + (b + (c + d)) == a + b + c + d
  {
  }

  // ----- what it means -----

  lemma CutIsTheString(s: string)
    requires FirstToken(s).Cut?
    ensures var c := FirstToken(s); s == c.head + (("{" + c.token + "}") + c.tail)
  {
    FindIsFirst(s, '{', 0);
    FindIsFirst(s[Find(s, '{', 0) + 1..], '}', 0);
  }

  lemma SourcesCons(g: Segment, gs: seq<Segment>)
    ensures Sources([g] + gs) == Source(g) + Sources(gs)
  {
  }

  /** The segments are the template, cut up. */
  lemma {:induction false} SegmentsAreTheTemplate(s: string)
    ensures Sources(Segments(s)) == s
    decreases |s|
  {
    var c := FirstToken(s);
    if c.Whole? {
      assert Sources([Plain(s)]) == s + Sources([]);
    } else {
      SegmentsAreTheTemplate(c.tail);
      CutIsTheString(s);
      SourcesCons(Plain(c.head), [Token(c.token)] + Segments(c.tail));
      SourcesCons(Token(c.token), Segments(c.tail));
    }
  }

  lemma {:induction false} UnresolvedFillsSource(gs: seq<Segment>, env: Env)
    requires forall g :: g in gs && g.Token? ==> ResolveText(g.name, env).None?
    ensures Fill(gs, env) == Sources(gs)
  {
    if gs == [] {
    } else {
      assert gs[0] in gs;
      UnresolvedFillsSource(gs[1..], env);
    }
  }

  /** When none of its tokens resolves, a template is left exactly as it is. */
  lemma UnresolvedIsIdentity(s: string, env: Env)
    requires forall g :: g in Segments(s) && g.Token? ==> ResolveText(g.name, env).None?
    ensures Interpolated(s, env) == s
  {
    SegmentsAreTheTemplate(s);
    UnresolvedFillsSource(Segments(s), env);
  }

  /** `s` ends outside any token, so text appended to it cannot close a brace opened in it. */
  predicate Closed(s: string)
    decreases |s|
  {
    match FirstToken(s)
    case Whole => Find(s, '{', 0) == |s|
    case Cut(_, _, tail) => Closed(tail)
  }

  lemma {:induction false} FindConcat(a: string, b: string, c: char, i: nat)
    requires i <= |a|
    ensures Find(a, c, i) < |a| ==> Find(a + b, c, i) == Find(a, c, i)
    ensures Find(a, c, i) == |a| ==> Find(a + b, c, i) == |a| + Find(b, c, 0)
    decreases |a| - i
  {
    if i == |a| {
      FindShift(a, b, c, 0);
    } else if a[i] != c {
      FindConcat(a, b, c, i + 1);
    }
  }

  lemma {:induction false} FindShift(a: string, b: string, c: char, i: nat)
    requires i <= |b|
    ensures Find(a + b, c, |a| + i) == |a| + Find(b, c, i)
    decreases |b| - i
  {
    if i == |b| || b[i] == c {
    } else {
      FindShift(a, b, c, i + 1);
    }
  }

  /** Text after a token leaves the token alone. */
  lemma CutConcat(a: string, b: string)
    requires FirstToken(a).Cut?
    ensures var c := FirstToken(a); FirstToken(a + b) == Cut(c.head, c.token, c.tail + b)
  {
    var open := Find(a, '{', 0);
    FindConcat(a, b, '{', 0);
    var after := a[open + 1..];
    assert (a + b)[open + 1..] == after + b;
    assert (a + b)[..open] == a[..open];
    var close := Find(after, '}', 0);
    FindConcat(after, b, '}', 0);
    assert (after + b)[..close] == after[..close];
    assert (after + b)[close + 1..] == after[close + 1..] + b;
  }

  lemma SliceConcat(a: string, b: string, k: nat)
    requires k <= |b|
    ensures (a + b)[..|a| + k] == a + b[..k] && (a + b)[|a| + k..] == b[k..]
  {
  }

  lemma CutAtShift(a: string, b: string, open: nat)
    requires open < |b|
    ensures var c := CutAt(b, open);
            CutAt(a + b, |a| + open) == if c.Whole? then Whole else Cut(a + c.head, c.token, c.tail)
  {
    SliceConcat(a, b, open);
    SliceConcat(a, b, open + 1);
  }

  /** Text without a brace only lengthens the head. */
  lemma PlainConcat(a: string, b: string)
    requires Find(a, '{', 0) == |a|
    ensures var c := FirstToken(b);
            FirstToken(a + b) == if c.Whole? then Whole else Cut(a + c.head, c.token, c.tail)
  {
    FindConcat(a, b, '{', 0);
    CutShift(a, b, Find(b, '{', 0), a + b);
  }

  lemma CutShift(a: string, b: string, open: nat, s: string)
    requires s == a + b && open == Find(b, '{', 0) && |a| + open == Find(s, '{', 0)
    ensures var c := FirstToken(b);
            FirstToken(s) == if c.Whole? then Whole else Cut(a + c.head, c.token, c.tail)
  {
    if open < |b| {
      CutAtShift(a, b, open);
    }
  }

  lemma AppendTail(head: string, filling: string, rest: string, b: string)
    ensures head + (filling + (rest + b)) == head + (filling + rest) + b
  {
  }

  lemma PlainPiecewise(a: string, b: string, env: Env)
    requires Find(a, '{', 0) == |a|
    ensures Interpolated(a + b, env) == a + Interpolated(b, env)
  {
    var c, d := FirstToken(b), FirstToken(a + b);
    assert d == if c.Whole? then Whole else Cut(a + c.head, c.token, c.tail) by {
      PlainConcat(a, b);
    }
    InterpolatedStep(b, env);
    InterpolatedStep(a + b, env);
    if c.Cut? {
      HeadConcat(a, c.head, Filled(Token(c.token), env) + Interpolated(c.tail, env));
    }
  }

  lemma HeadConcat(a: string, head: string, rest: string)
    ensures a + head + rest == a + (head + rest)
  {
  }

  /** Substitution is single-pass: text after a closed template is substituted on its own,
      whatever the template inserted before it. */
  lemma {:induction false} InterpolatesPiecewise(a: string, b: string, env: Env)
    requires Closed(a)
    ensures Interpolated(a + b, env) == Interpolated(a, env) + Interpolated(b, env)
    decreases |a|
  {
    InterpolatedStep(a, env);
    var c := FirstToken(a);
    if c.Whole? {
      PlainPiecewise(a, b, env);
    } else {
      CutConcat(a, b);
      InterpolatedStep(a + b, env);
      InterpolatesPiecewise(c.tail, b, env);
      AppendTail(c.head, Filled(Token(c.token), env), Interpolated(c.tail, env), Interpolated(b, env));
    }
  }

  // ----- values -----

  /** Every string inside a value, interpolated; keys are left alone. */
  function InterpolatedValue(v: Value, env: Env): Value
    decreases v
  {
    match v
    case Str(s) => Str(Interpolated(s, env))
    case Arr(items) => Arr(seq(|items|, i requires 0 <= i < |items| => InterpolatedValue(items[i], env)))
    case Obj(fields) => Obj(map k | k in fields :: InterpolatedValue(fields[k], env))
    case _ => v
  }

  /** The name inside a string that is exactly one token. */
  function SingleToken(s: string): Option<string> {
    if |s| >= 2 && s[0] == '{' && s[|s| - 1] == '}' && '{' !in s[1..|s| - 1] && '}' !in s[1..|s| - 1]
    then Some(s[1..|s| - 1])
    else None
  }

  function TypedString(s: string, env: Env): Value {
    if SingleToken(s).Some? && ResolveValue(SingleToken(s).value, env).Some?
    then ResolveValue(SingleToken(s).value, env).value
    else Str(Interpolated(s, env))
  }

  /** Like `InterpolatedValue`, but a string that is exactly one token keeps the value's type. */
  function TypedValue(v: Value, env: Env): Value
    decreases v
  {
    match v
    case Str(s) => TypedString(s, env)
    case Arr(items) => Arr(seq(|items|, i requires 0 <= i < |items| => TypedValue(items[i], env)))
    case Obj(fields) => Obj(map k | k in fields :: TypedValue(fields[k], env))
    case _ => v
  }

  lemma SingleTokenCut(s: string)
    requires SingleToken(s).Some?
    ensures FirstToken(s) == Cut("", SingleToken(s).value, "")
  {
    var after := s[1..];
    assert Find(s, '{', 0) == 0;
    FindIsFirst(after, '}', 0);
    var close := Find(after, '}', 0);
    assert after[|after| - 1] == '}';
    forall k | 0 <= k < |after| - 1
      ensures after[k] != '}'
    {
      assert after[k] == s[1..|s| - 1][k];
    }
    assert after[..close] == s[1..|s| - 1];
  }

  lemma TypedStringText(s: string, env: Env)
    ensures Interpolated(s, env) == ScalarText(TypedString(s, env), env)
  {
    if SingleToken(s).Some? {
      SingleTokenCut(s);
      InterpolatedStep(s, env);
      InterpolatedStep("", env);
    }
  }

  /** `plain` is `typed` with each filled-in string leaf of the template written as text. */
  predicate LeafwiseText(template: Value, typed: Value, plain: Value, env: Env)
    decreases template
  {
    match template
    case Str(_) => plain == Str(ScalarText(typed, env))
    case Arr(items) =>
      typed.Arr? && plain.Arr? && |typed.items| == |plain.items| == |items|
      && forall i :: 0 <= i < |items| ==> LeafwiseText(items[i], typed.items[i], plain.items[i], env)
    case Obj(fields) =>
      typed.Obj? && plain.Obj? && typed.fields.Keys == plain.fields.Keys == fields.Keys
      && forall k :: k in fields ==> LeafwiseText(fields[k], typed.fields[k], plain.fields[k], env)
    case _ => typed == plain == template
  }

  /** The typed and the plain substitution agree leaf by leaf once values are written as text. */
  lemma {:induction false} TypedAgrees(v: Value, env: Env)
    ensures LeafwiseText(v, TypedValue(v, env), InterpolatedValue(v, env), env)
    decreases v
  {
    match v
    case Str(s) => TypedStringText(s, env);
    case Arr(items) =>
      forall i | 0 <= i < |items|
        ensures LeafwiseText(items[i], TypedValue(items[i], env), InterpolatedValue(items[i], env), env)
      {
        TypedAgrees(items[i], env);
      }
    case Obj(fields) =>
      forall k | k in fields
        ensures LeafwiseText(fields[k], TypedValue(fields[k], env), InterpolatedValue(fields[k], env), env)
      {
        TypedAgrees(fields[k], env);
      }
    case _ =>
  }
}
