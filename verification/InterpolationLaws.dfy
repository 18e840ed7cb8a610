/**
 What tokens are replaced by, said of the text and the fields themselves: where a token stands in a
 template, what each kind of token finds, and how the value found is written.
 */
module InterpolationLaws {
  import opened Prelude
  import opened Values
  import opened Interpolation

  // ----- tokens in a template -----

  lemma {:induction false} FindsAt(s: string, c: char, i: nat, j: nat)
    requires i <= j <= |s| && (forall k :: i <= k < j ==> s[k] != c) && (j < |s| ==> s[j] == c)
    ensures Find(s, c, i) == j
    decreases j - i
  {
    if i == j {
    } else {
      FindsAt(s, c, i + 1, j);
    }
  }

  lemma CutsAt(head: string, token: string, tail: string)
    requires '{' !in head && '}' !in token
    ensures FirstToken(head + "{" + token + "}" + tail) == Cut(head, token, tail)
  {
    var s, after := head + "{" + token + "}" + tail, token + "}" + tail;
    ConcatAssoc(head + "{", token, "}");
    ConcatAssoc(head + "{", token + "}", tail);
    assert s == head + "{" + after;
    assert forall k :: 0 <= k < |head| ==> s[k] == head[k] && head[k] in head;
    FindsAt(s, '{', 0, |head|);
    assert s[|head| + 1..] == after;
    assert forall k :: 0 <= k < |token| ==> after[k] == token[k] && token[k] in token;
    FindsAt(after, '}', 0, |token|);
    assert s[..|head|] == head && after[..|token|] == token && after[|token| + 1..] == tail;
  }

  /** A token is replaced by what it stands for, or stays; what follows is filled in by itself. */
  lemma TokenFilled(head: string, token: string, tail: string, env: Env)
    requires '{' !in head && '}' !in token
    ensures Interpolated(head + "{" + token + "}" + tail, env)
            == head + (if ResolveText(token, env).Some? then ResolveText(token, env).value else "{" + token + "}")
               + Interpolated(tail, env)
  {
    var s := head + "{" + token + "}" + tail;
    CutsAt(head, token, tail);
    InterpolatedStep(s, env);
    ConcatAssoc(head, Filled(Token(token), env), Interpolated(tail, env));
  }

  /** Text without an opening brace, or after one that is never closed, stays. */
  lemma PlainStays(head: string, rest: string, env: Env)
    requires '{' !in head && '}' !in rest
    ensures Interpolated(head, env) == head
    ensures Interpolated(head + "{" + rest, env) == head + "{" + rest
  {
    var s := head + "{" + rest;
    assert forall k :: 0 <= k < |head| ==> s[k] == head[k] && head[k] in head;
    FindsAt(head, '{', 0, |head|);
    FindsAt(s, '{', 0, |head|);
    assert s[|head| + 1..] == rest;
    assert forall k :: 0 <= k < |rest| ==> rest[k] in rest;
    FindsAt(rest, '}', 0, |rest|);
    InterpolatedStep(head, env);
    InterpolatedStep(s, env);
  }

  // ----- paths -----

  /** A name without a dot is one field. */
  lemma FieldFound(root: Value, k: string)
    requires '.' !in k
    ensures ResolvePath(root, k) == if root.Obj? && k in root.fields then Some(root.fields[k]) else None
  {
    assert forall i :: 0 <= i < |k| ==> k[i] in k;
    FindsAt(k, '.', 0, |k|);
    match Get(root, k)
    case None =>
    case Some(next) =>
      assert [k][1..] == [];
      assert WalkPath(next, []) == Some(next);
  }

  /** A dotted path goes into the field its first name finds. */
  lemma PathFound(root: Value, k: string, rest: string)
    requires '.' !in k
    ensures ResolvePath(root, k + "." + rest)
            == if root.Obj? && k in root.fields then ResolvePath(root.fields[k], rest) else None
  {
    var s := k + "." + rest;
    assert forall i :: 0 <= i < |k| ==> s[i] == k[i] && k[i] in k;
    FindsAt(s, '.', 0, |k|);
    assert s[..|k|] == k && s[|k| + 1..] == rest;
    assert ([k] + SplitDots(rest))[1..] == SplitDots(rest);
  }

  // ----- what tokens stand for -----

  /** How a value is written into text. */
  function Text(v: Value, env: Env): string {
    match v
    case Str(s) => s
    case Null => "null"
    case _ => env.json(v)
  }

  /** `event.` reads the payload first and the event's own three fields after it. */
  function EventField(field: string, env: Env): Option<Value> {
    match ResolvePath(env.event.payload, field)
    case Some(v) => Some(v)
    case None =>
      if field == "kind" then Some(Str(env.event.kind))
      else if field == "source" then Some(Str(env.event.source))
      else if field == "timestamp_ms" then Some(Num(Int(env.event.timestampMs)))
      else None
  }

  function Written(v: Option<Value>, env: Env): Option<string> {
    match v
    case Some(v) => Some(Text(v, env))
    case None => None
  }

  lemma PrefixStripped(prefix: string, rest: string)
    ensures After(prefix, prefix + rest) == Some(rest)
  {
    assert (prefix + rest)[|prefix|..] == rest;
  }

  lemma EventToken(field: string, env: Env)
    ensures ResolveText("event." + field, env) == Written(EventField(field, env), env)
    ensures ResolveValue("event." + field, env) == EventField(field, env)
  {
    PrefixStripped("event.", field);
  }

  /** `action_result.` reads the action's result, where there is one. */
  lemma ActionToken(field: string, env: Env)
    ensures var found := if env.actionResult.Some? then ResolvePath(env.actionResult.value, field) else None;
            && ResolveText("action_result." + field, env) == Written(found, env)
            && ResolveValue("action_result." + field, env) == found
  {
    var token := "action_result." + field;
    PrefixStripped("action_result.", field);
    assert token[0] == 'a' && !("event." <= token);
  }

  /** `context.` reads the panel or the directory, as text only. */
  lemma ContextToken(field: string, env: Env)
    ensures ResolveText("context." + field, env)
            == if env.context.None? then None
               else if field == "active_panel" then env.context.value.activePanel
               else if field == "active_cwd" then env.context.value.activeCwd
               else None
    ensures ResolveValue("context." + field, env) == None
  {
    var token := "context." + field;
    PrefixStripped("context.", field);
    assert token[0] == 'c' && !("event." <= token) && !("action_result." <= token);
  }

  lemma OtherToken(token: string, env: Env)
    requires forall field: string ::
               token != "event." + field && token != "action_result." + field && token != "context." + field
    ensures ResolveText(token, env) == None && ResolveValue(token, env) == None
  {
    NotPrefixed("event.", token);
    NotPrefixed("action_result.", token);
    NotPrefixed("context.", token);
  }

  lemma NotPrefixed(prefix: string, token: string)
    requires forall field: string :: token != prefix + field
    ensures After(prefix, token) == None
  {
    assert prefix <= token ==> token == prefix + token[|prefix|..];
  }

  // ----- values -----

  /** A string that is one token keeps the type of what it stands for; any other is filled in as text. */
  lemma TypedToken(token: string, s: string, env: Env)
    requires '{' !in token && '}' !in token
    requires forall t: string :: '{' !in t && '}' !in t ==> s != "{" + t + "}"
    ensures TypedValue(Str("{" + token + "}"), env)
            == if ResolveValue(token, env).Some? then ResolveValue(token, env).value
               else Str(Interpolated("{" + token + "}", env))
    ensures TypedValue(Str(s), env) == Str(Interpolated(s, env))
  {
    var whole := "{" + token + "}";
    assert whole[1..|whole| - 1] == token;
    if SingleToken(s).Some? {
      SingleIsWrapped(s);
      assert false;
    }
  }

  lemma SingleIsWrapped(s: string)
    requires SingleToken(s).Some?
    ensures var t := SingleToken(s).value; s == "{" + t + "}" && '{' !in t && '}' !in t
  {
  }

  /** Both substitutions keep the shape of a value and its keys, and touch nothing but strings. */
  lemma ShapeKept(v: Value, env: Env)
    ensures v.Str? ==> InterpolatedValue(v, env) == Str(Interpolated(v.s, env))
    ensures !v.Str? && !v.Arr? && !v.Obj? ==> InterpolatedValue(v, env) == v && TypedValue(v, env) == v
    ensures v.Arr? ==>
              && InterpolatedValue(v, env).Arr? && TypedValue(v, env).Arr?
              && |InterpolatedValue(v, env).items| == |TypedValue(v, env).items| == |v.items|
              && forall i :: 0 <= i < |v.items| ==>
                   InterpolatedValue(v, env).items[i] == InterpolatedValue(v.items[i], env)
                   && TypedValue(v, env).items[i] == TypedValue(v.items[i], env)
    ensures v.Obj? ==>
              && InterpolatedValue(v, env).Obj? && TypedValue(v, env).Obj?
              && InterpolatedValue(v, env).fields.Keys == TypedValue(v, env).fields.Keys == v.fields.Keys
              && forall k :: k in v.fields ==>
                   InterpolatedValue(v, env).fields[k] == InterpolatedValue(v.fields[k], env)
                   && TypedValue(v, env).fields[k] == TypedValue(v.fields[k], env)
  {
  }
}
