/** Evaluating a condition against an event payload and a context. */
module ConditionEval {
  import opened Prelude
  import V = Values
  import opened ConditionSyntax
  import opened ConditionLexer

  datatype EvalError = OrOperand | AndOperand | NotOperand | NotNumeric | TopLevel

  type Evaluated = Result<V.Value, EvalError>

  // ----- number literals -----

  function DigitsFrom(text: string, i: nat, acc: real): real
    decreases |text| - i
  {
    if i < |text| && IsDigit(text[i]) then DigitsFrom(text, i + 1, acc * 10.0 + ((text[i] as int - '0' as int) as real))
    else acc
  }

  function FractionFrom(text: string, i: nat, unit: real): real
    decreases |text| - i
  {
    if i < |text| && IsDigit(text[i]) then
      ((text[i] as int - '0' as int) as real) * unit + FractionFrom(text, i + 1, unit / 10.0)
    else 0.0
  }

  /** The number a literal's text denotes. */
  function Denotes(text: string): real {
    if text == "" then 0.0
    else
      var start := if text[0] == '-' then 1 else 0;
      var whole := RunEnd(text, start, IsDigit);
      var size := DigitsFrom(text, start, 0.0) + FractionFrom(text, whole + 1, 1.0 / 10.0);
      if start == 1 then -size else size
  }

  // ----- references -----

  function Walk(v: V.Value, path: seq<string>): V.Value {
    if path == [] then v
    else match V.Get(v, path[0])
      case None => V.Null
      case Some(next) => Walk(next, path[1..])
  }

  function Text(s: Option<string>): V.Value {
    if s.Some? then V.Str(s.value) else V.Null
  }

  /** A missing path is null, not an error. */
  function ResolveRef(path: seq<string>, event: V.Event, context: Option<V.Context>): V.Value {
    if |path| < 2 then V.Null
    else if path[0] == "event" then Walk(event.payload, path[1..])
    else if path[0] != "context" || context.None? || |path| != 2 then V.Null
    else if path[1] == "active_panel" then Text(context.value.activePanel)
    else if path[1] == "active_cwd" then Text(context.value.activeCwd)
    else if path[1] == "presence" then V.Str(if context.value.presence.Active? then "active" else "away")
    else V.Null
  }

  // ----- evaluation -----

  /** Numbers compare by value, everything else structurally. */
  predicate ValuesEq(a: V.Value, b: V.Value) {
    if V.AsReal(a).Some? && V.AsReal(b).Some? then V.AsReal(a).value == V.AsReal(b).value
    else a == b
  }

  predicate Ordered(op: CmpOp, x: real, y: real) {
    if op.Lt? then x < y
    else if op.Le? then x <= y
    else if op.Gt? then x > y
    else x >= y
  }

  function EvalCmp(op: CmpOp, a: V.Value, b: V.Value): Result<bool, EvalError> {
    if op.Eq? then Ok(ValuesEq(a, b))
    else if op.Neq? then Ok(!ValuesEq(a, b))
    else if V.AsReal(a).None? || V.AsReal(b).None? then Err(NotNumeric)
    else Ok(Ordered(op, V.AsReal(a).value, V.AsReal(b).value))
  }

  function Bools(a: V.Value, b: V.Value, op: (bool, bool) -> bool, error: EvalError): Evaluated {
    if a.Bool? && b.Bool? then Ok(V.Bool(op(a.b, b.b))) else Err(error)
  }

  function EvalExpr(e: Expr, event: V.Event, context: Option<V.Context>): Evaluated
    decreases e
  {
    match e
    case Or(l, r) =>
      (match EvalExpr(l, event, context)
       case Err(x) => Err(x)
       case Ok(lv) =>
         if !lv.Bool? then Err(OrOperand)
         else if lv.b then Ok(V.Bool(true))
         else match EvalExpr(r, event, context)
           case Err(x) => Err(x)
           case Ok(rv) => if rv.Bool? then Ok(V.Bool(rv.b)) else Err(OrOperand))
    case And(l, r) =>
      (match EvalExpr(l, event, context)
       case Err(x) => Err(x)
       case Ok(lv) =>
         if !lv.Bool? then Err(AndOperand)
         else if !lv.b then Ok(V.Bool(false))
         else match EvalExpr(r, event, context)
           case Err(x) => Err(x)
           case Ok(rv) => if rv.Bool? then Ok(V.Bool(rv.b)) else Err(AndOperand))
    case Not(x) =>
      (match EvalExpr(x, event, context)
       case Err(err) => Err(err)
       case Ok(v) => if v.Bool? then Ok(V.Bool(!v.b)) else Err(NotOperand))
    case Cmp(op, a, b) =>
      (match EvalAtom(a, event, context)
       case Err(x) => Err(x)
       case Ok(av) =>
         match EvalAtom(b, event, context)
         case Err(x) => Err(x)
         case Ok(bv) =>
           match EvalCmp(op, av, bv)
           case Err(x) => Err(x)
           case Ok(r) => Ok(V.Bool(r)))
    case Leaf(a) => EvalAtom(a, event, context)
  }

  function EvalAtom(a: Atom, event: V.Event, context: Option<V.Context>): Evaluated
    decreases a
  {
    match a
    case Str(s) => Ok(V.Str(s))
    case Lit(text) => Ok(V.Num(V.Float(Denotes(text))))
    case Bool(v) => Ok(V.Bool(v))
    case Null => Ok(V.Null)
    case Ref(path) => Ok(ResolveRef(path, event, context))
    case Group(e) => EvalExpr(e, event, context)
  }

  function Eval(e: Expr, event: V.Event, context: Option<V.Context>): Result<bool, EvalError> {
    match EvalExpr(e, event, context)
    case Err(x) => Err(x)
    case Ok(v) => if v.Bool? then Ok(v.b) else Err(TopLevel)
  }

  // ----- strict evaluation: both operands always -----

  function StrictExpr(e: Expr, event: V.Event, context: Option<V.Context>): Evaluated
    decreases e
  {
    match e
    case Or(l, r) =>
      var lv, rv := StrictExpr(l, event, context), StrictExpr(r, event, context);
      if lv.Err? then lv else if rv.Err? then rv
      else Bools(lv.value, rv.value, (x, y) => x || y, OrOperand)
    case And(l, r) =>
      var lv, rv := StrictExpr(l, event, context), StrictExpr(r, event, context);
      if lv.Err? then lv else if rv.Err? then rv
      else Bools(lv.value, rv.value, (x, y) => x && y, AndOperand)
    case Not(x) =>
      (match StrictExpr(x, event, context)
       case Err(err) => Err(err)
       case Ok(v) => if v.Bool? then Ok(V.Bool(!v.b)) else Err(NotOperand))
    case Cmp(op, a, b) =>
      var av, bv := StrictAtom(a, event, context), StrictAtom(b, event, context);
      if av.Err? then av else if bv.Err? then bv
      else (match EvalCmp(op, av.value, bv.value)
            case Err(x) => Err(x)
            case Ok(r) => Ok(V.Bool(r)))
    case Leaf(a) => StrictAtom(a, event, context)
  }

  function StrictAtom(a: Atom, event: V.Event, context: Option<V.Context>): Evaluated
    decreases a
  {
    match a
    case Group(e) => StrictExpr(e, event, context)
    case _ => EvalAtom(a, event, context)
  }

  /** Short-circuiting only ever adds answers: where the strict evaluation has a value, so has the
      real one, and it is the same. */
  lemma {:induction false} StrictImpliesShort(e: Expr, event: V.Event, context: Option<V.Context>)
    requires StrictExpr(e, event, context).Ok?
    ensures EvalExpr(e, event, context) == StrictExpr(e, event, context)
    decreases e
  {
    match e
    case Or(l, r) =>
      StrictImpliesShort(l, event, context);
      StrictImpliesShort(r, event, context);
    case And(l, r) =>
      StrictImpliesShort(l, event, context);
      StrictImpliesShort(r, event, context);
    case Not(x) => StrictImpliesShort(x, event, context);
    case Cmp(_, a, b) =>
      StrictAtomImpliesShort(a, event, context);
      StrictAtomImpliesShort(b, event, context);
    case Leaf(a) => StrictAtomImpliesShort(a, event, context);
  }

  lemma {:induction false} StrictAtomImpliesShort(a: Atom, event: V.Event, context: Option<V.Context>)
    requires StrictAtom(a, event, context).Ok?
    ensures EvalAtom(a, event, context) == StrictAtom(a, event, context)
    decreases a
  {
    if a.Group? {
      StrictImpliesShort(a.inner, event, context);
    }
  }

  // ----- laws -----

  /** Same value, or both an error (whatever its message). */
  predicate Same(a: Evaluated, b: Evaluated) {
    if a.Ok? then a == b else b.Err?
  }

  lemma NotOf(e: Expr, event: V.Event, context: Option<V.Context>)
    ensures var a, r := EvalExpr(e, event, context), EvalExpr(Not(e), event, context);
            if a.Ok? && a.value.Bool? then r == Ok(V.Bool(!a.value.b)) else r.Err?
  {
  }

  lemma AndOf(l: Expr, r: Expr, event: V.Event, context: Option<V.Context>)
    ensures var a, b := EvalExpr(l, event, context), EvalExpr(r, event, context);
            var e := EvalExpr(And(l, r), event, context);
            if a.Err? || !a.value.Bool? then e.Err?
            else if !a.value.b then e == Ok(V.Bool(false))
            else if b.Err? || !b.value.Bool? then e.Err?
            else e == b
  {
  }

  lemma OrOf(l: Expr, r: Expr, event: V.Event, context: Option<V.Context>)
    ensures var a, b := EvalExpr(l, event, context), EvalExpr(r, event, context);
            var e := EvalExpr(Or(l, r), event, context);
            if a.Err? || !a.value.Bool? then e.Err?
            else if a.value.b then e == Ok(V.Bool(true))
            else if b.Err? || !b.value.Bool? then e.Err?
            else e == b
  {
  }

  /** Both laws hold with short-circuiting and with errors. */
  lemma DeMorgan(l: Expr, r: Expr, event: V.Event, context: Option<V.Context>)
    ensures Same(EvalExpr(Not(And(l, r)), event, context), EvalExpr(Or(Not(l), Not(r)), event, context))
    ensures Same(EvalExpr(Not(Or(l, r)), event, context), EvalExpr(And(Not(l), Not(r)), event, context))
  {
    NotOf(l, event, context);
    NotOf(r, event, context);
    AndOf(l, r, event, context);
    OrOf(l, r, event, context);
    NotOf(And(l, r), event, context);
    NotOf(Or(l, r), event, context);
    AndOf(Not(l), Not(r), event, context);
    OrOf(Not(l), Not(r), event, context);
  }

  // ----- locality -----

  function Refs(e: Expr): set<seq<string>>
    decreases e
  {
    match e
    case Or(l, r) => Refs(l) + Refs(r)
    case And(l, r) => Refs(l) + Refs(r)
    case Not(x) => Refs(x)
    case Cmp(_, a, b) => AtomRefs(a) + AtomRefs(b)
    case Leaf(a) => AtomRefs(a)
  }

  function AtomRefs(a: Atom): set<seq<string>>
    decreases a
  {
    match a
    case Ref(path) => {path}
    case Group(e) => Refs(e)
    case _ => {}
  }

  /** A condition sees the event and the context only through the references it contains. */
  lemma {:induction false} OnlyRefsMatter(
      e: Expr, ev1: V.Event, cx1: Option<V.Context>, ev2: V.Event, cx2: Option<V.Context>)
    requires forall path :: path in Refs(e) ==> ResolveRef(path, ev1, cx1) == ResolveRef(path, ev2, cx2)
    ensures EvalExpr(e, ev1, cx1) == EvalExpr(e, ev2, cx2) && Eval(e, ev1, cx1) == Eval(e, ev2, cx2)
    decreases e
  {
    match e
    case Or(l, r) =>
      OnlyRefsMatter(l, ev1, cx1, ev2, cx2);
      OnlyRefsMatter(r, ev1, cx1, ev2, cx2);
    case And(l, r) =>
      OnlyRefsMatter(l, ev1, cx1, ev2, cx2);
      OnlyRefsMatter(r, ev1, cx1, ev2, cx2);
    case Not(x) => OnlyRefsMatter(x, ev1, cx1, ev2, cx2);
    case Cmp(_, a, b) =>
      OnlyAtomRefsMatter(a, ev1, cx1, ev2, cx2);
      OnlyAtomRefsMatter(b, ev1, cx1, ev2, cx2);
    case Leaf(a) => OnlyAtomRefsMatter(a, ev1, cx1, ev2, cx2);
  }

  lemma {:induction false} OnlyAtomRefsMatter(
      a: Atom, ev1: V.Event, cx1: Option<V.Context>, ev2: V.Event, cx2: Option<V.Context>)
    requires forall path :: path in AtomRefs(a) ==> ResolveRef(path, ev1, cx1) == ResolveRef(path, ev2, cx2)
    ensures EvalAtom(a, ev1, cx1) == EvalAtom(a, ev2, cx2)
    decreases a
  {
    if a.Group? {
      OnlyRefsMatter(a.inner, ev1, cx1, ev2, cx2);
    }
  }
}
