/** JSON-like values, bus events and the dispatch context. */
module Values {
  import opened Prelude

  /** JSON tells an integer from a float with the same value; `AsReal` does not. */
  datatype Number = Int(i: int) | Float(r: real)

  datatype Value =
    | Null
    | Bool(b: bool)
    | Num(n: Number)
    | Str(s: string)
    | Arr(items: seq<Value>)
    | Obj(fields: map<string, Value>)

  function AsReal(v: Value): Option<real> {
    match v
    case Num(Int(i)) => Some(i as real)
    case Num(Float(r)) => Some(r)
    case _ => None
  }

  /** The field of an object; a non-object has none. */
  function Get(v: Value, key: string): Option<Value> {
    if v.Obj? && key in v.fields then Some(v.fields[key]) else None
  }

  datatype Origin = Internal | External

  datatype Event = Event(
    kind: string, source: string, timestampMs: nat, payload: Value, bridgeId: Option<nat>, origin: Origin)

  datatype Presence = Active | Away

  datatype Context = Context(activePanel: Option<string>, activeCwd: Option<string>, presence: Presence)

  /** Every required field is present in the payload with exactly the required value. */
  predicate PayloadMatches(required: map<string, Value>, payload: Value) {
    forall k :: k in required ==> Get(payload, k) == Some(required[k])
  }
}
