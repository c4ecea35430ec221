/** Decoded JSON request bodies and the equality Python applies to them. */
module Values {

  datatype Option<+T> = None | Some(value: T) {
    function GetOr(default: T): T {
      match this
      case Some(v) => v
      case None => default
    }
  }

  /** A decoded JSON value. Arrays and objects are kept as their JSON text:
      nothing in the API looks inside them. */
  datatype Value =
    | Null
    | Bool(b: bool)
    | Int(i: int)
    | Float(r: real)
    | Str(s: string)
    | Compound(text: string)

  /** A JSON object body, as `request.get_json()` returns it. */
  type Payload = map<string, Value>

  /** The number Python sees in a bool, an int or a float. */
  function Numeric(v: Value): Option<real> {
    match v
    case Bool(b) => Some(if b then 1.0 else 0.0)
    case Int(i) => Some(i as real)
    case Float(r) => Some(r)
    case _ => None
  }

  /** Python's `==` on decoded JSON values: numbers, booleans included,
      compare by value (`1 == 1.0 == True`); null and strings compare as
      themselves; arrays and objects compare by their JSON text, which is
      stricter than Python's element-wise comparison. */
  predicate PyEq(a: Value, b: Value) {
    if Numeric(a).Some? || Numeric(b).Some? then Numeric(a) == Numeric(b)
    else a == b
  }

  lemma PyEqIsEquivalence(a: Value, b: Value, c: Value)
    ensures PyEq(a, a)
    ensures PyEq(a, b) ==> PyEq(b, a)
    ensures PyEq(a, b) && PyEq(b, c) ==> PyEq(a, c)
  {
  }

  /** `request.get_json() or {}`: a body that is absent, not JSON, or the
      empty object is read as the empty mapping. */
  function BodyOf(json: Option<Payload>): (data: Payload)
    ensures json.None? ==> data == map[]
    ensures json.Some? ==> data == json.value
  {
    json.GetOr(map[])
  }
}
