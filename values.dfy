/** Decoded JSON values and the Python truthiness rules the inventory client applies to them. */
module Values {

  datatype Option<+T> = None | Some(value: T)

  /**
   * A value produced by Python's json module: objects become dicts, arrays lists.
   * Floating-point numbers are not modelled.
   */
  datatype Value =
    | Null
    | Bool(b: bool)
    | Int(i: int)
    | Str(s: string)
    | List(items: seq<Value>)
    | Object(fields: map<string, Value>)

  /** Python's `bool(v)` for a decoded JSON value. */
  predicate Truthy(v: Value) {
    match v
    case Null => false
    case Bool(b) => b
    case Int(i) => i != 0
    case Str(s) => s != ""
    case List(xs) => xs != []
    case Object(m) => m != map[]
  }

  /** `d.get(key, default)` on a dict. */
  function GetOr(d: map<string, Value>, key: string, default: Value): Value {
    if key in d then d[key] else default
  }
}
