/** Small value types shared by the other modules: an optional value and the
    dynamically typed entries of the detection dictionaries that the
    background loop publishes and the status endpoint reads. */
module Records {

  datatype Option<+T> = None | Some(value: T)

  /** One entry of a detection dictionary (a JSON-like value). */
  datatype Value = Bool(b: bool) | Int(i: int) | Real(r: real) | Str(s: string) | Null

  /** Truthiness of a dictionary entry, as the `and`/`not` operators see it. */
  predicate Truthy(v: Value)
  {
    match v
    case Bool(b) => b
    case Int(i) => i != 0
    case Real(r) => r != 0.0
    case Str(s) => s != ""
    case Null => false
  }

  /** Dictionary lookup with a default, `d.get(key, default)`. */
  function Get(d: map<string, Value>, key: string, default: Value): Value
  {
    if key in d then d[key] else default
  }
}
