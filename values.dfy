// The dynamically typed values that flow through the engine's dictionaries:
// JSON-like scalars, with Python's truthiness and the "N/A" placeholder.
module Values {

  datatype Value = Null | Num(n: real) | Str(s: string)

  /** Python `bool(v)`: None, 0 and "" are false; everything else is true. */
  predicate Truthy(v: Value)
  {
    match v
    case Null => false
    case Num(x) => x != 0.0
    case Str(t) => t != ""
  }

  const NA: string := "N/A"

  /** The engine's "unavailable" markers: None or the literal string "N/A". */
  predicate IsMissing(v: Value)
  {
    v == Null || v == Str(NA)
  }
}
