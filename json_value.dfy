/** The JSON values the IPMA and Bicing feeds carry, with Python's rules for comparing them. */
module JsonValue {
  import opened Wrappers

  datatype Json = JNull | JBool(b: bool) | JInt(i: int) | JReal(r: real) | JStr(s: string)

  /** The number Python sees in a bool, int or float (`True == 1`, `-99.0 == -99`). */
  function Numeric(j: Json): Option<real> {
    match j
    case JBool(b) => Some(if b then 1.0 else 0.0)
    case JInt(i) => Some(i as real)
    case JReal(r) => Some(r)
    case _ => None
  }

  /** Python's `float(v)` on a reading: null is a TypeError; any other value is kept as read,
      floating point being outside the model. */
  function Float(v: Json): (r: Result<Json, Crash>)
    ensures r.Failure? <==> v == JNull
    ensures r.Failure? ==> r.error == TypeError
    ensures r.Success? ==> r.value == v
  {
    if v == JNull then Failure(TypeError) else Success(v)
  }

  /** An optional value as Python holds it: a missing one is None. */
  function OrNull(o: Option<Json>): Json {
    if o.Some? then o.value else JNull
  }

  /** Python's `j == k` for an int literal k. */
  predicate EqualsInt(j: Json, k: int) {
    Numeric(j) == Some(k as real)
  }
}
