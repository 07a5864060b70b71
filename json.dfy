/**
 * Scalar JSON values as the level, dialogue, manifest and NPC-action documents
 * carry them, with the conversions that `get<T>()` performs or refuses (a
 * refusal is the type_error exception the callers catch or let escape).
 */
module Json {
  import opened Common

  datatype JValue = JNull | JBool(b: bool) | JNumber(n: real) | JString(s: string)

  /** get<std::string>(): only a string converts. */
  function AsString(v: JValue): (r: Option<string>)
    ensures r.Some? <==> v.JString?
    ensures v.JString? ==> r == Some(v.s)
  {
    if v.JString? then Some(v.s) else None
  }

  /** get<bool>(): only a boolean converts. */
  function AsBool(v: JValue): (r: Option<bool>)
    ensures r.Some? <==> v.JBool?
    ensures v.JBool? ==> r == Some(v.b)
  {
    if v.JBool? then Some(v.b) else None
  }

  /** get<float>(): numbers convert, and so do booleans (as 0 and 1). */
  function AsReal(v: JValue): (r: Option<real>)
    ensures r.Some? <==> (v.JNumber? || v.JBool?)
    ensures v.JNumber? ==> r == Some(v.n)
  {
    match v
    case JNumber(n) => Some(n)
    case JBool(b) => Some(if b then 1.0 else 0.0)
    case _ => None
  }

  /** A static_cast from a floating value to int: truncation toward zero. */
  function Truncate(n: real): (i: int)
    ensures n >= 0.0 ==> i as real <= n < i as real + 1.0
    ensures n < 0.0 ==> i as real - 1.0 < n <= i as real
  {
    if n >= 0.0 then n.Floor else -((-n).Floor)
  }

  /** get<int>(): numbers convert by truncation toward zero, booleans as 0 and 1. */
  function AsInt(v: JValue): (r: Option<int>)
    ensures r.Some? <==> (v.JNumber? || v.JBool?)
    ensures v.JNumber? ==> r == Some(Truncate(v.n))
  {
    match v
    case JNumber(n) => Some(Truncate(n))
    case JBool(b) => Some(if b then 1 else 0)
    case _ => None
  }

  /** One entry of a Tiled "properties" array: a name and a value. */
  datatype Property = Property(name: string, value: JValue)
}
