/** The JSON leaf values the actions read from the backend, the tracker's metadata and its slots,
    with the two Python behaviours the actions depend on: truthiness (`if not x`) and `str(x)`
    as used by f-strings. */
module Json {
  import opened Strings

  datatype Scalar = JStr(s: string) | JInt(i: int) | JBool(b: bool) | JNull

  /** Python truthiness: empty string, zero, `False` and `None` are falsy. */
  predicate Truthy(v: Scalar)
    ensures !Truthy(v) <==> v == JStr("") || v == JInt(0) || v == JBool(false) || v == JNull
  {
    match v
    case JStr(s) => s != ""
    case JInt(i) => i != 0
    case JBool(b) => b
    case JNull => false
  }

  /** `str(v)`: how the value appears when interpolated into an f-string. */
  function Render(v: Scalar): (r: string)
    ensures v.JStr? ==> r == v.s
    ensures v.JInt? ==> DecimalOf(r, v.i)
    ensures v.JBool? ==> r == (if v.b then "True" else "False")
    ensures v.JNull? ==> r == "None"
    ensures !v.JStr? ==> |r| > 0 && '\n' !in r
  {
    match v
    case JStr(s) => s
    case JInt(i) => IntToString(i)
    case JBool(b) => if b then "True" else "False"
    case JNull => "None"
  }

  /** A value whose rendering cannot break a one-line listing entry. */
  predicate SingleLine(v: Scalar) {
    '\n' !in Render(v)
  }
}
