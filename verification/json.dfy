/**
 * A decoded JSON document, as `json.loads` returns it: `None`, a number, a
 * string, a list or a dict. JSON booleans are not modelled.
 */
module Json {
  import opened Common

  datatype Value =
    | Null
    | Num(n: real)
    | Str(s: string)
    | Array(items: seq<Value>)
    | Object(fields: map<string, Value>)

  /** `d.get(key, default)`. */
  function Get(m: map<string, Value>, key: string, default: Value): (r: Value)
    ensures key in m ==> r == m[key]
    ensures key !in m ==> r == default
  {
    if key in m then m[key] else default
  }

  /** `int(round(v))`; `None` where Python raises (`round` of anything but a number). */
  function RoundToInt(v: Value): (r: Option<int>)
    ensures r.Some? <==> v.Num?
    ensures v.Num? ==> Abs(r.value as real - v.n) <= 0.5
  {
    if v.Num? then Some(RoundHalfEven(v.n)) else None
  }

  /** `round(v, 1)`; `None` where Python raises. */
  function RoundToTenth(v: Value): (r: Option<real>)
    ensures r.Some? <==> v.Num?
    ensures v.Num? ==> Abs(r.value - v.n) <= 0.05
  {
    if v.Num? then Some(Round1(v.n)) else None
  }

  /** A JSON string as a text; anything else is taken as no text. */
  function TextOf(v: Value): Option<string>
  {
    if v.Str? then Some(v.s) else None
  }
}
