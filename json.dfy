/** The value axios hands over as `r.data`: the parsed JSON body, or the raw
    text of the body when it is not valid JSON. */
module JsonValues {

  datatype Json =
    | Null
    | Bool(b: bool)
    | Number(n: int)
    | Str(s: string)
    | Array(items: seq<Json>)
    | Object(fields: map<string, Json>)

  /** The values JavaScript's `in` operator accepts on its right: objects, arrays included. */
  predicate IsObject(v: Json) {
    v.Array? || v.Object?
  }

  function DigitChar(d: nat): (c: char)
    requires d < 10
    ensures '0' <= c <= '9'
  {
    "0123456789"[d]
  }

  /** Decimal notation of a natural number, most significant digit first. */
  function NatToDecimal(n: nat): (s: string)
    ensures |s| > 0
    ensures forall i :: 0 <= i < |s| ==> '0' <= s[i] <= '9'
    decreases n
  {
    if n < 10 then [DigitChar(n)] else NatToDecimal(n / 10) + [DigitChar(n % 10)]
  }

  /** `String(v)` for a primitive value, with integers always in plain
      decimal. (JavaScript switches to exponent form from 21 digits on, and
      `JSON.parse` rounds integers above 2^53.) */
  function PrimitiveToString(v: Json): string
    requires !IsObject(v)
  {
    match v
    case Null => "null"
    case Bool(b) => if b then "true" else "false"
    case Number(n) => if n < 0 then "-" + NatToDecimal(-n) else NatToDecimal(n)
    case Str(s) => s
  }
}
