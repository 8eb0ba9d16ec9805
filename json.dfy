/**
  JSON values as the gateway (serde_json) and the dashboard (Vert.x) see
  them, with the few accessors the modelled code uses.
 */
module Json {
  import opened Prelude

  /** The negative integers serde_json keeps as `i64`. */
  type NegI64 = x: int | -0x8000_0000_0000_0000 <= x < 0 witness -1

  /** serde_json keeps a number as an unsigned integer, a negative integer
      or a float; floats are carried as their text, which nothing here reads. */
  datatype Num = PosInt(n: U64) | NegInt(i: NegI64) | Float(text: string)

  datatype Value =
    | JNull
    | JBool(b: bool)
    | JNumber(num: Num)
    | JString(s: string)
    | JArray(items: seq<Value>)
    | JObject(fields: map<string, Value>)

  /** `as_u64`: only a non-negative integer has one. */
  function AsU64(v: Value): (r: Option<U64>)
    ensures r.Some? <==> v.JNumber? && v.num.PosInt?
    ensures r.Some? ==> r.value == v.num.n
  {
    if v.JNumber? && v.num.PosInt? then Some(v.num.n) else None
  }

  /** `as_bool`: only a JSON boolean has one. */
  function AsBool(v: Value): (r: Option<bool>)
    ensures r.Some? <==> v.JBool?
    ensures r.Some? ==> r.value == v.b
  {
    if v.JBool? then Some(v.b) else None
  }

  /** How serde_json writes an integer that fits in 64 bits. */
  function Int(i: int): (r: Value)
    requires -0x8000_0000_0000_0000 <= i < 0x1_0000_0000_0000_0000
    ensures r.JNumber? && (r.num.PosInt? <==> 0 <= i) && (r.num.NegInt? <==> i < 0)
    ensures r.num.PosInt? ==> r.num.n == i
    ensures r.num.NegInt? ==> r.num.i == i
  {
    if i >= 0 then JNumber(PosInt(i)) else JNumber(NegInt(i))
  }

  /** Reading back a written integer: `as_u64` recovers exactly the
      non-negative ones, and no written integer is a boolean. */
  lemma IntRoundTrip(i: int)
    requires -0x8000_0000_0000_0000 <= i < 0x1_0000_0000_0000_0000
    ensures AsU64(Int(i)).Some? <==> 0 <= i
    ensures 0 <= i ==> AsU64(Int(i)) == Some(i)
    ensures AsBool(Int(i)) == None
  {
  }
}
