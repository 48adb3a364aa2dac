/**
 * The two encodings of OTLP values, JSON and protobuf, and their conversion to the JSON value that is stored.
 * A JSON object is a map: the last of several equal keys wins, and the order of keys carries nothing.
 */
module Otlp {
  import opened Common
  import opened Decimal

  const I64_MIN: int := -0x8000_0000_0000_0000
  const I64_MAX: int := 0x7FFF_FFFF_FFFF_FFFF

  type i64 = x: int | I64_MIN <= x <= I64_MAX
  type u64 = x: nat | x <= U64_MAX
  type byte = x: nat | x < 256

  datatype Double = Finite(value: real) | NotFinite

  /** `serde_json::Value` */
  datatype Json =
    | JNull
    | JBool(b: bool)
    | JInt(n: int)
    | JFloat(value: real)
    | JString(s: string)
    | JArray(items: seq<Json>)
    | JObject(members: map<string, Json>)

  // ---------------------------------------------------------------- OTLP/HTTP JSON

  /** An integer as a string or, by tolerance, as a number; a float keeps its integer part within u64. */
  datatype StringOrNum = Str(s: string) | Num(n: int) | NumFloat(value: real) {
    /** `as_u64` */
    function AsU64(): Option<u64> {
      match this
      case Str(s) => ParseU64(Trim(s))
      case Num(n) => Some(if n < 0 then 0 else if n > U64_MAX then U64_MAX else n)
      case NumFloat(v) =>
        var n := if v < 0.0 then 0 else v.Floor;
        Some(if n > U64_MAX then U64_MAX else n)
    }
  }

  /** Unicode White_Space, what `str::trim` removes. */
  predicate IsBlank(c: char) {
    var u := c as int;
    || 0x09 <= u <= 0x0D || u == 0x20 || u == 0x85 || u == 0xA0 || u == 0x1680 || 0x2000 <= u <= 0x200A
    || u == 0x2028 || u == 0x2029 || u == 0x202F || u == 0x205F || u == 0x3000
  }

  function Trim(s: string): string {
    if s != "" && IsBlank(s[0]) then Trim(s[1..])
    else if s != "" && IsBlank(s[|s| - 1]) then Trim(s[..|s| - 1])
    else s
  }

  /** `str::parse::<u64>`: an optional plus, digits, no overflow. */
  function ParseU64(s: string): Option<u64> {
    var digits := if s != "" && s[0] == '+' then s[1..] else s;
    if digits == "" || !AllDigits(digits) then None
    else if ValueOf(digits) > U64_MAX then None
    else Some(ValueOf(digits))
  }

  datatype JKeyValue = JKeyValue(key: string, value: Option<JAny>)

  datatype JAny = JAny(
    str: Option<string>,
    int': Option<StringOrNum>,
    double: Option<Double>,
    bool': Option<bool>,
    arr: Option<JArrayValue>,
    kvlist: Option<JKvList>,
    bytes: Option<string>)

  datatype JArrayValue = JArrayValue(values: seq<JAny>)

  datatype JKvList = JKvList(values: seq<JKeyValue>)

  const JUnset := JAny(None, None, None, None, None, None, None)

  function DoubleToJson(d: Double): Json {
    if d.Finite? then JFloat(d.value) else JNull
  }

  /** `otlp::json::anyvalue_to_json`: the first field that is set decides. */
  function JsonOfJ(v: JAny): Json
    decreases v
  {
    if v.str.Some? then JString(v.str.value)
    else if v.int'.Some? then (var n := v.int'.value.AsU64(); if n.Some? then JInt(n.value) else JNull)
    else if v.double.Some? then DoubleToJson(v.double.value)
    else if v.bool'.Some? then JBool(v.bool'.value)
    else if v.arr.Some? then JArray(JsonsOfJ(v.arr.value.values))
    else if v.kvlist.Some? then JObject(MapOfJ(v.kvlist.value.values))
    else if v.bytes.Some? then JString(v.bytes.value)
    else JNull
  }

  function JsonsOfJ(vs: seq<JAny>): (js: seq<Json>)
    ensures |js| == |vs|
    decreases vs
  {
    if vs == [] then [] else JsonsOfJ(vs[..|vs| - 1]) + [JsonOfJ(vs[|vs| - 1])]
  }

  function ValueOfJ(kv: JKeyValue): Json
    decreases kv
  {
    if kv.value.Some? then JsonOfJ(kv.value.value) else JNull
  }

  /** `attrs_to_map`: insertion in order. */
  function MapOfJ(kvs: seq<JKeyValue>): map<string, Json>
    decreases kvs
  {
    if kvs == [] then map[]
    else MapOfJ(kvs[..|kvs| - 1])[kvs[|kvs| - 1].key := ValueOfJ(kvs[|kvs| - 1])]
  }

  // ---------------------------------------------------------------- OTLP/gRPC protobuf

  datatype PKeyValue = PKeyValue(key: string, value: Option<PAny>)

  datatype PAny = PAny(value: Option<PValue>)

  datatype PValue =
    | PString(s: string)
    | PBool(b: bool)
    | PInt(i: i64)
    | PDouble(d: Double)
    | PArray(values: seq<PAny>)
    | PKvlist(kvs: seq<PKeyValue>)
    | PBytes(bytes: seq<byte>)
    | POther

  function HexDigit(d: nat): char
    requires d < 16
  {
    "0123456789abcdef"[d]
  }

  /** Two lower-case digits a byte. */
  function Hex(bytes: seq<byte>): (s: string)
    ensures |s| == 2 * |bytes|
    ensures forall i :: 0 <= i < |s| ==> '0' <= s[i] <= '9' || 'a' <= s[i] <= 'f'
  {
    if bytes == [] then "" else [HexDigit(bytes[0] / 16), HexDigit(bytes[0] % 16)] + Hex(bytes[1..])
  }

  function HexOpt(bytes: seq<byte>): Option<string> {
    if bytes == [] then None else Some(Hex(bytes))
  }

  /** `otlp::proto::anyvalue_to_json` */
  function JsonOfP(v: PAny): Json
    decreases v
  {
    match v.value
    case None => JNull
    case Some(PString(s)) => JString(s)
    case Some(PBool(b)) => JBool(b)
    case Some(PInt(i)) => JInt(i)
    case Some(PDouble(d)) => DoubleToJson(d)
    case Some(PArray(vs)) => JArray(JsonsOfP(vs))
    case Some(PKvlist(kvs)) => JObject(MapOfP(kvs))
    case Some(PBytes(b)) => JString(Hex(b))
    case Some(POther) => JNull
  }

  function JsonsOfP(vs: seq<PAny>): (js: seq<Json>)
    ensures |js| == |vs|
    decreases vs
  {
    if vs == [] then [] else JsonsOfP(vs[..|vs| - 1]) + [JsonOfP(vs[|vs| - 1])]
  }

  function ValueOfP(kv: PKeyValue): Json
    decreases kv
  {
    if kv.value.Some? then JsonOfP(kv.value.value) else JNull
  }

  function MapOfP(kvs: seq<PKeyValue>): map<string, Json>
    decreases kvs
  {
    if kvs == [] then map[]
    else MapOfP(kvs[..|kvs| - 1])[kvs[|kvs| - 1].key := ValueOfP(kvs[|kvs| - 1])]
  }

  // ---------------------------------------------------------------- shared by both transports

  /** `lookup` with one key: the value if it is a string that is not empty. */
  function Lookup(m: map<string, Json>, key: string): Option<string> {
    if key in m && m[key].JString? && m[key].s != "" then Some(m[key].s) else None
  }

  function LookupAny(m: map<string, Json>, keys: seq<string>): Option<string> {
    if keys == [] then None
    else if Lookup(m, keys[0]).Some? then Lookup(m, keys[0])
    else LookupAny(m, keys[1..])
  }

  function OrElse(a: Option<string>, b: Option<string>): Option<string> {
    if a.Some? then a else b
  }
}
