/** JSON values as RFC 8259 describes them, the lookups the gateway performs
    on them (serde_json's `Value::get`/`as_str`/`as_bool`/`as_i64`, and
    JavaScript's optional chaining), and the JSON library itself as a record
    of functions the model does not look inside. */
module Json {
  import opened Wrappers
  import opened Text

  /** An object is a map from member names to values: serde_json's `Map` and a
      JavaScript object alike keep one value per name (the last one parsed).
      Member order is not modelled. Numbers are integers or, opaquely,
      non-integers given by their text. */
  datatype Json =
    | JNull
    | JBool(b: bool)
    | JInt(i: int)
    | JFloat(text: string)
    | JString(s: string)
    | JArray(items: seq<Json>)
    | JObject(fields: map<string, Json>)

  const I64Min: int := -0x8000_0000_0000_0000
  const I64Max: int := 0x7FFF_FFFF_FFFF_FFFF

  /** serde_json `Value::get(key)`: a member of an object, nothing otherwise. */
  function Get(v: Json, key: string): (r: Option<Json>)
    ensures r.Some? <==> v.JObject? && key in v.fields
    ensures r.Some? ==> r.value == v.fields[key]
  {
    if v.JObject? && key in v.fields then Some(v.fields[key]) else None
  }

  /** serde_json `Value::as_str`. */
  function AsStr(v: Json): Option<string> {
    if v.JString? then Some(v.s) else None
  }

  /** serde_json `Value::as_bool`. */
  function AsBool(v: Json): Option<bool> {
    if v.JBool? then Some(v.b) else None
  }

  /** serde_json `Value::as_i64`: an integer that fits in 64 signed bits. */
  function AsI64(v: Json): (r: Option<int>)
    ensures r.Some? ==> I64Min <= r.value <= I64Max
  {
    if v.JInt? && I64Min <= v.i <= I64Max then Some(v.i) else None
  }

  /** `Get` then `as_str`, the shape `payload.get("model").and_then(Value::as_str)`. */
  function GetStr(v: Json, key: string): Option<string> {
    match Get(v, key)
    case Some(m) => AsStr(m)
    case None => None
  }

  /** `Get` then `as_bool`. */
  function GetBool(v: Json, key: string): Option<bool> {
    match Get(v, key)
    case Some(m) => AsBool(m)
    case None => None
  }

  /** `Get` then `as_i64`. */
  function GetI64(v: Json, key: string): Option<int> {
    match Get(v, key)
    case Some(m) => AsI64(m)
    case None => None
  }

  /** JavaScript `x?.[0]` on a parsed value: the first element of an array,
      the member named "0" of an object. (The first character of a string has
      no `message`, `delta` or `text` property, so every chain in the core
      ends there; the model stops one step early.) */
  function JsIndex0(v: Json): Option<Json> {
    match v
    case JArray(items) => if |items| > 0 then Some(items[0]) else None
    case JObject(fields) => if "0" in fields then Some(fields["0"]) else None
    case _ => None
  }

  /** A JavaScript property read `x?.key`: only objects have the members the
      core looks for. */
  function JsProp(v: Json, key: string): Option<Json> {
    Get(v, key)
  }

  /** One more step `?.key` of an optional chain. */
  function OptProp(v: Option<Json>, key: string): Option<Json> {
    match v
    case Some(x) => JsProp(x, key)
    case None => None
  }

  /** One more step `?.[0]` of an optional chain. */
  function OptIndex0(v: Option<Json>): Option<Json> {
    match v
    case Some(x) => JsIndex0(x)
    case None => None
  }

  /** A string found at a JavaScript path, if it is truthy (non-empty). */
  function JsTruthyString(v: Option<Json>): Option<string> {
    if v.Some? && v.value.JString? && v.value.s != "" then Some(v.value.s) else None
  }

  /** The JSON library, given as functions: `JSON.parse` / `serde_json::from_str`
      on text, `serde_json::from_slice` on bytes, the two-space pretty printer
      `JSON.stringify(v, null, 2)`, and the compact writer `serde_json::to_vec`.
      A parser returns None where the library throws or returns `Err`. */
  datatype Codec = Codec(
    parseText: string -> Option<Json>,
    parseBytes: seq<byte> -> Option<Json>,
    pretty: Json -> string,
    compact: Json -> seq<byte>)
}
