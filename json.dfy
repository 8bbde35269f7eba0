/** JSON values as `serde_json::Value` holds them and `JSON.parse` returns
    them, with the accessors the core uses. Only integral numbers are
    represented. */
module Json {
  import opened Wrappers
  import opened Strings

  datatype Value =
    | Null
    | Bool(b: bool)
    | Num(n: int)
    | Str(s: string)
    | Arr(items: seq<Value>)
    | Obj(fields: map<string, Value>)

  /** `Value::get(key)`: the member of an object; nothing for any other value. */
  function Get(v: Value, key: string): (r: Option<Value>)
    ensures r.Some? <==> v.Obj? && key in v.fields
    ensures r.Some? ==> r.value == v.fields[key]
  {
    if v.Obj? && key in v.fields then Some(v.fields[key]) else None
  }

  /** `Option<&Value>::and_then(as_str)`. */
  function AsStr(v: Option<Value>): (r: Option<string>)
    ensures r.Some? <==> v.Some? && v.value.Str?
  {
    if v.Some? && v.value.Str? then Some(v.value.s) else None
  }

  /** `Option<&Value>::and_then(as_u64)`: a number in the unsigned 64-bit range. */
  function AsU64(v: Option<Value>): (r: Option<nat>)
    ensures r.Some? <==> v.Some? && v.value.Num? && 0 <= v.value.n <= U64_MAX
  {
    if v.Some? && v.value.Num? && 0 <= v.value.n <= U64_MAX then Some(v.value.n) else None
  }

  /** `Option<&Value>::and_then(as_array)`. */
  function AsArray(v: Option<Value>): (r: Option<seq<Value>>)
    ensures r.Some? <==> v.Some? && v.value.Arr?
  {
    if v.Some? && v.value.Arr? then Some(v.value.items) else None
  }

  // ---------------------------------------------------------------------------
  // The same values seen from JavaScript. A property that is absent reads as
  // `undefined`, written `None`.
  // ---------------------------------------------------------------------------

  /** JavaScript truthiness (`!!v`). */
  predicate Truthy(v: Option<Value>) {
    match v
    case None => false
    case Some(Null) => false
    case Some(Bool(b)) => b
    case Some(Num(n)) => n != 0
    case Some(Str(s)) => |s| > 0
    case Some(Arr(_)) => true
    case Some(Obj(_)) => true
  }

  /** `String(v)`, which is also what `localStorage.setItem` stores and what
      a template literal inserts. */
  function ToJsString(v: Option<Value>): (r: string)
    ensures v == None ==> r == "undefined"
    ensures v == Some(Null) ==> r == "null"
    ensures v.Some? && v.value.Str? ==> r == v.value.s
  {
    match v
    case None => "undefined"
    case Some(x) => ValueToJsString(x)
  }

  function ValueToJsString(x: Value): string
    decreases x, 1
  {
    match x
    case Null => "null"
    case Bool(b) => if b then "true" else "false"
    case Num(n) => IntToString(n)
    case Str(s) => s
    case Arr(items) => JoinItems(x, items)
    case Obj(_) => "[object Object]"
  }

  /** `Array.prototype.join(",")`, where `null` elements print as nothing. */
  function JoinItems(whole: Value, items: seq<Value>): string
    requires forall i :: 0 <= i < |items| ==> items[i] < whole
    decreases whole, 0, |items|
  {
    if |items| == 0 then ""
    else
      var first := if items[0].Null? then "" else ValueToJsString(items[0]);
      if |items| == 1 then first else first + "," + JoinItems(whole, items[1..])
  }

  /** A thrown JavaScript error: its constructor's name and its message. */
  datatype JsError = JsError(name: string, message: string)

  /** `new Error(message)`. */
  function Thrown(message: string): JsError {
    JsError("Error", message)
  }

  /** `v.key`: the member of an object, `undefined` on other values, and a
      `TypeError` on `undefined` and `null` (with V8's message). */
  function ReadMember(v: Option<Value>, key: string): (r: Result<Option<Value>, JsError>)
    ensures r.Err? <==> v == None || v == Some(Null)
    ensures r.Ok? ==> r.value == Get(v.value, key)
  {
    match v
    case None => Err(JsError("TypeError", "Cannot read properties of undefined (reading '" + key + "')"))
    case Some(Null) => Err(JsError("TypeError", "Cannot read properties of null (reading '" + key + "')"))
    case Some(x) => Ok(Get(x, key))
  }
}
