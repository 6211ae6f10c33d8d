/** The fragment of a JSON value that the rules document and the template
    contexts need: strings, arrays and objects are distinguished, every other
    JSON value (numbers, booleans, null) is one opaque case. */
module Json {
  import opened Wrappers

  datatype Value =
    | JStr(str: string)
    | JArr(items: seq<Value>)
    | JObj(fields: map<string, Value>)
    | JOther

  /** Looks up `key` in an object; any other value has no keys (serde_json's `Value::get` with a string key). */
  function Get(v: Value, key: string): (r: Option<Value>)
    ensures r.Some? <==> v.JObj? && key in v.fields
    ensures r.Some? ==> r.value == v.fields[key]
  {
    match v
    case JObj(fields) => if key in fields then Some(fields[key]) else None
    case _ => None
  }

  /** The elements of an array value (serde_json's `as_array`). */
  function AsArray(v: Value): (r: Option<seq<Value>>)
    ensures r.Some? <==> v.JArr?
    ensures r.Some? ==> r.value == v.items
  {
    if v.JArr? then Some(v.items) else None
  }

  /** The text of a string value (serde_json's `as_str`). */
  function AsStr(v: Value): (r: Option<string>)
    ensures r.Some? <==> v.JStr?
    ensures r.Some? ==> r.value == v.str
  {
    if v.JStr? then Some(v.str) else None
  }

  /** `Get(v, key)` followed by `AsStr` (the `get(..).and_then(as_str)` chain). */
  function GetStr(v: Value, key: string): (r: Option<string>)
    ensures r.Some? <==> v.JObj? && key in v.fields && v.fields[key].JStr?
    ensures r.Some? ==> r.value == v.fields[key].str
  {
    match Get(v, key)
    case Some(x) => AsStr(x)
    case None => None
  }

  /** `Get(v, key)` followed by `AsArray` (the `get(..).and_then(as_array)` chain). */
  function GetArray(v: Value, key: string): (r: Option<seq<Value>>)
    ensures r.Some? <==> v.JObj? && key in v.fields && v.fields[key].JArr?
    ensures r.Some? ==> r.value == v.fields[key].items
  {
    match Get(v, key)
    case Some(x) => AsArray(x)
    case None => None
  }
}
