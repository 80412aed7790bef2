/** JSON values as `serde_json` holds them: an object is a finite map, so two objects
    that differ only in key order are the same value. */
module Json {
  import opened Wrappers

  datatype Value =
    | Null
    | Bool(b: bool)
    | Number(n: int)
    | Float(f: real)
    | String(s: string)
    | Array(items: seq<Value>)
    | Object(fields: map<string, Value>)

  function Get(v: Value, key: string): Option<Value> {
    if v.Object? && key in v.fields then Some(v.fields[key]) else None
  }

  function GetString(v: Value, key: string): Option<string> {
    match Get(v, key)
    case Some(String(s)) => Some(s)
    case _ => None
  }

  function GetArray(v: Value, key: string): Option<seq<Value>> {
    match Get(v, key)
    case Some(Array(items)) => Some(items)
    case _ => None
  }

  function GetOr(v: Value, key: string, default: Value): Value {
    match Get(v, key)
    case Some(found) => found
    case None => default
  }

  function Strings(texts: seq<string>): Value {
    Array(seq(|texts|, i requires 0 <= i < |texts| => String(texts[i])))
  }

  function OptionalString(text: Option<string>): Value {
    match text
    case Some(s) => String(s)
    case None => Null
  }
}
