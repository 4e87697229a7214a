/** The JSON-like values that Express hands to the pipeline (path parameters, query, body, headers). */
module Json {
  import opened Wrappers

  datatype Value =
    | Null
    | Bool(b: bool)
    | Num(n: int)
    | Str(s: string)
    | Arr(items: seq<Value>)
    | Obj(fields: map<string, Value>)

  /** The value under `key`; None plays JavaScript's `undefined` (no object, or no such key). */
  function Get(v: Value, key: string): Option<Value>
  {
    if v.Obj? && key in v.fields then Some(v.fields[key]) else None
  }
}
