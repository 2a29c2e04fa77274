/** JSON values. A string-keyed object is a finite map, as in `serde_json`. */
module Json {
  import opened Wrappers

  datatype Value =
    | Null
    | Bool(b: bool)
    | Number(n: int)
    | String(s: string)
    | Array(items: seq<Value>)
    | Object(fields: map<string, Value>)
  {
    /** `Value::get` with a string key: only objects have fields. */
    function Get(key: string): Option<Value> {
      if Object? && key in fields then Some(fields[key]) else None
    }

    /** `Value::as_str`. */
    function AsStr(): Option<string> {
      if String? then Some(s) else None
    }
  }
}
