/** JSON values as the generated Swagger document holds them, and the
    dictionary update that every merge step of the builder performs. */
module Json {
  import opened Wrappers

  datatype Json =
    | JNull
    | JBool(b: bool)
    | JNum(n: int)
    | JStr(s: string)
    | JArr(items: seq<Json>)
    | JObj(fields: map<string, Json>)

  /** A JSON object, i.e. a Python dict with string keys. */
  type Object = map<string, Json>

  /** Python's `d.update(extra)`: every key of `extra` is added, and on a
      collision the value from `extra` wins. */
  function Update(d: Object, extra: Object): Object
  {
    d + extra
  }

  /** The mapping an optional handler attribute contributes to an update:
      an absent attribute contributes nothing. */
  function Extra(attr: Option<Object>): Object
  {
    if attr.Some? then attr.value else map[]
  }
}
