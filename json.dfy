/** Parsed JSON values as Python holds them (`None`, `bool`, `int`, `str`,
    `list`, `dict`), with the three Python operations the scripts apply to
    them: truth testing, `str()` and `d[key]`. */
module Json {
  import opened Wrappers
  import opened Text

  datatype Json =
    | JNull
    | JBool(b: bool)
    | JInt(i: int)
    | JStr(s: string)
    | JArray(elems: seq<Json>)
    | JObject(fields: map<string, Json>)

  /** Python's `bool(v)`: `None`, `False`, `0` and empty containers are false. */
  predicate Truthy(v: Json) {
    match v
    case JNull => false
    case JBool(b) => b
    case JInt(i) => i != 0
    case JStr(s) => s != ""
    case JArray(elems) => elems != []
    case JObject(fields) => fields != map[]
  }

  /** Python's `str(v)` for the scalar values; a list or a dict renders as a
      fixed placeholder (Python's `repr` of containers is not modelled). */
  function Str(v: Json): string {
    match v
    case JNull => "None"
    case JBool(b) => if b then "True" else "False"
    case JInt(i) => IntToString(i)
    case JStr(s) => s
    case JArray(_) => "[...]"
    case JObject(_) => "{...}"
  }

  /** Python's `v[key]` with a string key: a dict yields the value or raises
      `KeyError`; subscripting any other value by a string raises `TypeError`. */
  function Subscript(v: Json, key: string): (r: Result<Json, PyError>)
    ensures r.Ok? <==> v.JObject? && key in v.fields
    ensures r.Ok? ==> r.value == v.fields[key]
    ensures r.Err? ==> r.error == (if v.JObject? then KeyError(key) else TypeError)
  {
    match v
    case JObject(fields) => if key in fields then Ok(fields[key]) else Err(KeyError(key))
    case _ => Err(TypeError)
  }
}
