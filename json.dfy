/** The JSON values that `json.loads` produces and `json.dumps` consumes. */
module JsonValues {
  import opened Results

  /** A decoded JSON document; an object is a Python `dict` with string keys. */
  datatype Json =
    | JNull
    | JBool(b: bool)
    | JInt(i: int)
    | JStr(s: string)
    | JArray(items: seq<Json>)
    | JObject(fields: map<string, Json>)

  /** Python's `dict.get(key)`: `None` both when the key is absent and when it maps to `null`. */
  function Get(fields: map<string, Json>, key: string): (r: Option<Json>)
    ensures r.Some? <==> key in fields && fields[key] != JNull
    ensures r.Some? ==> r.value == fields[key]
  {
    if key in fields && fields[key] != JNull then Some(fields[key]) else None
  }
}
