/** JSON values as Python's `json` module produces them: request and
    response bodies are schema-free trees. Python's `None` and JSON `null` are
    the same value, so `JNull` also stands for "no body" and "no query
    parameters" when it is passed to the transport. Numbers are integers only. */
module JsonValues {
  import opened Wrappers
  import Text

  datatype Json =
    | JNull
    | JBool(b: bool)
    | JNumber(n: int)
    | JString(str: string)
    | JArray(items: seq<Json>)
    | JObject(fields: map<string, Json>)

  /** Python's `key in value` for a decoded JSON value: key membership for a
      dict, substring test for a str, element test for a list; for None,
      bool and numbers the operator raises TypeError (`None` here). */
  function PyIn(key: string, j: Json): (r: Option<bool>)
    ensures r.None? <==> (j.JNull? || j.JBool? || j.JNumber?)
    ensures j.JObject? ==> r == Some(key in j.fields)
  {
    match j
    case JObject(fields) => Some(key in fields)
    case JString(s) => Some(Text.Contains(s, key))
    case JArray(items) => Some(JString(key) in items)
    case _ => None
  }

  /** Python's `value[key]` with a str key on a decoded JSON value: only a
      dict can be subscripted by a string; every other kind raises TypeError
      (`None` here). */
  function PySubscript(j: Json, key: string): (r: Option<Json>)
    requires j.JObject? ==> key in j.fields
    ensures r.Some? <==> j.JObject?
    ensures r.Some? ==> r.value == j.fields[key]
  {
    if j.JObject? then Some(j.fields[key]) else None
  }
}
