/** Decoded JSON payloads, as `response.json()` hands them to the adapters,
    and Python's `dict.get` on them. */
module Json {
  import opened Python

  /** A decoded JSON document. JSON `null` is Python's `None`; a JSON object
      is a Python `dict`. Numbers are kept exact (no floating point). */
  datatype Json =
    | JNull
    | JBool(b: bool)
    | JNumber(n: real)
    | JString(s: string)
    | JArray(items: seq<Json>)
    | JObject(members: map<string, Json>)

  /** `v.get(key)`: only a `dict` has `.get`, and it yields `None` for a
      missing key; on any other value the attribute lookup raises
      `AttributeError`. */
  function Get(v: Json, key: string): (r: Outcome<Json>)
    ensures r.Ok? <==> v.JObject?
    ensures r.Raise? ==> r.exc == AttributeError
    ensures r.Ok? && key !in v.members ==> r.value == JNull
  {
    match v
    case JObject(m) => Ok(if key in m then m[key] else JNull)
    case _ => Raise(AttributeError)
  }
}
