/** The values `json.load` hands to the normaliser, and the few Python
    operations it applies to them: `dict.get` and truthiness. Iteration over
    a value is `Normaliser.IterationFault`. */
module JsonValues {
  import opened Wrappers

  /** A decoded JSON value as Python holds it: null is None, a number is an
      int or a float (both a real here, since 1 == 1.0 in Python), an object
      is a dict. */
  datatype Json =
    | JNull
    | JBool(b: bool)
    | JNumber(n: real)
    | JString(s: string)
    | JArray(items: seq<Json>)
    | JObject(fields: map<string, Json>)

  /** The `{}` and `[]` defaults of the source's `.get` calls. */
  const EmptyObject: Json := JObject(map[])
  const EmptyList: Json := JArray([])

  /** `d.get(key, default)` on a dict `d`; a one-argument `.get` has default None. */
  function Get(d: map<string, Json>, key: string, default: Json): Json {
    if key in d then d[key] else default
  }

  /** Python's `bool(v)`: None, False, 0, "", [] and {} are falsy. */
  predicate Truthy(v: Json) {
    match v
    case JNull => false
    case JBool(b) => b
    case JNumber(n) => n != 0.0
    case JString(s) => s != ""
    case JArray(xs) => xs != []
    case JObject(m) => m != map[]
  }

  /** A path query over a value: the value found by following `path` through
      objects, or None when a key is missing or a step is not an object. It
      is the reference the `.get` chains of the normaliser are compared with. */
  function Lookup(v: Json, path: seq<string>): Option<Json>
    decreases |path|
  {
    if path == [] then Some(v)
    else if v.JObject? && path[0] in v.fields then Lookup(v.fields[path[0]], path[1..])
    else None
  }

  /** The number of elements of a list, and 0 for anything else. */
  function Length(v: Json): nat {
    if v.JArray? then |v.items| else 0
  }
}
