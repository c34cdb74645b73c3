/** Values exchanged with the REST API: an optional value, and the parsed JSON
    that `response.json()` yields, with Python's truthiness of such a value. */
module Values {

  /** A value that may be absent: Python's `None` or a missing key. */
  datatype Option<+T> = None | Some(value: T)

  /** A parsed JSON document.  Numbers are integers here (see README). */
  datatype Json =
    | JNull
    | JBool(b: bool)
    | JNum(n: int)
    | JStr(s: string)
    | JArr(elems: seq<Json>)
    | JObj(fields: map<string, Json>)

  /** The JSON values whose Python objects are false: `None`, `False`, `0`,
      `""`, `[]` and `{}`. */
  const Falsy: set<Json> := {JNull, JBool(false), JNum(0), JStr([]), JArr([]), JObj(map[])}

  /** Python's truth value of the object that `json()` builds for `v`. */
  predicate Truthy(v: Json): (t: bool)
    ensures t <==> v !in Falsy
  {
    match v
    case JNull => false
    case JBool(b) => b
    case JNum(n) => n != 0
    case JStr(s) => s != []
    case JArr(elems) => elems != []
    case JObj(fields) => fields != map[]
  }

  /** The Python object `response.json()` returns for `v`, read as an
      optional value: JSON `null` becomes `None`, the same `None` that the
      single-record operations return on failure. */
  function AsPython(v: Json): (r: Option<Json>)
    ensures r.None? <==> v == JNull
    ensures r.Some? ==> r.value == v
  {
    if v == JNull then None else Some(v)
  }

  /** The empty JSON object `{}`. */
  const EmptyObject: Json := JObj(map[])
}
