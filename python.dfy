/** Python-level vocabulary shared by the three clients: optional values,
    results that are either a value or a raised exception, the exceptions the
    modelled code can raise, and the immutable tree that `json.load` decodes a
    response body into. */
module Python {

  datatype Option<+T> = None | Some(value: T)

  /** The outcome of a Python call: a returned value or a raised exception. */
  datatype Result<+T> = Ok(value: T) | Err(error: Exception)

  datatype Exception =
    | KeyError(key: string)              // `d[key]` on a dict without `key`
    | AttributeError(name: string)       // reading a missing attribute
    | TypeError(message: string)         // an operation applied to the wrong kind of value
    | ValueError(message: string)        // a date string the date parser rejects
    | NameError(name: string)            // reading a name that was never bound
    | IndexError                         // indexing an empty list
    | TemplateSyntaxError(message: string)
    | BitlyError(errorMessage: Json)

  /** A decoded JSON document. Floating-point numbers are not modelled. */
  datatype Json =
    | JNull
    | JBool(b: bool)
    | JInt(i: int)
    | JString(s: string)
    | JArray(elems: seq<Json>)
    | JObject(fields: map<string, Json>)

  /** Python's `j[key]` with a string key: a dict lookup that raises
      `KeyError` for a missing key; every other kind of value refuses a
      string subscript with a `TypeError`. */
  function Index(j: Json, key: string): (r: Result<Json>)
    ensures r.Ok? <==> j.JObject? && key in j.fields
    ensures r.Ok? ==> r.value == j.fields[key]
    ensures j.JObject? && key !in j.fields ==> r == Err(KeyError(key))
    ensures !j.JObject? ==> r.Err? && r.error.TypeError?
  {
    match j
    case JObject(fields) => if key in fields then Ok(fields[key]) else Err(KeyError(key))
    case _ => Err(TypeError("string indices on a non-dict"))
  }

  /** Python's `j.get(key, default)`: only dicts have a `get` method. */
  function Get(j: Json, key: string, default: Json): (r: Result<Json>)
    ensures r.Ok? <==> j.JObject?
    ensures j.JObject? ==> r.value == if key in j.fields then j.fields[key] else default
    ensures !j.JObject? ==> r == Err(AttributeError("get"))
  {
    match j
    case JObject(fields) => Ok(if key in fields then fields[key] else default)
    case _ => Err(AttributeError("get"))
  }
}
