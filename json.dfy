/** JSON values as they travel between the browser pages and the Flask routes. */
module Json {

  datatype Option<+T> = None | Some(value: T)

  datatype Result<+T, +E> = Success(value: T) | Failure(error: E)

  /** A scalar JSON value. Numbers are exact reals: floating-point rounding is not modelled. */
  datatype JsonValue = JNull | JBool(b: bool) | JNum(n: real) | JStr(s: string)

  /** A JSON object: a request body, a payload built by a page, a serialised row. */
  type Body = map<string, JsonValue>

  /** Truthiness; Python (`not v`) and JavaScript (`if (v)`) agree on every scalar here. */
  predicate Truthy(v: JsonValue)
  {
    match v
    case JNull => false
    case JBool(b) => b
    case JNum(n) => n != 0.0
    case JStr(s) => s != ""
  }

  /** Python's `value in (None, "")`. */
  predicate NullOrEmpty(v: JsonValue)
  {
    v == JNull || v == JStr("")
  }

  /** `data = request.get_json()` followed by `if not data:` rejects a missing body and `{}`. */
  predicate HasContent(data: Option<Body>)
  {
    data.Some? && data.value != map[]
  }

  /** `k not in data or data.get(k) in (None, "")`. */
  predicate MissingOrBlank(data: Body, k: string)
  {
    k !in data || NullOrEmpty(data[k])
  }

  /** Python's `data.get(k)`: the value, or None when the key is absent. */
  function Get(data: Body, k: string): (v: JsonValue)
    ensures k !in data ==> v == JNull
    ensures k in data ==> v == data[k]
  {
    if k in data then data[k] else JNull
  }
}
