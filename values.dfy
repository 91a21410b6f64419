/** Values shared by every part of the model: an optional value (JavaScript's
    `undefined` is `None`), JSON documents, and JavaScript truthiness. */
module Values {

  datatype Option<+T> = None | Some(value: T)

  /** A JSON value as it travels in request and response bodies.
      Numbers are integers: floating point is not part of this model. */
  datatype Json =
    | JNull
    | JBool(b: bool)
    | JNum(n: int)
    | JStr(s: string)
    | JArr(items: seq<Json>)
    | JObj(fields: map<string, Json>)

  /** `!!v` in JavaScript for a JSON value that may be `undefined` (None). */
  predicate Truthy(v: Option<Json>)
  {
    match v
    case None => false
    case Some(JNull) => false
    case Some(JBool(b)) => b
    case Some(JNum(n)) => n != 0
    case Some(JStr(s)) => s != ""
    case Some(JArr(_)) => true
    case Some(JObj(_)) => true
  }

  /** A string that may be `undefined` is truthy iff it is present and non-empty. */
  predicate Filled(s: Option<string>)
  {
    s.Some? && s.value != ""
  }

  /** The field `key` of a JSON object, or `undefined`. */
  function Field(fields: map<string, Json>, key: string): Option<Json>
  {
    if key in fields then Some(fields[key]) else None
  }
}
