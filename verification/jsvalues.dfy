/** JavaScript values as `JSON.parse` produces them, with the three
    operations the response mapping applies to them: property reads,
    truthiness, and the `a || d` default idiom. */
module JsValues {
  import opened Base

  /** A parsed JSON value. JSON numbers are exact reals here (no NaN or
      infinities occur in JSON text); an object maps each key to the value
      its last occurrence carries, as `JSON.parse` keeps it. */
  datatype Json =
    | JNull
    | JBool(b: bool)
    | JNum(n: real)
    | JStr(s: string)
    | JArr(items: seq<Json>)
    | JObj(fields: map<string, Json>)

  /** Reading property `key` of a non-null value: objects answer with their
      field, every other JSON value (number, string, boolean, array) has no
      property of the names the model reads, so the read gives `undefined`.
      Reading from `null` throws; callers handle that case before reading. */
  function Prop(v: Json, key: string): Option<Json> {
    match v
    case JObj(m) => if key in m then Some(m[key]) else None
    case _ => None
  }

  /** JavaScript truthiness of a value that may be `undefined`: `undefined`,
      `null`, `false`, `0` and `""` are falsy, everything else is truthy
      (empty arrays and objects included). */
  predicate Truthy(v: Option<Json>) {
    match v
    case None => false
    case Some(JNull) => false
    case Some(JBool(b)) => b
    case Some(JNum(n)) => n != 0.0
    case Some(JStr(s)) => s != ""
    case Some(JArr(_)) => true
    case Some(JObj(_)) => true
  }

  /** The JavaScript expression `v || d`. */
  function OrElse(v: Option<Json>, d: Json): Json {
    if Truthy(v) then v.value else d
  }

  /** `v` is what `raw || d` evaluates to: the value read when it is truthy,
      the default otherwise. */
  ghost predicate DefaultedFrom(v: Json, raw: Option<Json>, d: Json) {
    (Truthy(raw) ==> Some(v) == raw) && (!Truthy(raw) ==> v == d)
  }
}
