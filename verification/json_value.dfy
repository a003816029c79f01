/** A decoded JSON value, as Python's `json` module produces it. Objects are
    Python dicts with string keys; arrays are lists. */
module JsonValue {

  datatype Json =
    | JNull
    | JBool(b: bool)
    | JInt(i: int)
    | JFloat(f: real)
    | JString(s: string)
    | JArray(items: seq<Json>)
    | JObject(fields: map<string, Json>)

  /** Python's `isinstance(x, (int, float))`. `bool` is a subclass of `int`
      in Python, so a JSON boolean passes this test too. */
  predicate IsNumber(j: Json) {
    j.JBool? || j.JInt? || j.JFloat?
  }
}
