/** JSON-shaped values: request bodies, response payloads and the free-form
    `metadata` mappings of metadata-store records. */
module JsonValues {

  /** A decoded JSON value. A number without fraction or exponent decodes
      to a Python `int`, any other to a `float`; numbers are only ever
      copied, never computed with, so a float is kept as an exact real. */
  datatype Json =
    | JNull
    | JBool(b: bool)
    | JNumber(n: int)
    | JFloat(r: real)
    | JString(s: string)
    | JArray(items: seq<Json>)
    | JObject(fields: map<string, Json>)
}
