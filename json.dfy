/** Decoded JSON values, as `response.json()` produces them. The decoder itself
    belongs to the HTTP library and is not modelled: a decoded value is given. */
module Json {

  datatype Json =
    | JNull
    | JBool(b: bool)
    | JNumber(n: real)
    | JString(s: string)
    | JArray(items: seq<Json>)
    | JObject(fields: map<string, Json>)

  /** The empty object `{}`. */
  const EmptyObject: Json := JObject(map[])
}
