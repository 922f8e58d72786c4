/** The JSON values exchanged with the Betfair Exchange's JSON-RPC endpoint.

    Numbers that the client rounds to two decimal places (a stake, a price)
    are kept exactly, as a count of hundredths; whole numbers (a selection
    id, the request id) are integers. An object is a map from names to
    values: the order of its members carries no meaning. */
module Json {
  import opened Wrappers

  datatype Json =
    | JNull
    | JBool(b: bool)
    | JInt(n: int)
    | JDecimal(hundredths: int)
    | JString(s: string)
    | JArray(items: seq<Json>)
    | JObject(fields: map<string, Json>)

  /** The member `name` of an object; `None` for a missing member or a
      value that is not an object. */
  function Member(j: Json, name: string): Option<Json> {
    if j.JObject? && name in j.fields then Some(j.fields[name]) else None
  }
}
