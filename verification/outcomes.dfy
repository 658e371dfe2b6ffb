/** Values shared by the whole model: optional values, results of operations
    that can raise, the errors the client raises, and deserialized JSON. */
module Outcomes {

  datatype Option<+T> = None | Some(value: T)

  /** The client reports failures by raising; a raised exception is an `Err`. */
  datatype Result<+T> = Ok(value: T) | Err(error: Error)

  datatype Error =
    | ConfigError               // neither a token nor a username/password pair (RuntimeError)
    | NetworkError              // the transport or the JSON decoding failed
    | MissingField(name: string) // indexing a response by a key it does not have
    | NotAMapping(name: string)  // a response field that should be a dictionary is not one
    | BadTimestamp(key: string)  // int(key) rejects a time-series key
    | NoReading(key: string)     // val[0] fails on a time-series entry
    | InsufficientData          // fewer than two samples to integrate

  /** A deserialized JSON value. Python's `None` is `JNull`. */
  datatype Json =
    | JNull
    | JBool(b: bool)
    | JNum(n: real)
    | JStr(s: string)
    | JArr(items: seq<Json>)
    | JObj(fields: map<string, Json>)

  /** `j[name]` on a deserialized response: a KeyError or TypeError unless `j`
      is an object holding `name`. */
  function Field(j: Json, name: string): (r: Result<Json>)
    ensures r.Ok? <==> j.JObj? && name in j.fields
    ensures r.Ok? ==> r.value == j.fields[name]
    ensures r.Err? ==> r.error == MissingField(name)
  {
    if j.JObj? && name in j.fields then Ok(j.fields[name]) else Err(MissingField(name))
  }
}
