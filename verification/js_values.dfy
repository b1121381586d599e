/**
  The few JavaScript runtime notions the two route handlers rely on: an
  optional form or body field, a thrown value, and an awaited call that either
  returns or throws.
 */
module JsValues {

  datatype Option<+T> = None | Some(value: T)

  /** What a `throw` carries: an `Error` instance with its message, or any other value. */
  datatype Thrown = ErrorInstance(message: string) | OtherValue

  /** The settled result of an awaited call. */
  datatype Outcome<+T> = Returns(value: T) | Throws(thrown: Thrown)

  /** A value `JSON.parse` can produce. */
  datatype Json =
    | JNull
    | JBool(b: bool)
    | JNumber(n: real)
    | JString(s: string)
    | JArray(items: seq<Json>)
    | JObject(members: seq<(string, Json)>)

  const UnknownErrorMessage := "An unknown error occurred"

  /** The message a `catch` block reports: `error instanceof Error ? error.message : ...`. */
  function CaughtMessage(t: Thrown): string
  {
    match t
    case ErrorInstance(m) => m
    case OtherValue => UnknownErrorMessage
  }

  /** JavaScript truthiness of an optional string: `null` and `""` are falsy. */
  predicate Truthy(s: Option<string>)
  {
    s.Some? && s.value != ""
  }
}
