/**
 * Values shared by every handler: optional values, what awaiting an upstream
 * request yields, JavaScript truthiness on optional strings, and the shapes of
 * an HTTP handler's answer and of a server action's completion.
 */
module Wrappers {

  datatype Option<+T> = None | Some(value: T) {
    function GetOr(default: T): T {
      match this
      case Some(v) => v
      case None => default
    }
  }

  /** What `await fetch(...)` followed by `await response.json()` yields:
      an ok response with its parsed payload, a non-ok response whose error
      body carries an optional `error.message`, or a rejected promise. */
  datatype Reply<+T> = Ok(payload: T) | Err(message: Option<string>) | Threw(reason: string)

  /** What `await request.json()` yields: the parsed body, or the message of
      the error it throws on a body that is not JSON. */
  datatype JsonBody<+T> = Parsed(value: T) | Malformed(reason: string)

  /** JavaScript truthiness of a value that is either a string or absent:
      `undefined` and `""` are falsy, every other string is truthy. */
  predicate Truthy(s: Option<string>) {
    s.Some? && s.value != ""
  }

  /** `errorData.error?.message || "Unknown error"` */
  function MessageOr(message: Option<string>): (r: string)
    ensures r != ""
    ensures r == "Unknown error" || Some(r) == message
    ensures Truthy(message) <==> Some(r) == message
  {
    if Truthy(message) then message.value else "Unknown error"
  }

  /** A value interpolated into a template literal: `${undefined}` is the text "undefined". */
  function Interpolate(s: Option<string>): string {
    match s
    case Some(v) => v
    case None => "undefined"
  }

  /** A route handler's JSON answer: status 200 with a body, or an error status
      with `{ error }`. */
  datatype HttpResult<+T> = Success(body: T) | Failure(status: int, error: string)

  /** How a server action ends: it returns, it throws an `Error` with a message,
      or `redirect(location)` throws Next.js's redirect signal. */
  datatype Completion<+T> = Returned(value: T) | Raised(message: string) | Redirected(location: string)

  /** Timestamps (`new Date()`) are opaque; the handlers receive the current one. */
  type Time = nat
}
