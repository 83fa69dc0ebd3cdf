/** Values shared by every component: optional values, what a JavaScript `throw`
    carries, the backend's response envelope and the outcome of one awaited call. */
module Wrappers {

  datatype Option<+T> = None | Some(value: T) {
    function GetOr(default: T): T {
      match this
      case Some(v) => v
      case None => default
    }
  }

  /** What a rejected promise or a `throw` carries: an `Error` object with its
      `message`, or some other value (for which `err instanceof Error` is false). */
  datatype Thrown = ErrorObject(message: string) | OtherValue

  /** A synchronous call that returns a value or throws. */
  datatype Result<T> = Ok(value: T) | Err(error: Thrown)

  /** `err instanceof Error ? err.message : fallback`, the catch clause every
      component uses. An `Error` whose message is empty still yields that empty message. */
  function ErrorText(t: Thrown, fallback: string): (r: string)
    ensures t.ErrorObject? ==> r == t.message
    ensures t.OtherValue? ==> r == fallback
  {
    match t
    case ErrorObject(m) => m
    case OtherValue => fallback
  }

  /** `a || b` on strings: the empty string is falsy. An absent string field is
      represented by the empty string, which is falsy too. */
  function OrElse(a: string, b: string): (r: string)
    ensures a != "" ==> r == a
    ensures a == "" ==> r == b
    ensures r == "" <==> a == "" && b == ""
  {
    if a != "" then a else b
  }

  /** Truthiness of an optional string field: undefined, null and "" are falsy. */
  predicate Truthy(o: Option<string>) {
    o.Some? && o.value != ""
  }

  /** The backend's uniform response `{success, message, data, error}`.
      A missing `message` or `error` is the empty string; a missing, null or
      otherwise falsy `data` is `None`. */
  datatype Envelope<T> = Envelope(success: bool, message: string, data: Option<T>, error: string)

  /** The outcome of awaiting one service call inside a component: the envelope
      it resolved to, or the value it was rejected with. */
  datatype Call<T> = Returned(response: Envelope<T>) | Threw(thrown: Thrown)

  /** What `fetch` followed by `response.json()` delivers: the HTTP status class
      (`response.ok`) and the parsed body, or a rejection (network failure,
      unparseable body). This is the model's stand-in for the network. */
  datatype Reply<T> = Delivered(ok: bool, body: Envelope<T>) | Unreachable(thrown: Thrown)
}
