/**
 * What the frontend hooks see of `fetch`: the request they issue and the
 * outcome they await, which is either a response (with `ok` and the decoded
 * body) or a rejection carrying the thrown value.
 */
module Fetch {
  import opened Wrappers
  import opened Json

  /** The backend address the hooks call. */
  const BaseUrl: string := "http://localhost:8000"

  /** A value thrown in JavaScript: an `Error` with its message, or anything else. */
  datatype Thrown = ErrorValue(message: string) | OtherValue

  /** How an awaited `fetch` (and the decoding of its body) settles. */
  datatype FetchOutcome<T> = Responded(ok: bool, body: T) | Rejected(thrown: Thrown)

  /** A request as the hooks issue it; every request is sent with a JSON content type. */
  datatype HttpRequest = HttpRequest(verb: string, url: string, body: Option<Json>)

  /** Where a hook's one request is: not yet issued, awaited, or settled. */
  datatype Phase = Idle | InFlight | Settled

  /** `err instanceof Error ? err.message : fallback` */
  function MessageOf(thrown: Thrown, fallback: string): (r: string)
    ensures thrown.ErrorValue? ==> r == thrown.message
    ensures thrown.OtherValue? ==> r == fallback
  {
    match thrown
    case ErrorValue(message) => message
    case OtherValue => fallback
  }
}
