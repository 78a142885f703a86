/** The `useStartSession` hook: a loading flag around `POST /api/start-session`. */
module StartSessionHook {
  import opened Wrappers
  import opened Json
  import opened Fetch
  import Api
  import Wire

  const FailedToStart: string := "Failed to start session"

  /** The request `startSession(params)` sends. */
  function StartRequest(params: Api.SessionRequest): (r: HttpRequest)
    ensures r.verb == "POST" && r.url == BaseUrl + "/api/start-session"
    ensures r.body.Some? && Wire.DecodeSessionRequest(r.body.value) == Some(params)
  {
    Wire.SessionRequestRoundTrip(params);
    HttpRequest("POST", BaseUrl + "/api/start-session", Some(Wire.SessionRequestJson(params)))
  }

  /**
   * How the promise `startSession` returns settles, given how `fetch` settled:
   * the response body (a session id, or `None` for a `null` body) on an ok
   * response, and a rejection otherwise.
   */
  function StartOutcome(outcome: FetchOutcome<Option<string>>): (r: Result<Option<string>, Thrown>)
    ensures r.Ok? <==> outcome.Responded? && outcome.ok
    ensures r.Ok? ==> r.value == outcome.body
    ensures outcome.Responded? && !outcome.ok ==> r == Err(ErrorValue(FailedToStart))
    ensures outcome.Rejected? ==> r == Err(outcome.thrown)
  {
    match outcome
    case Responded(ok, body) => if ok then Ok(body) else Err(ErrorValue(FailedToStart))
    case Rejected(thrown) => Err(thrown)
  }

  class StartSession {
    var isLoading: bool
    /** A call has issued its request and not yet settled. */
    ghost var pending: bool

    ghost predicate Valid()
      reads this
    {
      isLoading <==> pending
    }

    constructor()
      ensures Valid() && !isLoading && !pending
    {
      isLoading := false;
      pending := false;
    }

    /** `startSession(params)` up to the awaited `fetch`: loading is on and the request is out. */
    method Begin(params: Api.SessionRequest) returns (req: HttpRequest)
      modifies this
      ensures Valid() && isLoading && pending
      ensures req == StartRequest(params)
    {
      isLoading := true;
      pending := true;
      req := StartRequest(params);
    }

    /** The rest of `startSession`: the `finally` clears loading on every path. */
    method Settle(outcome: FetchOutcome<Option<string>>) returns (r: Result<Option<string>, Thrown>)
      requires pending
      modifies this
      ensures Valid() && !isLoading && !pending
      ensures r == StartOutcome(outcome)
    {
      match outcome {
        case Responded(ok, body) =>
          if !ok {
            r := Err(ErrorValue(FailedToStart));
          } else {
            r := Ok(body);
          }
        case Rejected(thrown) =>
          r := Err(thrown);
      }
      isLoading := false;
      pending := false;
    }
  }
}
