/**
 * The `useInitialSurvey` hook: fetches the initial questions once per hook
 * instance and submits the answers.
 */
module InitialSurveyHook {
  import opened Wrappers
  import opened Json
  import opened Store
  import opened Fetch
  import Wire

  const FailedToFetch: string := "Failed to fetch questions"
  const FailedToSubmit: string := "Failed to submit responses"

  class InitialSurvey {
    var sessionId: string
    var questions: seq<Json>
    var isLoading: bool
    /** The `effectRan` ref: set by the first effect run and never reset. */
    var effectRan: bool
    /** Requests for the questions issued so far by this instance. */
    ghost var fetches: nat
    ghost var phase: Phase

    ghost predicate Valid()
      reads this
    {
      && (effectRan <==> phase != Idle)
      && fetches == (if effectRan then 1 else 0)
      && (phase != Settled ==> questions == [] && isLoading)
      && (phase == Settled ==> !isLoading)
    }

    /** The hook's first render: no questions and loading. */
    constructor(sessionId: string)
      ensures Valid() && phase == Idle
      ensures this.sessionId == sessionId && questions == [] && isLoading && !effectRan
    {
      this.sessionId := sessionId;
      questions := [];
      isLoading := true;
      effectRan := false;
      fetches := 0;
      phase := Idle;
    }

    /** The effect body: only its first run issues `GET /api/initial-survey/{id}`. */
    method RunEffect() returns (req: Option<HttpRequest>)
      requires Valid()
      modifies this
      ensures Valid() && fetches <= 1
      ensures old(effectRan) ==> req == None && unchanged(this)
      ensures !old(effectRan) ==>
                && req == Some(HttpRequest("GET", BaseUrl + "/api/initial-survey/" + sessionId, None))
                && phase == InFlight && fetches == 1
      ensures sessionId == old(sessionId) && questions == old(questions) && isLoading == old(isLoading)
    {
      if effectRan {
        return None;
      }
      effectRan := true;
      fetches := fetches + 1;
      phase := InFlight;
      req := Some(HttpRequest("GET", BaseUrl + "/api/initial-survey/" + sessionId, None));
    }

    /** A new `sessionId` re-runs the effect, which the guard stops once it has run. */
    method ChangeSessionId(id: string) returns (req: Option<HttpRequest>)
      requires Valid()
      modifies this
      ensures Valid() && sessionId == id && fetches <= 1
      ensures old(effectRan) ==> req == None && fetches == old(fetches) && phase == old(phase)
                                 && questions == old(questions)
      ensures !old(effectRan) ==> req == Some(HttpRequest("GET", BaseUrl + "/api/initial-survey/" + id, None))
                                  && phase == InFlight && fetches == 1 && questions == old(questions)
    {
      sessionId := id;
      req := RunEffect();
    }

    /**
     * The awaited request settles. Only an ok response fills `questions`; the
     * error of any other outcome is rethrown out of the effect, unhandled, and
     * is returned here. Loading ends on every path.
     */
    method Settle(outcome: FetchOutcome<seq<Json>>) returns (unhandled: Option<Thrown>)
      requires Valid() && phase == InFlight
      modifies this
      ensures Valid() && phase == Settled && !isLoading
      ensures sessionId == old(sessionId) && effectRan && fetches == old(fetches)
      ensures outcome.Responded? && outcome.ok ==> questions == outcome.body && unhandled == None
      ensures outcome.Responded? && !outcome.ok ==>
                questions == [] && unhandled == Some(ErrorValue(FailedToFetch))
      ensures outcome.Rejected? ==> questions == [] && unhandled == Some(outcome.thrown)
    {
      unhandled := None;
      match outcome {
        case Responded(ok, body) =>
          if !ok {
            unhandled := Some(ErrorValue(FailedToFetch));
          } else {
            questions := body;
          }
        case Rejected(thrown) =>
          unhandled := Some(thrown);
      }
      isLoading := false;
      phase := Settled;
    }

    /**
     * `submitResponses(responses)`: posts the responses, in order, for this
     * session; true on an ok response, a rejection otherwise.
     */
    method SubmitResponses(responses: seq<SurveyResponse>, outcome: FetchOutcome<()>)
      returns (req: HttpRequest, r: Result<bool, Thrown>)
      ensures req.verb == "POST"
      ensures req.url == BaseUrl + "/api/submit-survey-response?session_id=" + sessionId
      ensures req.body.Some? && Wire.DecodeResponses(req.body.value) == Some(responses)
      ensures r.Ok? <==> outcome.Responded? && outcome.ok
      ensures r.Ok? ==> r.value
      ensures outcome.Responded? && !outcome.ok ==> r == Err(ErrorValue(FailedToSubmit))
      ensures outcome.Rejected? ==> r == Err(outcome.thrown)
    {
      Wire.ResponsesRoundTrip(responses);
      req := HttpRequest("POST", BaseUrl + "/api/submit-survey-response?session_id=" + sessionId,
                         Some(Wire.ResponsesJson(responses)));
      match outcome {
        case Responded(ok, _) =>
          if !ok {
            return req, Err(ErrorValue(FailedToSubmit));
          }
          r := Ok(true);
        case Rejected(thrown) =>
          r := Err(thrown);
      }
    }
  }
}
