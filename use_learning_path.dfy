/** The `useLearningPath` hook: fetches the learning path once per hook instance. */
module LearningPathHook {
  import opened Wrappers
  import opened Json
  import opened Fetch

  const FailedToGenerate: string := "Failed to generate learning path"

  class LearningPath {
    var sessionId: string
    var learningPath: seq<Json>
    var isLoading: bool
    var error: Option<string>
    /** The `effectRan` ref: set by the first effect run and never reset. */
    var effectRan: bool
    /** Requests for the learning path issued so far by this instance. */
    ghost var fetches: nat
    ghost var phase: Phase

    ghost predicate Valid()
      reads this
    {
      && (effectRan <==> phase != Idle)
      && fetches == (if effectRan then 1 else 0)
      && (phase != Settled ==> learningPath == [] && error == None && isLoading)
      && (phase == Settled ==> !isLoading)
      && (error.Some? ==> learningPath == [])
    }

    /** The hook's first render: no path, no error, loading. */
    constructor(sessionId: string)
      ensures Valid() && phase == Idle
      ensures this.sessionId == sessionId && learningPath == [] && isLoading && error == None && !effectRan
    {
      this.sessionId := sessionId;
      learningPath := [];
      isLoading := true;
      error := None;
      effectRan := false;
      fetches := 0;
      phase := Idle;
    }

    /** The effect body: only its first run issues `GET /api/learning-path/{id}`, without a search term. */
    method RunEffect() returns (req: Option<HttpRequest>)
      requires Valid()
      modifies this
      ensures Valid() && fetches <= 1
      ensures old(effectRan) ==> req == None && unchanged(this)
      ensures !old(effectRan) ==>
                && req == Some(HttpRequest("GET", BaseUrl + "/api/learning-path/" + sessionId, None))
                && phase == InFlight && fetches == 1
      ensures sessionId == old(sessionId) && learningPath == old(learningPath)
      ensures isLoading == old(isLoading) && error == old(error)
    {
      if effectRan {
        return None;
      }
      effectRan := true;
      fetches := fetches + 1;
      phase := InFlight;
      req := Some(HttpRequest("GET", BaseUrl + "/api/learning-path/" + sessionId, None));
    }

    /** A new `sessionId` re-runs the effect, which the guard stops once it has run. */
    method ChangeSessionId(id: string) returns (req: Option<HttpRequest>)
      requires Valid()
      modifies this
      ensures Valid() && sessionId == id && fetches <= 1
      ensures old(effectRan) ==> req == None && fetches == old(fetches) && phase == old(phase)
                                 && learningPath == old(learningPath) && error == old(error)
      ensures !old(effectRan) ==> req == Some(HttpRequest("GET", BaseUrl + "/api/learning-path/" + id, None))
                                  && phase == InFlight && fetches == 1
                                  && learningPath == old(learningPath) && error == old(error)
    {
      sessionId := id;
      req := RunEffect();
    }

    /**
     * The awaited request settles. An ok response fills `learningPath`; every
     * other outcome is caught into `error`, with the fallback text for a
     * non-`Error` throw. Loading ends on every path.
     */
    method Settle(outcome: FetchOutcome<seq<Json>>)
      requires Valid() && phase == InFlight
      modifies this
      ensures Valid() && phase == Settled && !isLoading
      ensures sessionId == old(sessionId) && effectRan && fetches == old(fetches)
      ensures outcome.Responded? && outcome.ok ==> learningPath == outcome.body && error == None
      ensures outcome.Responded? && !outcome.ok ==> learningPath == [] && error == Some(FailedToGenerate)
      ensures outcome.Rejected? ==>
                learningPath == [] && error == Some(MessageOf(outcome.thrown, FailedToGenerate))
    {
      match outcome {
        case Responded(ok, body) =>
          if !ok {
            error := Some(FailedToGenerate);
          } else {
            learningPath := body;
          }
        case Rejected(thrown) =>
          match thrown {
            case ErrorValue(message) => error := Some(message);
            case OtherValue => error := Some(FailedToGenerate);
          }
      }
      isLoading := false;
      phase := Settled;
    }
  }
}
