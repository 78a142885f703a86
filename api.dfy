/**
 * The HTTP endpoint handlers: each adds its own checks in front of the
 * services, wraps the result in the response body, and passes every
 * `HttpError` a service raises through unchanged.
 */
module Api {
  import opened Wrappers
  import opened Json
  import opened Store
  import AssistantService
  import SessionService
  import SurveyService

  /** The body of `POST /api/start-session`. */
  datatype SessionRequest = SessionRequest(universityId: string, majorId: string, studentType: string)

  /** `major_id_to_name`: the display name of the two known majors, "Unknown" otherwise. */
  function MajorIdToName(majorId: string): (r: string)
    ensures majorId == "cs" ==> r == "Computer Science"
    ensures majorId == "dh" ==> r == "Digital Health"
    ensures majorId != "cs" && majorId != "dh" ==> r == "Unknown"
  {
    var names := map["cs" := "Computer Science", "dh" := "Digital Health"];
    if majorId in names then names[majorId] else "Unknown"
  }

  /** `POST /api/start-session`: `{"session_id": id}` for the session `create_session` stored. */
  method StartSession(db: Db, request: SessionRequest,
                      create: (string, string) -> Result<string, string>, autoId: string)
    returns (r: Result<Json, HttpError>)
    modifies db
    ensures var (assistant, cache) := AssistantService.GetOrCreate(old(db.assistants), request.universityId, request.majorId, create);
            && db.assistants == cache
            && (assistant.Err? ==> r == Err(assistant.error) && db.sessions == old(db.sessions))
            && (assistant.Ok? ==>
                  && r == Ok(JObj(map["session_id" := JStr(autoId)]))
                  && db.sessions == old(db.sessions)[autoId := SessionService.NewSession(request.universityId,
                                       request.majorId, request.studentType, assistant.value)])
    ensures autoId !in old(db.sessions) ==>
              forall id :: id in old(db.sessions) ==> id in db.sessions && db.sessions[id] == old(db.sessions)[id]
  {
    var created := SessionService.CreateSession(db, request.universityId, request.majorId, request.studentType,
                                                create, autoId);
    match created
    case Err(e) =>
      return Err(e);
    case Ok(sessionId) =>
      r := Ok(JObj(map["session_id" := JStr(sessionId)]));
  }

  /** `GET /api/initial-survey/{session_id}`: the questions for the stored session's student type. */
  function GetInitialSurvey(sessions: map<string, Session>, sessionId: string): (r: Result<Json, HttpError>)
    ensures sessionId !in sessions ==> r == Err(HttpError(404, "Session not found"))
    ensures sessionId in sessions ==>
              var questions := SurveyService.GetInitialQuestions(sessions[sessionId].studentType);
              && (questions.Err? ==> r == Err(questions.error))
              && (questions.Ok? ==> r == Ok(JObj(map["questions" := JArr(questions.value)])))
  {
    match SessionService.GetSession(sessions, sessionId)
    case Err(e) => Err(e)
    case Ok(session) =>
      match SurveyService.GetInitialQuestions(session.studentType)
      case Err(e) => Err(e)
      case Ok(questions) => Ok(JObj(map["questions" := JArr(questions)]))
  }

  /** The 400 raised when a session has no stored responses. */
  const NoResponses := HttpError(400, "No survey responses found")

  /**
   * `POST /api/generate-survey`: follow-up questions generated from the stored
   * responses; 404 for a missing session, 400 without responses, and 500 with
   * the generator's detail when the run fails or its reply is rejected.
   */
  method GenerateSurvey(sessions: map<string, Session>, sessionId: string,
                        assistant: AssistantService.Prompt -> Option<string>,
                        parseObject: string -> Option<map<string, Json>>)
    returns (r: Result<Json, HttpError>)
    ensures sessionId !in sessions ==> r == Err(HttpError(404, "Session not found"))
    ensures sessionId in sessions && sessions[sessionId].StoredResponses() == [] ==> r == Err(NoResponses)
    ensures sessionId in sessions && sessions[sessionId].StoredResponses() != [] ==>
              var s := sessions[sessionId];
              var reply := assistant(AssistantService.QuestionsPrompt(s.assistantId,
                             AssistantService.FormatResponses(s.StoredResponses()), s.studentType,
                             MajorIdToName(s.majorId)));
              && (reply.None? ==> r == Err(HttpError(500, AssistantService.QuestionsError.QuestionsRunFailed.Detail())))
              && (reply.Some? ==>
                    var questions := AssistantService.ReplyQuestions(reply.value, parseObject);
                    && (r.Ok? <==> questions.Ok?)
                    && (questions.Ok? ==> r == Ok(JObj(map["questions" := questions.value])))
                    && (questions.Err? ==> r == Err(HttpError(500, questions.error.Detail()))))
  {
    var session :- SessionService.GetSession(sessions, sessionId);
    var responses := session.StoredResponses();
    if responses == [] {
      return Err(NoResponses);
    }
    var questions := AssistantService.GenerateQuestions(session.assistantId, responses, session.studentType,
                                                        MajorIdToName(session.majorId), assistant, parseObject);
    match questions
    case Err(e) =>
      return Err(HttpError(500, e.Detail()));
    case Ok(qs) =>
      r := Ok(JObj(map["questions" := qs]));
  }

  /** `POST /api/submit-survey-response`: `{"status": "success"}` once the responses are stored. */
  method SubmitSurveyResponse(db: Db, sessionId: string, responses: seq<SurveyResponse>)
    returns (r: Result<Json, HttpError>)
    modifies db`sessions
    ensures sessionId !in old(db.sessions) ==>
              r == Err(HttpError(404, "Session not found")) && db.sessions == old(db.sessions)
    ensures sessionId in old(db.sessions) ==>
              && r == Ok(JObj(map["status" := JStr("success")]))
              && db.sessions == old(db.sessions)[sessionId :=
                                   SurveyService.WithResponses(old(db.sessions)[sessionId], responses)]
  {
    var submitted := SurveyService.SubmitSurveyResponses(db, sessionId, responses);
    match submitted
    case Err(e) =>
      return Err(e);
    case Ok(_) =>
      r := Ok(JObj(map["status" := JStr("success")]));
  }

  /**
   * `GET /api/learning-path/{session_id}`: a learning path generated from the
   * stored responses and the optional search; on success it is stored in the
   * session together with the status `learning_path_generated`.
   */
  method GetLearningPath(db: Db, sessionId: string, search: Option<string>,
                         assistant: AssistantService.Prompt -> AssistantService.PathRun,
                         parseArray: string -> Option<seq<Json>>)
    returns (r: Result<Json, HttpError>)
    modifies db`sessions
    ensures r.Err? ==> db.sessions == old(db.sessions)
    ensures sessionId !in old(db.sessions) ==> r == Err(HttpError(404, "Session not found"))
    ensures sessionId in old(db.sessions) && old(db.sessions)[sessionId].StoredResponses() == [] ==> r == Err(NoResponses)
    ensures sessionId in old(db.sessions) && old(db.sessions)[sessionId].StoredResponses() != [] ==>
              var s := old(db.sessions)[sessionId];
              var run := assistant(AssistantService.LearningPathPrompt(s.assistantId,
                           AssistantService.FormatResponses(s.StoredResponses()), AssistantService.SearchFocus(search)));
              && (run.Ended? ==> r == Err(HttpError(500, AssistantService.PathError.RunEnded(run.status).Detail())))
              && (run.Silent? ==> r == Err(HttpError(500, AssistantService.PathError.NoAssistantReply.Detail())))
              && (run.Replied? ==>
                    var path := AssistantService.ReplySteps(run.text, parseArray);
                    && (r.Ok? <==> path.Ok?)
                    && (path.Err? ==> r == Err(HttpError(500, path.error.Detail())))
                    && (path.Ok? ==>
                          && r == Ok(JObj(map["learning_path" := JArr(path.value)]))
                          && db.sessions == old(db.sessions)[sessionId :=
                                               s.(learningPath := Some(path.value), status := LearningPathGenerated)]))
  {
    var session :- SessionService.GetSession(db.sessions, sessionId);
    var responses := session.StoredResponses();
    if responses == [] {
      return Err(NoResponses);
    }
    var path := AssistantService.GenerateLearningPath(session.assistantId, responses, search, assistant, parseArray);
    match path
    case Err(e) =>
      return Err(HttpError(500, e.Detail()));
    case Ok(steps) =>
      db.sessions := db.sessions[sessionId := session.(learningPath := Some(steps), status := LearningPathGenerated)];
      r := Ok(JObj(map["learning_path" := JArr(steps)]));
  }
}
