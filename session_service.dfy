/** Session creation and lookup over the `sessions` collection. */
module SessionService {
  import opened Wrappers
  import opened Store
  import AssistantService

  /** The document `create_session` writes for a new session. */
  function NewSession(universityId: string, majorId: string, studentType: string, assistantId: string): (s: Session)
    ensures s.universityId == universityId && s.majorId == majorId && s.studentType == studentType
    ensures s.assistantId == assistantId && s.status.Text() == "initialized"
    ensures s.StoredResponses() == [] && s.learningPath.None?
  {
    Session(universityId, majorId, studentType, assistantId, Initialized, None, None)
  }

  /**
   * `create_session`: get or create the assistant for the university and
   * major, then store a new session under the id Firestore generates
   * (`autoId`). An error from the assistant step is passed on unchanged and
   * no session is written.
   */
  method CreateSession(db: Db, universityId: string, majorId: string, studentType: string,
                       create: (string, string) -> Result<string, string>, autoId: string)
    returns (r: Result<string, HttpError>)
    modifies db
    ensures var (assistant, cache) := AssistantService.GetOrCreate(old(db.assistants), universityId, majorId, create);
            && db.assistants == cache
            && (assistant.Err? ==> r == Err(assistant.error) && db.sessions == old(db.sessions))
            && (assistant.Ok? ==>
                  r == Ok(autoId)
                  && db.sessions == old(db.sessions)[autoId := NewSession(universityId, majorId, studentType, assistant.value)])
    ensures autoId !in old(db.sessions) ==>
              forall id :: id in old(db.sessions) ==> id in db.sessions && db.sessions[id] == old(db.sessions)[id]
  {
    var assistant := AssistantService.GetOrCreateAssistant(db, universityId, majorId, create);
    match assistant
    case Err(e) =>
      return Err(e);
    case Ok(assistantId) =>
      db.sessions := db.sessions[autoId := NewSession(universityId, majorId, studentType, assistantId)];
      r := Ok(autoId);
  }

  /** `get_session`: the stored document, or 404 when there is none. */
  function GetSession(sessions: map<string, Session>, sessionId: string): (r: Result<Session, HttpError>)
    ensures sessionId in sessions ==> r == Ok(sessions[sessionId])
    ensures sessionId !in sessions ==> r == Err(HttpError(404, "Session not found"))
  {
    if sessionId in sessions then Ok(sessions[sessionId]) else Err(HttpError(404, "Session not found"))
  }
}
