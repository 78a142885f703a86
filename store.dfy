/**
 * The Firestore collections the backend uses, as in-memory maps: `sessions`
 * keyed by session id and `assistants` keyed by the assistant cache key.
 * A session document is a record; its optional sub-documents are `Option`s.
 */
module Store {
  import opened Wrappers
  import opened Json

  /** FastAPI's `HTTPException(status_code, detail)`. */
  datatype HttpError = HttpError(status: int, detail: string)

  /** The `status` field of a session document. */
  datatype Status = Initialized | SurveyInProgress | SurveyCompleted | LearningPathGenerated
  {
    /** The string stored in Firestore. */
    function Text(): string {
      match this
      case Initialized => "initialized"
      case SurveyInProgress => "survey_in_progress"
      case SurveyCompleted => "survey_completed"
      case LearningPathGenerated => "learning_path_generated"
    }
  }

  /** One answered question, as the client posts it: `{question, answer}`. */
  datatype SurveyResponse = SurveyResponse(question: string, answer: string)

  /** The `survey_responses` sub-document (its `submitted_at` timestamp is not modelled). */
  datatype SurveyRecord = SurveyRecord(responses: seq<SurveyResponse>, totalQuestionsAnswered: nat)

  /** A session document (the `created_at`/`updated_at` timestamps are not modelled). */
  datatype Session = Session(
    universityId: string,
    majorId: string,
    studentType: string,
    assistantId: string,
    status: Status,
    surveyResponses: Option<SurveyRecord>,
    learningPath: Option<seq<Json>>)
  {
    /** `session.get("survey_responses", {}).get("responses", [])` */
    function StoredResponses(): (r: seq<SurveyResponse>)
      ensures surveyResponses.None? ==> r == []
      ensures surveyResponses.Some? ==> r == surveyResponses.value.responses
    {
      match surveyResponses
      case None => []
      case Some(record) => record.responses
    }
  }

  /** A document of the `assistants` collection (its `created_at` is not modelled). */
  datatype AssistantRecord = AssistantRecord(assistantId: string, universityId: string, majorId: string)

  /** The Firestore database. */
  class Db {
    var sessions: map<string, Session>
    var assistants: map<string, AssistantRecord>

    constructor ()
      ensures sessions == map[] && assistants == map[]
    {
      sessions := map[];
      assistants := map[];
    }
  }
}
