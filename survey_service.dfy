/** The initial-survey lookup and the accumulation of submitted responses. */
module SurveyService {
  import opened Wrappers
  import opened Json
  import opened Store
  import opened Surveys

  /** Once this many responses are stored the survey counts as completed. */
  const CompletionThreshold: nat := 10

  /**
   * `get_initial_questions`: the dictionary form of the student type's table,
   * in table order; 400 for an unknown student type.
   */
  function GetInitialQuestions(studentType: string): (r: Result<seq<Json>, HttpError>)
    ensures r.Err? <==> studentType !in SurveyTypes
    ensures r.Err? ==> r.error == HttpError(400, "Invalid student type: " + studentType)
    ensures r.Ok? ==> |r.value| == |SurveyTypes[studentType]|
    ensures r.Ok? ==> forall i :: 0 <= i < |r.value| ==> FromDict(r.value[i]) == Some(SurveyTypes[studentType][i])
  {
    if studentType !in SurveyTypes then Err(HttpError(400, "Invalid student type: " + studentType))
    else
      var table := SurveyTypes[studentType];
      var questions := seq(|table|, i requires 0 <= i < |table| => ToDict(table[i]));
      assert forall i :: 0 <= i < |table| ==> FromDict(questions[i]) == Some(table[i]) by {
        forall i | 0 <= i < |table| ensures FromDict(questions[i]) == Some(table[i]) {
          FromDictToDict(table[i]);
        }
      }
      Ok(questions)
  }

  /**
   * The session document after a submission: the stored responses followed by
   * the new ones, their count, and the status by the completion threshold.
   * Nothing else in the document changes.
   */
  function WithResponses(s: Session, responses: seq<SurveyResponse>): (r: Session)
    ensures r.surveyResponses.Some?
    ensures r.StoredResponses() == s.StoredResponses() + responses
    ensures r.surveyResponses.value.totalQuestionsAnswered == |r.StoredResponses()|
    ensures r.status == SurveyInProgress <==> |r.StoredResponses()| < CompletionThreshold
    ensures r.status == SurveyCompleted <==> |r.StoredResponses()| >= CompletionThreshold
    ensures r.(surveyResponses := s.surveyResponses, status := s.status) == s
  {
    var all := s.StoredResponses() + responses;
    s.(surveyResponses := Some(SurveyRecord(all, |all|)),
       status := if |all| < CompletionThreshold then SurveyInProgress else SurveyCompleted)
  }

  /** Submitting in two batches stores the same document as submitting both at once. */
  lemma WithResponsesBatches(s: Session, first: seq<SurveyResponse>, second: seq<SurveyResponse>)
    ensures WithResponses(WithResponses(s, first), second) == WithResponses(s, first + second)
  {
    assert s.StoredResponses() + first + second == s.StoredResponses() + (first + second);
  }

  /** A completed survey stays completed under further submissions. */
  lemma CompletedStaysCompleted(s: Session, earlier: seq<SurveyResponse>, later: seq<SurveyResponse>)
    requires WithResponses(s, earlier).status == SurveyCompleted
    ensures WithResponses(WithResponses(s, earlier), later).status == SurveyCompleted
  {
  }

  /**
   * `submit_survey_responses`: 404 and no write for a missing session;
   * otherwise only that session's responses and status are updated.
   */
  method SubmitSurveyResponses(db: Db, sessionId: string, responses: seq<SurveyResponse>)
    returns (r: Result<(), HttpError>)
    modifies db`sessions
    ensures sessionId !in old(db.sessions) ==>
              r == Err(HttpError(404, "Session not found")) && db.sessions == old(db.sessions)
    ensures sessionId in old(db.sessions) ==>
              r == Ok(()) && db.sessions == old(db.sessions)[sessionId := WithResponses(old(db.sessions)[sessionId], responses)]
  {
    if sessionId !in db.sessions {
      return Err(HttpError(404, "Session not found"));
    }
    var session := db.sessions[sessionId];
    db.sessions := db.sessions[sessionId := WithResponses(session, responses)];
    r := Ok(());
  }
}
