/**
 * The JSON bodies that cross the HTTP boundary: what the frontend hooks
 * serialise with `JSON.stringify` and what the backend's request models
 * accept, with the round trip between the two.
 */
module Wire {
  import opened Wrappers
  import opened Json
  import opened Store
  import Api

  /** `JSON.stringify(params)` for the start-session parameters. */
  function SessionRequestJson(p: Api.SessionRequest): (r: Json)
    ensures r.JObj? && r.fields.Keys == {"university_id", "major_id", "student_type"}
    ensures r.fields["university_id"] == JStr(p.universityId)
    ensures r.fields["major_id"] == JStr(p.majorId)
    ensures r.fields["student_type"] == JStr(p.studentType)
  {
    JObj(map["university_id" := JStr(p.universityId), "major_id" := JStr(p.majorId),
             "student_type" := JStr(p.studentType)])
  }

  /** A string-typed field of a request model: present and a JSON string. */
  function StringField(fields: map<string, Json>, key: string): (r: Option<string>)
    ensures r.Some? <==> key in fields && fields[key].JStr?
    ensures r.Some? ==> fields[key] == JStr(r.value)
  {
    if key in fields && fields[key].JStr? then Some(fields[key].s) else None
  }

  /** The backend's `SessionRequest` model: an object with the three string fields; other fields are ignored. */
  function DecodeSessionRequest(j: Json): (r: Option<Api.SessionRequest>)
    ensures r.Some? <==> j.JObj? && StringField(j.fields, "university_id").Some?
                         && StringField(j.fields, "major_id").Some?
                         && StringField(j.fields, "student_type").Some?
    ensures r.Some? ==> j.fields["university_id"] == JStr(r.value.universityId)
                        && j.fields["major_id"] == JStr(r.value.majorId)
                        && j.fields["student_type"] == JStr(r.value.studentType)
  {
    if !j.JObj? then None
    else
      var u := StringField(j.fields, "university_id");
      var m := StringField(j.fields, "major_id");
      var t := StringField(j.fields, "student_type");
      if u.Some? && m.Some? && t.Some? then Some(Api.SessionRequest(u.value, m.value, t.value)) else None
  }

  /** What the frontend sends is exactly what the backend reads back. */
  lemma SessionRequestRoundTrip(p: Api.SessionRequest)
    ensures DecodeSessionRequest(SessionRequestJson(p)) == Some(p)
  {
  }

  /** One survey response as a JSON object. */
  function ResponseJson(r: SurveyResponse): (j: Json)
    ensures j.JObj? && j.fields.Keys == {"question", "answer"}
    ensures j.fields["question"] == JStr(r.question) && j.fields["answer"] == JStr(r.answer)
  {
    JObj(map["question" := JStr(r.question), "answer" := JStr(r.answer)])
  }

  /** `JSON.stringify(responses)`: a JSON array of the responses in the given order. */
  function ResponsesJson(rs: seq<SurveyResponse>): (j: Json)
    ensures j.JArr? && |j.items| == |rs|
    ensures forall i :: 0 <= i < |rs| ==> j.items[i] == ResponseJson(rs[i])
  {
    JArr(seq(|rs|, i requires 0 <= i < |rs| => ResponseJson(rs[i])))
  }

  /** The backend's `SurveyResponse` model on one element. */
  function DecodeResponse(j: Json): (r: Option<SurveyResponse>)
    ensures r.Some? <==> j.JObj? && StringField(j.fields, "question").Some? && StringField(j.fields, "answer").Some?
    ensures r.Some? ==> j.fields["question"] == JStr(r.value.question) && j.fields["answer"] == JStr(r.value.answer)
  {
    if !j.JObj? then None
    else
      var q := StringField(j.fields, "question");
      var a := StringField(j.fields, "answer");
      if q.Some? && a.Some? then Some(SurveyResponse(q.value, a.value)) else None
  }

  /** Every element must decode; one bad element rejects the whole list. */
  function DecodeResponseItems(items: seq<Json>): (r: Option<seq<SurveyResponse>>)
    ensures r.Some? <==> forall i :: 0 <= i < |items| ==> DecodeResponse(items[i]).Some?
    ensures r.Some? ==> |r.value| == |items|
                        && forall i :: 0 <= i < |items| ==> DecodeResponse(items[i]) == Some(r.value[i])
  {
    if |items| == 0 then Some([])
    else
      match (DecodeResponse(items[0]), DecodeResponseItems(items[1..]))
      case (Some(first), Some(rest)) =>
        assert forall i :: 1 <= i < |items| ==> items[i] == items[1..][i - 1];
        Some([first] + rest)
      case (None, _) => None
      case (_, None) =>
        assert forall i :: 0 <= i < |items[1..]| ==> items[1..][i] == items[i + 1];
        None
  }

  /** The `List[SurveyResponse]` body of `POST /api/submit-survey-response`. */
  function DecodeResponses(j: Json): (r: Option<seq<SurveyResponse>>)
    ensures r.Some? <==> j.JArr? && forall i :: 0 <= i < |j.items| ==> DecodeResponse(j.items[i]).Some?
    ensures r.Some? ==> |r.value| == |j.items|
                        && forall i :: 0 <= i < |j.items| ==> DecodeResponse(j.items[i]) == Some(r.value[i])
  {
    if j.JArr? then DecodeResponseItems(j.items) else None
  }

  /** The responses the survey page submits arrive at the backend unchanged and in order. */
  lemma {:induction false} ResponsesRoundTrip(rs: seq<SurveyResponse>)
    ensures DecodeResponses(ResponsesJson(rs)) == Some(rs)
  {
    var items := ResponsesJson(rs).items;
    assert forall i :: 0 <= i < |items| ==> DecodeResponse(items[i]) == Some(rs[i]);
    var r := DecodeResponseItems(items);
    assert r.Some?;
    assert |r.value| == |rs|;
    assert forall i :: 0 <= i < |rs| ==> r.value[i] == rs[i];
    assert r.value == rs;
  }
}
