/**
 * The fixed initial-survey catalogue: the `SurveyQuestion` record, its
 * dictionary form sent to clients, and the three question tables keyed by
 * student type.
 */
module Surveys {
  import opened Wrappers
  import opened Json

  /** A catalogue question; `freeText` defaults to false, as the Python constructor's keyword does. */
  datatype SurveyQuestion = SurveyQuestion(id: int, question: string, options: seq<string>, freeText: bool := false)

  /** The JSON array of the given strings. */
  function Strings(xs: seq<string>): (r: Json)
    ensures r.JArr? && |r.items| == |xs|
    ensures forall i :: 0 <= i < |xs| ==> r.items[i] == JStr(xs[i])
  {
    JArr(seq(|xs|, i requires 0 <= i < |xs| => JStr(xs[i])))
  }

  /** `to_dict`: the fields under the client-side names, `free_text` becoming `freeText`. */
  function ToDict(q: SurveyQuestion): (r: Json)
    ensures r.JObj? && r.fields.Keys == {"id", "question", "options", "freeText"}
    ensures r.fields["id"] == JNum(q.id) && r.fields["question"] == JStr(q.question)
    ensures r.fields["options"] == Strings(q.options) && r.fields["freeText"] == JBool(q.freeText)
  {
    JObj(map["id" := JNum(q.id), "question" := JStr(q.question),
             "options" := Strings(q.options), "freeText" := JBool(q.freeText)])
  }

  /** Reads back a list of JSON strings; fails on anything else. */
  function StringsOf(v: Json): (r: Option<seq<string>>)
    ensures r.Some? ==> v == Strings(r.value)
  {
    if v.JArr? && forall i :: 0 <= i < |v.items| ==> v.items[i].JStr? then
      var xs := seq(|v.items|, i requires 0 <= i < |v.items| => v.items[i].s);
      assert v == Strings(xs);
      Some(xs)
    else None
  }

  /** Reads a question back from its dictionary form; the inverse of `ToDict`. */
  function FromDict(v: Json): (r: Option<SurveyQuestion>)
    ensures r.Some? ==> ToDict(r.value) == v
  {
    if v.JObj? && v.fields.Keys == {"id", "question", "options", "freeText"}
       && v.fields["id"].JNum? && v.fields["question"].JStr? && v.fields["freeText"].JBool?
       && StringsOf(v.fields["options"]).Some?
    then
      var q := SurveyQuestion(v.fields["id"].n, v.fields["question"].s,
                              StringsOf(v.fields["options"]).value, v.fields["freeText"].b);
      assert ToDict(q).fields == v.fields;
      Some(q)
    else None
  }

  /** The dictionary form loses nothing: `FromDict` recovers every question. */
  lemma FromDictToDict(q: SurveyQuestion)
    ensures FromDict(ToDict(q)) == Some(q)
  {
    var v := ToDict(q);
    var xs := StringsOf(v.fields["options"]);
    assert xs.Some? && xs.value == q.options;
  }

  /** A question built without the keyword argument is not free text. */
  lemma FreeTextDefaultsToFalse(id: int, question: string, options: seq<string>)
    ensures !SurveyQuestion(id, question, options).freeText
  {
  }

  const FirstYearSurvey: seq<SurveyQuestion> := [
    SurveyQuestion(1, "Which learning style helps you absorb information best?",
                   ["Visual", "Auditory", "Reading/Writing", "Kinesthetic"]),
    SurveyQuestion(2, "Do you usually prefer working alone or with others?",
                   ["In groups", "Individually", "No preference"]),
    SurveyQuestion(3, "What kind of assignments help you learn most effectively?",
                   ["Quizzes", "Exams", "Projects", "Presentations"]),
    SurveyQuestion(4, "What are one or two personal goals you have for your first year?",
                   [], freeText := true),
    SurveyQuestion(5, "What kind of professor helps you learn best?",
                   ["Supportive and approachable", "Clear, structured, and organized",
                    "Flexible and laid-back", "Challenging but fair", "Funny or entertaining", "Other"])
  ]

  const JuniorTransferSurvey: seq<SurveyQuestion> := [
    SurveyQuestion(1, "What do you hope to get out of your university experience now?",
                   [], freeText := true),
    SurveyQuestion(2, "Which type of learning environment do you find most engaging?",
                   ["Lecture-based", "Discussion-based", "Hands-on", "Online/Asynchronous"]),
    SurveyQuestion(3, "Do you prefer working on projects with a team or individually?",
                   ["Team projects", "Individual work", "No preference"]),
    SurveyQuestion(4, "What motivates you most to succeed in your studies?",
                   ["Grades", "Personal growth", "Career goals", "Support from others", "Passion for the subject"]),
    SurveyQuestion(5, "What kind of assessments do you find most helpful?",
                   ["Quizzes", "Exams", "Research papers", "Major projects", "Presentations"])
  ]

  const TypicalStudentSurvey: seq<SurveyQuestion> := [
    SurveyQuestion(1, "What drives you the most when it comes to your academic work?",
                   ["Getting good grades", "Genuine interest in the subject", "Career goals", "Peers and social motivation"]),
    SurveyQuestion(2, "What's one challenge you've faced in your college experience so far, and how did you handle it?",
                   [], freeText := true),
    SurveyQuestion(3, "Which type of assessment do you find most effective?",
                   ["Frequent low-stakes quizzes", "A few big exams", "Major projects",
                    "Research papers or essays", "No preference"]),
    SurveyQuestion(4, "What class size do you learn best in?",
                   ["Small (fewer than 25 students)", "Medium (25–75 students)",
                    "Large (75+ students)", "No preference"]),
    SurveyQuestion(5, "How often do you study with others?",
                   ["Regularly", "Sometimes", "Rarely or never"])
  ]

  /** The student types and their question tables. */
  const SurveyTypes: map<string, seq<SurveyQuestion>> := map[
    "first_year" := FirstYearSurvey,
    "junior_transfer" := JuniorTransferSurvey,
    "typical" := TypicalStudentSurvey
  ]

  /** Ids run 1, 2, ... in table order. */
  predicate NumberedFromOne(survey: seq<SurveyQuestion>) {
    forall i :: 0 <= i < |survey| ==> survey[i].id == i + 1
  }

  /** A question offers options exactly when it is not free text. */
  predicate OptionsIffChoice(survey: seq<SurveyQuestion>) {
    forall i :: 0 <= i < |survey| ==> (survey[i].options == [] <==> survey[i].freeText)
  }

  /** The positions of the free-text questions. */
  function FreeTextPositions(survey: seq<SurveyQuestion>): set<int> {
    set i | 0 <= i < |survey| && survey[i].freeText
  }

  /** Every catalogue survey has five questions numbered 1..5, offers options
      exactly on its multiple-choice questions, and has exactly one free-text question. */
  predicate WellFormedSurvey(survey: seq<SurveyQuestion>) {
    && |survey| == 5
    && NumberedFromOne(survey)
    && OptionsIffChoice(survey)
    && |FreeTextPositions(survey)| == 1
  }

  lemma SurveyTypesKeys()
    ensures SurveyTypes.Keys == {"first_year", "junior_transfer", "typical"}
  {
  }

  lemma CatalogueWellFormed()
    ensures forall t :: t in SurveyTypes ==> WellFormedSurvey(SurveyTypes[t])
  {
    assert FreeTextPositions(FirstYearSurvey) == {3};
    assert FreeTextPositions(JuniorTransferSurvey) == {0};
    assert FreeTextPositions(TypicalStudentSurvey) == {1};
  }
}
