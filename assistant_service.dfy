/**
 * The deterministic part of the OpenAI assistant service: the assistant cache
 * key and get-or-create cache, the "Q: .. / A: .." formatting of survey
 * responses, and the handling of the assistant's text reply (locating the
 * JSON span, validating questions, validating and normalising learning-path
 * steps). The OpenAI calls themselves are parameters: `create` stands for
 * assistant creation, `assistant` for a thread run and how it ended, and
 * `json.loads` is an abstract parser typed by the bracket its input starts
 * with.
 */
module AssistantService {
  import opened Wrappers
  import opened Json
  import opened Store
  import Text

  // ---------------------------------------------------------------------------
  // Assistant cache

  /** `get_assistant_key`: the university id, an underscore, the major id. */
  function AssistantKey(universityId: string, majorId: string): (r: string)
    ensures |r| == |universityId| + 1 + |majorId|
    ensures r[..|universityId|] == universityId && r[|universityId|] == '_'
    ensures r[|universityId| + 1..] == majorId
  {
    universityId + "_" + majorId
  }

  /** Two pairs share a key only if they are the same pair, as long as university ids carry no underscore. */
  lemma AssistantKeyInjective(u1: string, m1: string, u2: string, m2: string)
    requires '_' !in u1 && '_' !in u2
    requires AssistantKey(u1, m1) == AssistantKey(u2, m2)
    ensures u1 == u2 && m1 == m2
  {
  }

  /** With underscores allowed in university ids the key is not unique. */
  lemma AssistantKeyCollision()
    ensures AssistantKey("a_b", "c") == AssistantKey("a", "b_c")
  {
  }

  /**
   * `get_or_create_assistant` over the cache contents: the result and the new
   * cache. A hit returns the cached id and writes nothing; a miss asks `create`
   * and stores its id with the pair, or fails with 500 when creation fails.
   */
  function GetOrCreate(cache: map<string, AssistantRecord>, universityId: string, majorId: string,
                       create: (string, string) -> Result<string, string>)
    : (r: (Result<string, HttpError>, map<string, AssistantRecord>))
    ensures var key := AssistantKey(universityId, majorId);
            key in cache ==> r == (Ok(cache[key].assistantId), cache)
    ensures var key := AssistantKey(universityId, majorId);
            key !in cache && create(universityId, majorId).Ok? ==>
              var id := create(universityId, majorId).value;
              r == (Ok(id), cache[key := AssistantRecord(id, universityId, majorId)])
    ensures AssistantKey(universityId, majorId) !in cache && create(universityId, majorId).Err? ==>
              r == (Err(HttpError(500, "Failed to create assistant: " + create(universityId, majorId).error)), cache)
  {
    var key := AssistantKey(universityId, majorId);
    if key in cache then (Ok(cache[key].assistantId), cache)
    else
      match create(universityId, majorId)
      case Ok(id) => (Ok(id), cache[key := AssistantRecord(id, universityId, majorId)])
      case Err(msg) => (Err(HttpError(500, "Failed to create assistant: " + msg)), cache)
  }

  /** Once an id is returned for a pair, asking again returns the same id and writes nothing. */
  lemma GetOrCreateStable(cache: map<string, AssistantRecord>, universityId: string, majorId: string,
                          create1: (string, string) -> Result<string, string>,
                          create2: (string, string) -> Result<string, string>)
    requires GetOrCreate(cache, universityId, majorId, create1).0.Ok?
    ensures var (r1, cache1) := GetOrCreate(cache, universityId, majorId, create1);
            GetOrCreate(cache1, universityId, majorId, create2) == (r1, cache1)
  {
  }

  /** `get_or_create_assistant` against the database. */
  method GetOrCreateAssistant(db: Db, universityId: string, majorId: string,
                              create: (string, string) -> Result<string, string>)
    returns (r: Result<string, HttpError>)
    modifies db`assistants
    ensures (r, db.assistants) == GetOrCreate(old(db.assistants), universityId, majorId, create)
  {
    var res := GetOrCreate(db.assistants, universityId, majorId, create);
    r := res.0;
    db.assistants := res.1;
  }

  // ---------------------------------------------------------------------------
  // Response formatting

  /** One response as the prompt shows it: a `Q:` line, then an `A:` line. */
  function FormatResponse(r: SurveyResponse): string {
    "Q: " + r.question + "\nA: " + r.answer
  }

  /**
   * `"\n".join(f"Q: {q}\nA: {a}" for ...)`: the blocks of the responses in
   * order, separated by newlines.
   */
  function FormatResponses(rs: seq<SurveyResponse>): (text: string)
    ensures |rs| == 0 ==> text == ""
    ensures |rs| == 1 ==> text == FormatResponse(rs[0])
    ensures |rs| >= 2 ==> text == FormatResponse(rs[0]) + "\n" + FormatResponses(rs[1..])
    decreases |rs|
  {
    var parts := seq(|rs|, i requires 0 <= i < |rs| => FormatResponse(rs[i]));
    assert |rs| >= 2 ==> parts[1..] == seq(|rs| - 1, i requires 0 <= i < |rs| - 1 => FormatResponse(rs[1..][i]));
    Text.Join("\n", parts)
  }

  /** No question or answer spans several lines. */
  predicate SingleLine(rs: seq<SurveyResponse>) {
    forall i :: 0 <= i < |rs| ==> '\n' !in rs[i].question && '\n' !in rs[i].answer
  }

  /** Reads responses back from the lines of a formatted text. */
  function ParseLines(lines: seq<string>): Option<seq<SurveyResponse>> {
    if |lines| == 0 then Some([])
    else if |lines| >= 2 && "Q: " <= lines[0] && "A: " <= lines[1] then
      match ParseLines(lines[2..])
      case None => None
      case Some(rest) => Some([SurveyResponse(lines[0][3..], lines[1][3..])] + rest)
    else None
  }

  /** Reads responses back from a formatted text. */
  function ParseFormatted(text: string): Option<seq<SurveyResponse>> {
    ParseLines(Text.Split(text, '\n'))
  }

  /** The lines a formatted text consists of: a Q line and an A line per response. */
  function Lines(rs: seq<SurveyResponse>): seq<string> {
    if |rs| == 0 then [] else ["Q: " + rs[0].question, "A: " + rs[0].answer] + Lines(rs[1..])
  }

  /** The Q and A lines of a single-line response hold no newline. */
  lemma BlockLines(r: SurveyResponse)
    requires '\n' !in r.question && '\n' !in r.answer
    ensures '\n' !in "Q: " + r.question && '\n' !in "A: " + r.answer
    ensures FormatResponse(r) == ("Q: " + r.question) + ['\n'] + ("A: " + r.answer)
  {
  }

  /** The block of a single-line response consists of exactly its Q line and its A line. */
  lemma FormatResponseLines(r: SurveyResponse)
    requires '\n' !in r.question && '\n' !in r.answer
    ensures Text.Split(FormatResponse(r), '\n') == ["Q: " + r.question, "A: " + r.answer]
  {
    BlockLines(r);
    Text.SplitAfterFirst("Q: " + r.question, '\n', "A: " + r.answer);
    Text.SplitNoSeparator("A: " + r.answer, '\n');
  }

  /** Two newline-free lines in front of a text split off as two parts. */
  lemma SplitTwoLines(q: string, a: string, tail: string)
    requires '\n' !in q && '\n' !in a
    ensures Text.Split(q + ['\n'] + (a + ['\n'] + tail), '\n') == [q, a] + Text.Split(tail, '\n')
  {
    Text.SplitAfterFirst(q, '\n', a + ['\n'] + tail);
    Text.SplitAfterFirst(a, '\n', tail);
  }

  lemma {:induction false} SplitFormatted(rs: seq<SurveyResponse>)
    requires |rs| > 0 && SingleLine(rs)
    ensures Text.Split(FormatResponses(rs), '\n') == Lines(rs)
    decreases |rs|
  {
    var q, a := "Q: " + rs[0].question, "A: " + rs[0].answer;
    BlockLines(rs[0]);
    if |rs| == 1 {
      FormatResponseLines(rs[0]);
    } else {
      var rest := rs[1..];
      var tail := FormatResponses(rest);
      assert FormatResponses(rs) == q + ['\n'] + (a + ['\n'] + tail);
      SplitTwoLines(q, a, tail);
      assert SingleLine(rest) by {
        forall i | 0 <= i < |rest| ensures '\n' !in rest[i].question && '\n' !in rest[i].answer {
          assert rest[i] == rs[i + 1];
        }
      }
      SplitFormatted(rest);
      assert Lines(rs) == [q, a] + Lines(rest);
    }
  }

  lemma {:induction false} ParseLinesOfLines(rs: seq<SurveyResponse>)
    ensures ParseLines(Lines(rs)) == Some(rs)
  {
    if |rs| > 0 {
      var ls := Lines(rs);
      assert ls[2..] == Lines(rs[1..]);
      ParseLinesOfLines(rs[1..]);
      assert ("Q: " + rs[0].question)[3..] == rs[0].question;
      assert ("A: " + rs[0].answer)[3..] == rs[0].answer;
      assert [rs[0]] + rs[1..] == rs;
    }
  }

  /** Formatting is lossless when no field spans several lines. */
  lemma FormatRoundTrip(rs: seq<SurveyResponse>)
    requires |rs| > 0 && SingleLine(rs)
    ensures ParseFormatted(FormatResponses(rs)) == Some(rs)
  {
    SplitFormatted(rs);
    ParseLinesOfLines(rs);
  }

  /** Formatting one more response appends a newline and that response's block. */
  lemma {:induction false} FormatAppend(rs: seq<SurveyResponse>, r: SurveyResponse)
    requires |rs| > 0
    ensures FormatResponses(rs + [r]) == FormatResponses(rs) + "\n" + FormatResponse(r)
    decreases |rs|
  {
    var all := rs + [r];
    var parts := seq(|all|, i requires 0 <= i < |all| => FormatResponse(all[i]));
    if |rs| == 1 {
      assert parts == [FormatResponse(rs[0]), FormatResponse(r)];
      assert seq(|rs|, i requires 0 <= i < |rs| => FormatResponse(rs[i])) == [FormatResponse(rs[0])];
      assert parts[1..] == [FormatResponse(r)];
      assert Text.Join("\n", parts) == parts[0] + "\n" + Text.Join("\n", parts[1..]);
    } else {
      var rest := rs[1..];
      assert all[1..] == rest + [r];
      assert parts[1..] == seq(|rest + [r]|, i requires 0 <= i < |rest + [r]| => FormatResponse((rest + [r])[i]));
      var restParts := seq(|rest|, i requires 0 <= i < |rest| => FormatResponse(rest[i]));
      assert seq(|rs|, i requires 0 <= i < |rs| => FormatResponse(rs[i]))[1..] == restParts;
      FormatAppend(rest, r);
    }
  }

  // ---------------------------------------------------------------------------
  // Reply handling

  /**
   * Why `generate_questions` rejected its run or the run's reply. Each reaches
   * the client as HTTP 500 with `Detail()`. A TypeError raised by `in` carries
   * Python's own message, which is not modelled; its name stands in for it.
   */
  datatype QuestionsError =
    | QuestionsRunFailed
    | NoJsonObject
    | ObjectDecodeError
    | MissingQuestions
    | QuestionMissingFields
    | QuestionTypeError
  {
    function Detail(): string {
      match this
      case QuestionsRunFailed => "Failed to generate questions"
      case NoJsonObject => "Invalid response format: No JSON object found in response"
      case ObjectDecodeError => "Failed to parse assistant response as JSON"
      case MissingQuestions => "Invalid response format: Response missing 'questions' field"
      case QuestionMissingFields => "Invalid response format: Question missing required fields"
      case QuestionTypeError => "TypeError"
    }
  }

  /** Why `generate_learning_path_from_responses` rejected its run or the run's reply. */
  datatype PathError =
    | RunEnded(status: RunStatus)
    | NoAssistantReply
    | NoJsonArray
    | ArrayDecodeError
    | InvalidStepStructure
    | StepTypeError
  {
    function Detail(): string {
      match this
      case RunEnded(status) => "Run failed with status: " + status.Text()
      case NoAssistantReply => "No response from assistant"
      case NoJsonArray => "No JSON array found in response"
      case ArrayDecodeError => "Failed to parse learning path"
      case InvalidStepStructure => "Invalid learning path structure"
      case StepTypeError => "TypeError"
    }
  }

  /** The statuses on which the learning-path polling loop gives up. */
  datatype RunStatus = Failed | Cancelled | Expired
  {
    function Text(): string {
      match this
      case Failed => "failed"
      case Cancelled => "cancelled"
      case Expired => "expired"
    }
  }

  /**
   * How a learning-path run ends as `generate_learning_path_from_responses`
   * sees it: completed, with the text of the newest assistant message;
   * ended with one of the statuses it gives up on; or completed without any
   * assistant message in the thread.
   */
  datatype PathRun = Replied(text: string) | Ended(status: RunStatus) | Silent

  /**
   * `text[text.find(open) : text.rfind(close) + 1]`, or None when either
   * bracket is absent. When the last `close` comes before the first `open`
   * the slice is empty.
   */
  function Span(text: string, open: char, close: char): (r: Option<string>)
    ensures r.None? <==> open !in text || close !in text
    ensures r.Some? && Text.Find(text, open) <= Text.RFind(text, close) ==>
              var start, end := Text.Find(text, open), Text.RFind(text, close) + 1;
              r.value == text[start..end] && r.value[0] == open && r.value[|r.value| - 1] == close
              && open !in text[..start] && close !in text[end..]
    ensures r.Some? && Text.RFind(text, close) < Text.Find(text, open) ==> r.value == ""
  {
    var start := Text.Find(text, open);
    var end := Text.RFind(text, close) + 1;
    if start == -1 || end == 0 then None
    else Some(Text.Slice(text, start, end))
  }

  /** The object span of a reply: first `{` to last `}`. */
  function ObjectSpan(text: string): Option<string> {
    Span(text, '{', '}')
  }

  /** The array span of a reply: first `[` to last `]`. */
  function ArraySpan(text: string): Option<string> {
    Span(text, '[', ']')
  }

  /** The keys every generated question must have. */
  const QuestionKeys: seq<string> := ["id", "question", "options", "freeText"]

  /** The keys every learning-path step must have. */
  const StepKeys: seq<string> := ["title", "description"]

  /** The values are Python-iterable (dict, list, str). */
  predicate Iterable(v: Json) {
    v.JObj? || v.JArr? || v.JStr?
  }

  /** What `for x in v` visits: list elements, one-character strings, or dict keys. */
  function Elements(v: Json): set<Json>
    requires Iterable(v)
  {
    match v
    case JArr(xs) => set x | x in xs
    case JStr(s) => set c | c in s :: JStr([c])
    case JObj(m) => set k | k in m :: JStr(k)
  }

  /** Python `list(v)` for the values the reply validation iterates; dict keys come in some order. */
  method Iterate(v: Json) returns (r: Result<seq<Json>, PyError>)
    ensures r.Err? <==> !Iterable(v)
    ensures r.Err? ==> r.error == TypeError
    ensures r.Ok? ==> (set x | x in r.value) == Elements(v)
    ensures v.JArr? ==> r == Ok(v.items)
    ensures v.JStr? ==> r.Ok? && |r.value| == |v.s| && forall i :: 0 <= i < |v.s| ==> r.value[i] == JStr([v.s[i]])
    ensures v.JObj? ==> r.Ok? && |r.value| == |v.fields| && forall i :: 0 <= i < |r.value| ==> r.value[i].JStr?
  {
    match v
    case JArr(xs) =>
      r := Ok(xs);
    case JStr(s) =>
      var chars := seq(|s|, i requires 0 <= i < |s| => JStr([s[i]]));
      assert forall x :: x in chars <==> x in Elements(v) by {
        forall x | x in Elements(v) ensures x in chars {
          var c :| c in s && x == JStr([c]);
          var i :| 0 <= i < |s| && s[i] == c;
          assert chars[i] == x;
        }
      }
      r := Ok(chars);
    case JObj(m) =>
      var keys: seq<Json> := [];
      var rest := m.Keys;
      while rest != {}
        invariant rest <= m.Keys
        invariant forall k :: k in m.Keys ==> (k in rest <==> JStr(k) !in keys)
        invariant forall x :: x in keys ==> x.JStr? && x.s in m.Keys
        invariant |keys| + |rest| == |m.Keys|
        decreases |rest|
      {
        var k :| k in rest;
        keys := keys + [JStr(k)];
        rest := rest - {k};
      }
      r := Ok(keys);
    case _ =>
      r := Err(TypeError);
  }

  /** A question passes validation: it has all four keys in the sense of Python's `in`. */
  predicate QuestionValid(q: Json) {
    HasAll(q, QuestionKeys) == Ok(true)
  }

  /** What the question loop raises at a question that fails: TypeError when `in` does not apply to it. */
  function QuestionError(q: Json): QuestionsError {
    if HasAll(q, QuestionKeys).Err? then QuestionTypeError else QuestionMissingFields
  }

  /** The error of the question loop over `items`: that of the first failing question, if any. */
  function FirstInvalidQuestion(items: seq<Json>): (r: Option<QuestionsError>)
    ensures r.None? <==> forall i :: 0 <= i < |items| ==> QuestionValid(items[i])
    ensures r.Some? ==>
              exists k :: 0 <= k < |items| && !QuestionValid(items[k])
                && (forall j :: 0 <= j < k ==> QuestionValid(items[j]))
                && r.value == QuestionError(items[k])
  {
    if |items| == 0 then None
    else if !QuestionValid(items[0]) then Some(QuestionError(items[0]))
    else
      var rest := FirstInvalidQuestion(items[1..]);
      assert rest.Some? ==> exists k :: 1 <= k < |items| && !QuestionValid(items[k])
                              && (forall j :: 0 <= j < k ==> QuestionValid(items[j]))
                              && rest.value == QuestionError(items[k]) by {
        if rest.Some? {
          var k :| 0 <= k < |items[1..]| && !QuestionValid(items[1..][k])
                   && (forall j :: 0 <= j < k ==> QuestionValid(items[1..][j]))
                   && rest.value == QuestionError(items[1..][k]);
          assert items[1..][k] == items[k + 1];
          forall j | 0 <= j < k + 1 ensures QuestionValid(items[j]) {
            if j > 0 { assert items[1..][j - 1] == items[j]; }
          }
        }
      }
      rest
  }

  /**
   * The loop `for question in ...: if not all(key in question ...): raise`
   * over the iterated questions.
   */
  method CheckQuestions(items: seq<Json>) returns (r: Result<(), QuestionsError>)
    ensures r.Ok? <==> forall i :: 0 <= i < |items| ==> QuestionValid(items[i])
    ensures r.Err? ==> FirstInvalidQuestion(items) == Some(r.error)
  {
    var i := 0;
    while i < |items|
      invariant 0 <= i <= |items|
      invariant forall j :: 0 <= j < i ==> QuestionValid(items[j])
      invariant FirstInvalidQuestion(items[i..]) == FirstInvalidQuestion(items)
    {
      assert items[i..][1..] == items[i + 1..];
      match HasAll(items[i], QuestionKeys)
      case Err(_) =>
        return Err(QuestionTypeError);
      case Ok(all) =>
        if !all {
          return Err(QuestionMissingFields);
        }
      i := i + 1;
    }
    r := Ok(());
  }

  /** The `questions` value of a reply passes validation. */
  predicate QuestionsWellFormed(qs: Json) {
    Iterable(qs) && forall q :: q in Elements(qs) ==> QuestionValid(q)
  }

  /**
   * The error the validation of a `questions` value raises, if any. A dict or
   * a string is iterated as strings, and `in` applies to those, so for them
   * the error can only be the missing-fields one.
   */
  function QuestionsFailure(qs: Json): (r: Option<QuestionsError>)
    ensures r.None? <==> QuestionsWellFormed(qs)
    ensures !Iterable(qs) ==> r == Some(QuestionTypeError)
    ensures qs.JArr? && r.Some? ==>
              exists k :: 0 <= k < |qs.items| && !QuestionValid(qs.items[k])
                && (forall j :: 0 <= j < k ==> QuestionValid(qs.items[j]))
                && r.value == QuestionError(qs.items[k])
    ensures (qs.JObj? || qs.JStr?) && r.Some? ==> r.value == QuestionMissingFields
  {
    if !Iterable(qs) then Some(QuestionTypeError)
    else if qs.JArr? then
      var r := FirstInvalidQuestion(qs.items);
      assert r.None? <==> QuestionsWellFormed(qs) by {
        if r.Some? {
          var k :| 0 <= k < |qs.items| && !QuestionValid(qs.items[k]);
          assert qs.items[k] in Elements(qs);
        }
      }
      r
    else if QuestionsWellFormed(qs) then None
    else Some(QuestionMissingFields)
  }

  /**
   * What `generate_questions` makes of a completed run's reply: the
   * `questions` value of the object it holds, or the error raised.
   */
  function ReplyQuestions(text: string, parseObject: string -> Option<map<string, Json>>): Result<Json, QuestionsError> {
    match ObjectSpan(text)
    case None => Err(NoJsonObject)
    case Some(span) =>
      match parseObject(span)
      case None => Err(ObjectDecodeError)
      case Some(obj) =>
        if "questions" !in obj then Err(MissingQuestions)
        else
          match QuestionsFailure(obj["questions"])
          case Some(e) => Err(e)
          case None => Ok(obj["questions"])
  }

  /**
   * Reply handling in `generate_questions`: parse the object span and return its
   * `questions` value unchanged, provided every question has the four keys.
   */
  method QuestionsFromReply(text: string, parseObject: string -> Option<map<string, Json>>)
    returns (r: Result<Json, QuestionsError>)
    ensures r == ReplyQuestions(text, parseObject)
    ensures ObjectSpan(text).None? ==> r == Err(NoJsonObject)
    ensures ObjectSpan(text).Some? && parseObject(ObjectSpan(text).value).None? ==> r == Err(ObjectDecodeError)
    ensures ObjectSpan(text).Some? && parseObject(ObjectSpan(text).value).Some? ==>
              var obj := parseObject(ObjectSpan(text).value).value;
              && ("questions" !in obj ==> r == Err(MissingQuestions))
              && ("questions" in obj ==>
                    && (r.Ok? <==> QuestionsWellFormed(obj["questions"]))
                    && (r.Ok? ==> r.value == obj["questions"])
                    && (r.Err? ==> Some(r.error) == QuestionsFailure(obj["questions"])))
  {
    match ObjectSpan(text)
    case None =>
      return Err(NoJsonObject);
    case Some(span) =>
      match parseObject(span)
      case None =>
        return Err(ObjectDecodeError);
      case Some(obj) =>
        if "questions" !in obj {
          return Err(MissingQuestions);
        }
        var qs := obj["questions"];
        var items := Iterate(qs);
        if items.Err? {
          return Err(QuestionTypeError);
        }
        var checked := CheckQuestions(items.value);
        if checked.Err? {
          assert !QuestionsWellFormed(qs) by {
            var k :| 0 <= k < |items.value| && !QuestionValid(items.value[k]);
            assert items.value[k] in Elements(qs);
          }
          if !qs.JArr? {
            var k :| 0 <= k < |items.value| && !QuestionValid(items.value[k])
                     && checked.error == QuestionError(items.value[k]);
            assert items.value[k].JStr?;
          }
          return Err(checked.error);
        }
        assert QuestionsWellFormed(qs) by {
          forall q | q in Elements(qs) ensures QuestionValid(q) {
            assert q in set x | x in items.value;
          }
        }
        r := Ok(qs);
  }

  /**
   * One iteration of the learning-path validation loop: the step must have
   * `title` and `description`; a `resources` value that is not a list is
   * wrapped into a one-element list.
   */
  function NormalizeStep(step: Json): (r: Result<Json, PathError>)
    ensures r.Ok? <==> HasAll(step, StepKeys) == Ok(true) && !(step.JArr? && JStr("resources") in step.items)
                                                           && !(step.JStr? && Text.Includes(step.s, "resources"))
    ensures r.Err? ==> r.error == (if HasAll(step, StepKeys) == Ok(false) then InvalidStepStructure else StepTypeError)
    ensures r.Ok? && !step.JObj? ==> r.value == step
    ensures r.Ok? && step.JObj? ==>
              && r.value.JObj?
              && r.value.fields.Keys == step.fields.Keys
              && (forall k :: k in step.fields && k != "resources" ==> r.value.fields[k] == step.fields[k])
              && ("resources" in step.fields ==>
                    r.value.fields["resources"] ==
                      if IsList(step.fields["resources"]) then step.fields["resources"]
                      else JArr([step.fields["resources"]]))
  {
    match HasAll(step, StepKeys)
    case Err(_) => Err(StepTypeError)
    case Ok(all) =>
      if !all then Err(InvalidStepStructure)
      else if In("resources", step) == Ok(false) then Ok(step)
      else
        match GetItem(step, "resources")
        case Err(_) => Err(StepTypeError)
        case Ok(res) => if IsList(res) then Ok(step) else Ok(JObj(step.fields["resources" := JArr([res])]))
  }

  /** Normalising a normalised step changes nothing. */
  lemma NormalizeStepIdempotent(step: Json)
    requires NormalizeStep(step).Ok?
    ensures NormalizeStep(NormalizeStep(step).value) == NormalizeStep(step)
  {
    var s := NormalizeStep(step).value;
    if step.JObj? {
      assert HasAll(s, StepKeys) == Ok(true);
    }
  }

  /** The error of the step loop over `steps`: that of the first step that fails, if any. */
  function FirstStepFailure(steps: seq<Json>): (r: Option<PathError>)
    ensures r.None? <==> forall i :: 0 <= i < |steps| ==> NormalizeStep(steps[i]).Ok?
    ensures r.Some? ==>
              exists k :: 0 <= k < |steps| && NormalizeStep(steps[k]) == Err(r.value)
                && forall j :: 0 <= j < k ==> NormalizeStep(steps[j]).Ok?
  {
    if |steps| == 0 then None
    else if NormalizeStep(steps[0]).Err? then Some(NormalizeStep(steps[0]).error)
    else
      var rest := FirstStepFailure(steps[1..]);
      assert rest.Some? ==> exists k :: 1 <= k < |steps| && NormalizeStep(steps[k]) == Err(rest.value)
                              && forall j :: 0 <= j < k ==> NormalizeStep(steps[j]).Ok? by {
        if rest.Some? {
          var k :| 0 <= k < |steps[1..]| && NormalizeStep(steps[1..][k]) == Err(rest.value)
                   && forall j :: 0 <= j < k ==> NormalizeStep(steps[1..][j]).Ok?;
          assert steps[1..][k] == steps[k + 1];
          forall j | 0 <= j < k + 1 ensures NormalizeStep(steps[j]).Ok? {
            if j > 0 { assert steps[1..][j - 1] == steps[j]; }
          }
        }
      }
      rest
  }

  /**
   * The validation loop of `generate_learning_path_from_responses`, which
   * rewrites `step['resources']` in place; the first failing step decides the error.
   */
  method ValidateSteps(steps: seq<Json>) returns (r: Result<seq<Json>, PathError>)
    ensures r.Ok? <==> forall i :: 0 <= i < |steps| ==> NormalizeStep(steps[i]).Ok?
    ensures r.Ok? ==> |r.value| == |steps| && forall i :: 0 <= i < |steps| ==> NormalizeStep(steps[i]) == Ok(r.value[i])
    ensures r.Err? ==> FirstStepFailure(steps) == Some(r.error)
  {
    var path := steps;
    var i := 0;
    while i < |path|
      invariant 0 <= i <= |path| == |steps|
      invariant forall j :: 0 <= j < i ==> NormalizeStep(steps[j]) == Ok(path[j])
      invariant forall j :: i <= j < |path| ==> path[j] == steps[j]
      invariant FirstStepFailure(steps[i..]) == FirstStepFailure(steps)
    {
      assert steps[i..][1..] == steps[i + 1..];
      match NormalizeStep(path[i])
      case Err(e) =>
        return Err(e);
      case Ok(step) =>
        path := path[i := step];
      i := i + 1;
    }
    r := Ok(path);
  }

  /**
   * What `generate_learning_path_from_responses` makes of a completed run's
   * reply: the steps of the array it holds, normalised, or the error raised.
   */
  function ReplySteps(text: string, parseArray: string -> Option<seq<Json>>): Result<seq<Json>, PathError> {
    match ArraySpan(text)
    case None => Err(NoJsonArray)
    case Some(span) =>
      match parseArray(span)
      case None => Err(ArrayDecodeError)
      case Some(steps) =>
        match FirstStepFailure(steps)
        case Some(e) => Err(e)
        case None =>
          Ok(seq(|steps|, i requires 0 <= i < |steps| && NormalizeStep(steps[i]).Ok? => NormalizeStep(steps[i]).value))
  }

  /**
   * Reply handling in `generate_learning_path_from_responses`: parse the array
   * span and validate every step.
   */
  method LearningPathFromReply(text: string, parseArray: string -> Option<seq<Json>>)
    returns (r: Result<seq<Json>, PathError>)
    ensures r == ReplySteps(text, parseArray)
    ensures ArraySpan(text).None? ==> r == Err(NoJsonArray)
    ensures ArraySpan(text).Some? && parseArray(ArraySpan(text).value).None? ==> r == Err(ArrayDecodeError)
    ensures ArraySpan(text).Some? && parseArray(ArraySpan(text).value).Some? ==>
              var steps := parseArray(ArraySpan(text).value).value;
              && (r.Ok? <==> forall i :: 0 <= i < |steps| ==> NormalizeStep(steps[i]).Ok?)
              && (r.Ok? ==> |r.value| == |steps| && forall i :: 0 <= i < |steps| ==> NormalizeStep(steps[i]) == Ok(r.value[i]))
              && (r.Err? ==>
                    exists k :: 0 <= k < |steps| && NormalizeStep(steps[k]) == Err(r.error)
                      && forall j :: 0 <= j < k ==> NormalizeStep(steps[j]).Ok?)
  {
    match ArraySpan(text)
    case None =>
      return Err(NoJsonArray);
    case Some(span) =>
      match parseArray(span)
      case None =>
        return Err(ArrayDecodeError);
      case Some(steps) =>
        r := ValidateSteps(steps);
        if r.Ok? {
          assert r.value == ReplySteps(text, parseArray).value;
        }
  }

  // ---------------------------------------------------------------------------
  // The two generation entry points, with the thread run as a parameter

  /** What is sent to the assistant: the prompt's variable parts. */
  datatype Prompt =
    | QuestionsPrompt(assistantId: string, formattedResponses: string, studentType: string, major: string)
    | LearningPathPrompt(assistantId: string, formattedResponses: string, focus: Option<string>)

  /** The search text the learning-path prompt mentions: `if search_query` skips both None and "". */
  function SearchFocus(search: Option<string>): (r: Option<string>)
    ensures r.Some? <==> search.Some? && search.value != ""
    ensures r.Some? ==> r == search
  {
    if search.Some? && search.value != "" then search else None
  }

  /**
   * `generate_questions` with the run supplied by `assistant`: the text of
   * the first message once the run completes, or None when it fails.
   */
  method GenerateQuestions(assistantId: string, responses: seq<SurveyResponse>, studentType: string, major: string,
                           assistant: Prompt -> Option<string>,
                           parseObject: string -> Option<map<string, Json>>)
    returns (r: Result<Json, QuestionsError>)
    ensures var reply := assistant(QuestionsPrompt(assistantId, FormatResponses(responses), studentType, major));
            && (reply.None? ==> r == Err(QuestionsRunFailed))
            && (reply.Some? ==> r == ReplyQuestions(reply.value, parseObject))
  {
    var reply := assistant(QuestionsPrompt(assistantId, FormatResponses(responses), studentType, major));
    if reply.None? {
      return Err(QuestionsRunFailed);
    }
    r := QuestionsFromReply(reply.value, parseObject);
  }

  /** `generate_learning_path_from_responses` with the run supplied by `assistant`. */
  method GenerateLearningPath(assistantId: string, responses: seq<SurveyResponse>, search: Option<string>,
                              assistant: Prompt -> PathRun,
                              parseArray: string -> Option<seq<Json>>)
    returns (r: Result<seq<Json>, PathError>)
    ensures var run := assistant(LearningPathPrompt(assistantId, FormatResponses(responses), SearchFocus(search)));
            && (run.Ended? ==> r == Err(RunEnded(run.status)))
            && (run.Silent? ==> r == Err(NoAssistantReply))
            && (run.Replied? ==> r == ReplySteps(run.text, parseArray))
  {
    var run := assistant(LearningPathPrompt(assistantId, FormatResponses(responses), SearchFocus(search)));
    match run
    case Ended(status) =>
      return Err(RunEnded(status));
    case Silent =>
      return Err(NoAssistantReply);
    case Replied(text) =>
      r := LearningPathFromReply(text, parseArray);
  }
}
