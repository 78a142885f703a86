# LINK: session and survey bookkeeping, modelled in Dafny

LINK is a course-advice web application. The student picks a university and a
major and then a student type. The FastAPI backend then opens a session in
Firestore with an OpenAI assistant attached, serves a fixed initial survey for
that student type, stores the answers as they are submitted, asks the
assistant for follow-up questions and for a learning path, and validates its
replies. The React frontend holds a searchable dropdown, the selection form,
a two-step home page, and three data-fetching hooks.

This project models both sides of that HTTP boundary:

- `Wrappers`, `Text`, `Json`: option and result types. Python's `str.find`,
  `str.rfind`, slicing, `"\n".join` and `in`, and JavaScript's
  `toLowerCase`/`includes`. JSON values with Python's `in` and `[]`,
  including the `TypeError` they raise on values that are not containers.
- `Surveys` (backend/data/surveys.py): the question type, its `to_dict` form
  with the inverse decoding, and the three survey tables.
- `Store`: the Firestore documents and a `Db` class holding the `sessions`
  and `assistants` collections as maps.
- `AssistantService`, `SessionService`, `SurveyService`: the backend
  services.
  - The assistant cache, response formatting, and the reply checks.
  - OpenAI calls are function parameters: assistant creation, and a thread
    run together with how it ended.
  - `json.loads` is a parameter too.
- `Api` (backend/main.py): the endpoint handlers.
- `Wire`: the JSON request bodies the frontend sends, what the backend's
  request models accept, and the round trip between the two.
- `Catalogue`, `Dropdown`, `SelectionForm`, `HomePage`: the frontend
  selection logic.
- `Fetch`, `StartSessionHook`, `InitialSurveyHook`, `LearningPathHook`: the
  frontend hooks, as classes.
  - Each `fetch` is split in two: the request the hook issues, and a
    `Settle` step that takes how the request settled. The exception is
    `InitialSurvey.SubmitResponses`, which takes the outcome of its POST in
    the same step.
  - In `InitialSurveyHook` and `LearningPathHook` a ghost field counts the
    requests the mount effect issues, and the class invariant `Valid()`
    keeps that count at no more than one per hook instance.
  - `StartSessionHook` has no such guard: `startSession` may be called any
    number of times. A ghost flag `pending` marks a request in flight, and
    `Valid()` keeps `isLoading` equal to it.
  - `Text.Includes` stands for both JavaScript's `String.includes` and
    Python's `in` on a str; `AssistantService.FormatResponse` is the
    `f"Q: {q}\nA: {a}"` block of one response. Both are described by the
    contracts of the members that use them.

## Model

| member | source | states |
|---|---|---|
| Text.Find | backend/services/assistant_service.py:141 | `str.find`: -1 exactly when the character is absent, otherwise the index of its first occurrence |
| Text.RFind | backend/services/assistant_service.py:142 | `str.rfind`: -1 exactly when absent, otherwise the index of its last occurrence |
| Text.Slice | backend/services/assistant_service.py:146 | Python slicing: the substring between the bounds, empty when the end is not after the start |
| Text.IncludesEmpty | frontend/src/components/SearchableDropdown.tsx:51 | every string includes the empty string, so an empty search term matches every label |
| Text.IncludesTooLong | backend/services/assistant_service.py:154 | a string never includes a longer one |
| Text.Lower | frontend/src/components/SearchableDropdown.tsx:51 | lower-casing keeps the length and lowers each character |
| Json.In | backend/services/assistant_service.py:154 | Python `key in v`: dict key membership, list element equality, substring for a str, `TypeError` for any other value |
| Json.HasAll | backend/services/assistant_service.py:154 | `all(key in v for key in keys)`: true exactly when every key is in `v`; raises exactly when the first test raises |
| Json.GetItem | backend/services/assistant_service.py:261 | `v[key]`: the value of a present dict key, `KeyError` for a missing one, `TypeError` otherwise |
| Surveys.Strings | backend/data/surveys.py:10-16 | the options list becomes a JSON array of the same strings in order |
| Surveys.ToDict | backend/data/surveys.py:10-16 | `to_dict` has exactly the keys id, question, options, freeText, with the question's values |
| Surveys.StringsOf | backend/data/surveys.py:10-16 | decoding a JSON string array gives back strings whose encoding is that array |
| Surveys.FromDict | backend/data/surveys.py:10-16 | decoding a question dictionary gives a question whose `to_dict` is that dictionary |
| Surveys.FromDictToDict | backend/data/surveys.py:4-16 | `to_dict` loses nothing: decoding it gives back the question |
| Surveys.FreeTextDefaultsToFalse | backend/data/surveys.py:4 | a question built without `free_text` is not free text |
| Surveys.SurveyTypesKeys | backend/data/surveys.py:123-127 | the survey types are exactly first_year, junior_transfer and typical |
| Surveys.CatalogueWellFormed | backend/data/surveys.py:18-121 | every survey has five questions numbered 1 to 5, options exactly on its choice questions, and exactly one free-text question |
| Store.Session.StoredResponses | backend/services/survey_service.py:27 | `.get("survey_responses", {}).get("responses", [])`: the stored list, or empty when no responses were ever stored |
| AssistantService.AssistantKey | backend/services/assistant_service.py:7-9 | the key is the university id, an underscore and the major id |
| AssistantService.AssistantKeyInjective | backend/services/assistant_service.py:7-9 | different university and major pairs get different keys when university ids have no underscore |
| AssistantService.AssistantKeyCollision | backend/services/assistant_service.py:7-9 | with an underscore in a university id, two different pairs share a key |
| AssistantService.GetOrCreate | backend/services/assistant_service.py:11-59 | on a cache hit, the cached id and no write; on a miss, the created id stored under the key with the pair; a failed creation is HTTP 500 "Failed to create assistant: ..." and no write |
| AssistantService.GetOrCreateStable | backend/services/assistant_service.py:11-59 | once an id is returned for a pair, asking again returns the same id and leaves the cache as it is |
| AssistantService.GetOrCreateAssistant | backend/services/assistant_service.py:11-59 | the stored assistants and the result are those of `GetOrCreate` on the old cache |
| AssistantService.FormatResponses | backend/services/assistant_service.py:68-71 | no responses give the empty text, one gives its block, and more give the first block, a newline and the text of the rest |
| AssistantService.FormatResponseLines | backend/services/assistant_service.py:69 | the block of a response without line breaks is exactly its "Q: " line and its "A: " line |
| AssistantService.FormatRoundTrip | backend/services/assistant_service.py:68-71 | the "Q: ...\nA: ..." prompt text keeps every response, in order, when no question or answer spans lines |
| AssistantService.SplitFormatted | backend/services/assistant_service.py:68-71 | the formatted text splits at newlines into the Q and A lines, in order |
| AssistantService.ParseLinesOfLines | backend/services/assistant_service.py:68-71 | reading the Q and A lines back gives the responses |
| AssistantService.FormatAppend | backend/services/assistant_service.py:178-181 | formatting one more response appends a newline and that response's block |
| AssistantService.Span | backend/services/assistant_service.py:141-146 | the span runs from the first opening bracket to the last closing one. It is missing exactly when either bracket is missing. It is empty when the last close comes before the first open |
| AssistantService.Iterate | backend/services/assistant_service.py:153 | `for x in v`: list elements in order, the characters of a str in order, each dict key once as a string; `TypeError` for anything else |
| AssistantService.FirstInvalidQuestion | backend/services/assistant_service.py:153-155 | no error exactly when every question has the four keys; otherwise the error belongs to the first question that fails: `TypeError` when `in` does not apply to it, missing fields otherwise |
| AssistantService.CheckQuestions | backend/services/assistant_service.py:153-155 | succeeds exactly when every question has the four keys; otherwise fails with the first failing question's error |
| AssistantService.QuestionsFailure | backend/services/assistant_service.py:153-155 | no error exactly when the `questions` value is iterable and each element has the four keys; `TypeError` for a value that is not iterable; for a list, the first failing element's error; for a dict or a str, always missing fields |
| AssistantService.QuestionsFromReply | backend/services/assistant_service.py:139-157 | no object span is "No JSON object found"; an undecodable span is the JSON parse error; an object without `questions` is "Response missing 'questions' field"; otherwise success exactly when the `questions` value passes, returning it unchanged, and else the validation's error |
| AssistantService.NormalizeStep | backend/services/assistant_service.py:258-262 | a step passes exactly when it has title and description and the `resources` test does not raise; a non-list `resources` is wrapped in a one-element list and nothing else changes |
| AssistantService.NormalizeStepIdempotent | backend/services/assistant_service.py:258-262 | normalising an already normalised step changes nothing |
| AssistantService.FirstStepFailure | backend/services/assistant_service.py:258-262 | no error exactly when every step normalises; otherwise the error of the first step that does not |
| AssistantService.ValidateSteps | backend/services/assistant_service.py:258-264 | every step is normalised in place and in order; it fails exactly when some step does, with the first failing step's error |
| AssistantService.LearningPathFromReply | backend/services/assistant_service.py:247-264 | no array span is "No JSON array found in response"; an undecodable span is "Failed to parse learning path"; otherwise success exactly when every step normalises, giving the normalised steps, and else the first failing step's error ("Invalid learning path structure" or `TypeError`) |
| AssistantService.GenerateQuestions | backend/services/assistant_service.py:61-172 | a failed run is "Failed to generate questions"; otherwise the result, value or error, is what the reply checks make of the reply to the prompt built from the formatted responses, student type and major |
| AssistantService.SearchFocus | backend/services/assistant_service.py:188 | the prompt mentions the search exactly when it is present and not empty |
| AssistantService.GenerateLearningPath | backend/services/assistant_service.py:174-274 | a run that ends badly is "Run failed with status: " and that status; no assistant message is "No response from assistant"; otherwise the result, value or error, is what the step checks make of the reply to the prompt with the formatted responses and the search focus |
| SessionService.NewSession | backend/services/session_service.py:15-23 | a new session records the university, major, student type and assistant, with status "initialized", no responses and no learning path |
| SessionService.CreateSession | backend/services/session_service.py:6-39 | an assistant error is passed on and no session is written; otherwise the new session is stored under the generated id and every other session is untouched |
| SessionService.GetSession | backend/services/session_service.py:41-48 | the stored session, or HTTP 404 "Session not found" |
| SurveyService.GetInitialQuestions | backend/services/survey_service.py:6-13 | HTTP 400 "Invalid student type: ..." exactly for unknown types; otherwise the type's questions as dictionaries, each decoding back to its table entry, in order |
| SurveyService.WithResponses | backend/services/survey_service.py:26-44 | new responses are appended to the stored ones; the count is the new total; the status is in progress below 10 and completed from 10 on; nothing else changes |
| SurveyService.WithResponsesBatches | backend/services/survey_service.py:26-44 | submitting in two batches stores the same document as one submission of both |
| SurveyService.CompletedStaysCompleted | backend/services/survey_service.py:43 | once completed, a session stays completed under further submissions |
| SurveyService.SubmitSurveyResponses | backend/services/survey_service.py:15-53 | a missing session is HTTP 404 with no write; otherwise only that session changes, to its `WithResponses` form |
| Api.MajorIdToName | backend/main.py:34-38 | cs is "Computer Science", dh is "Digital Health", any other id is "Unknown" |
| Api.StartSession | backend/main.py:40-50 | `{"session_id": id}` for the session `create_session` stored, with the sessions map and the assistant cache exactly as `create_session` leaves them; its errors are passed on and nothing is stored |
| Api.GetInitialSurvey | backend/main.py:52-68 | 404 for a missing session, the survey service's 400 for an unknown student type, otherwise `{"questions": ...}` |
| Api.GenerateSurvey | backend/main.py:70-90 | 404 for a missing session; 400 when no responses are stored; otherwise, for the run on the prompt built from the stored responses, student type and major name: 500 "Failed to generate questions" when it fails, success exactly when the reply checks accept the reply, with `{"questions": ...}`, and else 500 with the detail of the check that rejected it |
| Api.SubmitSurveyResponse | backend/main.py:92-105 | `{"status": "success"}` with the responses appended, or 404 with no write |
| Api.GetLearningPath | backend/main.py:107-136 | 404 and 400 as for the survey; otherwise, for the run on the prompt built from the stored responses and the search: 500 "Run failed with status: ..." naming the status it ended with, 500 "No response from assistant" without an assistant message, success exactly when the step checks accept the reply, and else 500 with the rejecting check's detail; no write on any error; on success the normalised path is returned and stored in the session with status `learning_path_generated`, and no other session changes |
| Wire.SessionRequestJson | frontend/src/hooks/useStartSession.ts:22 | the start-session body has exactly the keys university_id, major_id, student_type, with the given strings |
| Wire.StringField | backend/main.py:28-31 | a model field of type str accepts exactly a present JSON string |
| Wire.DecodeSessionRequest | backend/main.py:28-31 | `SessionRequest` accepts exactly an object with the three string fields |
| Wire.SessionRequestRoundTrip | backend/main.py:28-31 | the backend reads back exactly the parameters the frontend sent |
| Wire.ResponseJson | frontend/src/hooks/useInitialSurvey.ts:60 | one response is an object with exactly question and answer |
| Wire.ResponsesJson | frontend/src/hooks/useInitialSurvey.ts:60 | the submitted body is a JSON array of the responses, in the given order |
| Wire.DecodeResponse | backend/main.py:21-23 | `SurveyResponse` accepts exactly an object with string question and answer |
| Wire.DecodeResponseItems | backend/main.py:92-96 | the list decodes exactly when every element does, element by element |
| Wire.DecodeResponses | backend/main.py:92-96 | the body decodes exactly when it is a JSON array every element of which decodes, giving those responses element by element |
| Wire.ResponsesRoundTrip | backend/main.py:92-96 | the responses the survey page submits reach the backend unchanged and in order |
| Catalogue.UniversityIds | frontend/src/data/universities.ts:15-38 | two universities, berkeley and hpi, with distinct ids |
| Catalogue.MajorsPerUniversity | frontend/src/data/universities.ts:19-37 | berkeley has exactly the major cs and hpi exactly the major dh |
| Catalogue.MajorNamesAgreeWithBackend | frontend/src/data/universities.ts:21-34 | every catalogue major's name is the name the backend gives its id |
| Catalogue.AssistantKeysDistinct | frontend/src/data/universities.ts:15-38 | different catalogue university and major pairs get different assistant keys |
| Dropdown.FilteredOptions | frontend/src/components/SearchableDropdown.tsx:50-52 | the shown options are exactly those whose lower-cased label contains the lower-cased search term |
| Dropdown.FilteredOptionsAppend | frontend/src/components/SearchableDropdown.tsx:50-52 | filtering keeps the original order: it distributes over concatenation |
| Dropdown.FilteredOptionsEmptyTerm | frontend/src/components/SearchableDropdown.tsx:50-52 | an empty search term shows every option |
| Dropdown.SelectedOption | frontend/src/components/SearchableDropdown.tsx:54 | the first option whose id is the value, or none exactly when no option has it |
| Dropdown.SearchableDropdown.constructor | frontend/src/components/SearchableDropdown.tsx:35-36 | the list starts closed with an empty search term |
| Dropdown.SearchableDropdown.InputValue | frontend/src/components/SearchableDropdown.tsx:59 | the input shows the selected option's label if there is one, otherwise the search term |
| Dropdown.SearchableDropdown.ListShown | frontend/src/components/SearchableDropdown.tsx:75 | the list is shown exactly when it is open and some option matches |
| Dropdown.SearchableDropdown.OnInputChange | frontend/src/components/SearchableDropdown.tsx:60-63 | typing sets the search term and opens the list |
| Dropdown.SearchableDropdown.OnFocus | frontend/src/components/SearchableDropdown.tsx:64 | focusing opens the list and leaves the search term |
| Dropdown.SearchableDropdown.OnOutsideClick | frontend/src/components/SearchableDropdown.tsx:45-48 | a click outside closes the list and leaves the search term |
| Dropdown.SearchableDropdown.OnChoose | frontend/src/components/SearchableDropdown.tsx:97-101 | choosing a shown option reports its id, which belongs to a matching option, then clears the search term and closes the list |
| SelectionForm.FindUniversity | frontend/src/components/UniversitySelectionForm.tsx:35 | the first university with the id, or none exactly when no university has it |
| SelectionForm.AvailableMajors | frontend/src/components/UniversitySelectionForm.tsx:34-43 | no options for an unknown university; otherwise one option per major, in order, with id, name and description copied |
| SelectionForm.UniversityOptions | frontend/src/components/UniversitySelectionForm.tsx:53-57 | one option per university, in order, labelled by name and described by location |
| SelectionForm.Render | frontend/src/components/UniversitySelectionForm.tsx:52-83 | the major dropdown is disabled exactly when no university is selected, and then it has no options; the button is loading exactly when `isLoading` holds |
| Fetch.MessageOf | frontend/src/app/page.tsx:64 | an `Error`'s message, or the fallback for any other thrown value |
| StartSessionHook.StartRequest | frontend/src/hooks/useStartSession.ts:17-23 | a POST to /api/start-session whose body the backend decodes to exactly the given parameters |
| StartSessionHook.StartOutcome | frontend/src/hooks/useStartSession.ts:25-28 | resolves exactly on an ok response, with the body; a non-ok response rejects with "Failed to start session"; a rejection is passed on |
| StartSessionHook.StartSession.constructor | frontend/src/hooks/useStartSession.ts:10 | not loading at first |
| StartSessionHook.StartSession.Begin | frontend/src/hooks/useStartSession.ts:15-23 | loading is on before the request goes out |
| StartSessionHook.StartSession.Settle | frontend/src/hooks/useStartSession.ts:24-31 | loading is off after every outcome; the result is `StartOutcome` |
| HomePage.SubmitEffect | frontend/src/app/page.tsx:48-69 | navigates to /survey/{id}/initial exactly on an ok response with a session; every other outcome toasts "Failed to start session", or the thrown `Error`'s message |
| HomePage.Home.constructor | frontend/src/app/page.tsx:23-27 | the page starts at the school step with both selections empty, and the hook not loading |
| HomePage.Home.HandleSchoolSelect | frontend/src/app/page.tsx:32-34 | moves to the student-type step unconditionally, keeping the selections |
| HomePage.Home.OnUniversityChange | frontend/src/app/page.tsx:106-109 | a new university clears the selected major |
| HomePage.Home.OnMajorChange | frontend/src/app/page.tsx:110 | sets the major and nothing else |
| HomePage.Home.HandleSubmit | frontend/src/app/page.tsx:36-70 | with a blank selection, no request is sent, the toast is "Please select all required fields" and the hook is untouched; otherwise the request carries both selections and the chosen type, and the effect is `SubmitEffect` |
| InitialSurveyHook.InitialSurvey.constructor | frontend/src/hooks/useInitialSurvey.ts:15-18 | no questions, loading, effect not run |
| InitialSurveyHook.InitialSurvey.RunEffect | frontend/src/hooks/useInitialSurvey.ts:20-34 | only the first run issues GET /api/initial-survey/{id}; later runs change nothing; at most one request per instance |
| InitialSurveyHook.InitialSurvey.ChangeSessionId | frontend/src/hooks/useInitialSurvey.ts:47 | a new session id re-runs the effect, which issues nothing once it has run, and otherwise issues the GET for the new id |
| InitialSurveyHook.InitialSurvey.Settle | frontend/src/hooks/useInitialSurvey.ts:35-43 | loading ends on every outcome. Only an ok response sets the questions. A non-ok response leaves them empty and raises "Failed to fetch questions" unhandled. A rejection leaves them empty and is raised unhandled |
| InitialSurveyHook.InitialSurvey.SubmitResponses | frontend/src/hooks/useInitialSurvey.ts:49-69 | posts the responses for this session in an order-preserving body; true on an ok response, otherwise rejects with "Failed to submit responses" or the thrown value |
| LearningPathHook.LearningPath.constructor | frontend/src/hooks/useLearningPath.ts:11-15 | empty path, no error, loading, effect not run |
| LearningPathHook.LearningPath.RunEffect | frontend/src/hooks/useLearningPath.ts:17-31 | only the first run issues GET /api/learning-path/{id}; later runs change nothing; at most one request per instance |
| LearningPathHook.LearningPath.ChangeSessionId | frontend/src/hooks/useLearningPath.ts:48 | a new session id re-runs the effect, which issues nothing once it has run, and otherwise issues the GET for the new id |
| LearningPathHook.LearningPath.Settle | frontend/src/hooks/useLearningPath.ts:33-44 | loading ends on every outcome. An ok response sets the path and leaves the error null. A non-ok response sets "Failed to generate learning path" and leaves the path empty. A thrown `Error` sets its message; any other thrown value sets the fallback |

## Left out

- OpenAI is not modelled. This covers assistant creation, threads, messages, runs and the polling loops. Creation and the outcome of a run are function parameters.
- AssistantService.GenerateQuestions: its run is modelled as either the text of the first message or a failed run. The polling loop of `generate_questions` ends only on `completed` or `failed`, so a run that is cancelled or expires is polled forever; that non-termination is not modelled. The first message is taken as the reply without checking its role, as the code does.
- The prompt wording is left out. A prompt is modelled by its variable parts: the assistant id, the formatted responses, the student type, the major name, and the search focus. An empty search and no search give the same prompt text, so both become no focus.
- `json.loads` is a parameter. Its input decides its type: the object span decodes to a dict, the array span to a list.
- JSON numbers are integers. Floats are not modelled.
- Firestore is modelled as two maps in `Store.Db`. Network failures of Firestore calls, and the HTTP 500 errors they become, are left out.
- The document id Firestore generates is a parameter of `SessionService.CreateSession`. Unchanged earlier sessions are promised only when that id is fresh.
- The `created_at`, `updated_at` and `submitted_at` timestamps are left out. They come from the clock.
- The generic `except Exception` branches of the handlers in backend/main.py are not modelled. They call `logger`, which that file never imports, so they would raise `NameError` instead of returning a clean 500. The exceptions the services raise are all `HTTPException`s, and those pass through the handlers unchanged.
- Logging is left out. So are the `print` in `generate_survey` and the configuration module.
- The generic `except Exception` handlers wrap an inner `HTTPException` once more. The model reports the inner status and detail instead, because the outer text is `str()` of the exception, whose format belongs to the web framework. `AssistantService.QuestionsError.Detail` and `AssistantService.PathError.Detail` hold the inner details.
- A `TypeError` raised by `in` inside the reply checks carries Python's own message. It is modelled only as the kind of failure.
- AssistantService.Iterate: the order in which dict keys are visited is left open. Only which keys are visited is stated.
- The `if not session` checks in backend/main.py are not modelled, because they are unreachable. `get_session` returns a non-empty dict or raises.
- Pydantic coerces some non-string scalars into `str` fields. Wire.DecodeSessionRequest and Wire.DecodeResponse do not model that coercion: they accept JSON strings only.
- Lower-casing covers ASCII letters only. JavaScript's full Unicode case mapping is not modelled.
- Rendering is not modelled: colours, layout, toasts' durations, and the `isDisabled` and `placeholder` props of the dropdown.
- React's scheduling is not modelled. `Settle` stands for the moment an awaited `fetch` settles.
- Overlapping calls of `startSession` are not modelled. `Valid()` ties the loading flag to one outstanding call.
- The hooks model the response body by the one field they read. That is the session id (or `null`), the `questions` array, or the `learning_path` array. Bodies of any other shape are left out, for example ones where the field is missing and the JavaScript value is `undefined`.
- The native form submission of `<form onSubmit>` without `preventDefault` is not modelled. This is browser behaviour.
