/** The home page: pick a university and a major, then a student type, then start a session. */
module HomePage {
  import opened Wrappers
  import opened Fetch
  import opened StartSessionHook
  import Api

  datatype Step = School | TypeChoice

  /** What a submission does besides the hook's state: navigate, or show an error toast. */
  datatype UiEffect = Navigate(path: string) | ErrorToast(description: string)

  const MissingSelection: string := "Please select all required fields"

  /**
   * The `try`/`catch` around `startSession`: a non-null result navigates to the
   * session's initial survey; a null result and every thrown value end in a toast.
   */
  function SubmitEffect(outcome: FetchOutcome<Option<string>>): (r: UiEffect)
    ensures r.Navigate? <==> outcome.Responded? && outcome.ok && outcome.body.Some?
    ensures r.Navigate? ==> r.path == "/survey/" + outcome.body.value + "/initial"
    ensures outcome.Responded? && !r.Navigate? ==> r == ErrorToast(FailedToStart)
    ensures outcome.Rejected? ==> r == ErrorToast(MessageOf(outcome.thrown, FailedToStart))
  {
    match StartOutcome(outcome)
    case Ok(Some(sessionId)) => Navigate("/survey/" + sessionId + "/initial")
    case Ok(None) => ErrorToast(FailedToStart)
    case Err(thrown) => ErrorToast(MessageOf(thrown, FailedToStart))
  }

  class Home {
    var step: Step
    var selectedUniversity: string
    var selectedMajor: string
    const startSession: StartSession

    constructor()
      ensures step == School && selectedUniversity == "" && selectedMajor == ""
      ensures fresh(startSession) && startSession.Valid() && !startSession.isLoading
    {
      step := School;
      selectedUniversity := "";
      selectedMajor := "";
      startSession := new StartSession();
    }

    /** The form's submit: always on to the student-type step. */
    method HandleSchoolSelect()
      modifies this
      ensures step == TypeChoice
      ensures selectedUniversity == old(selectedUniversity) && selectedMajor == old(selectedMajor)
    {
      step := TypeChoice;
    }

    /** A new university invalidates the chosen major. */
    method OnUniversityChange(value: string)
      modifies this
      ensures selectedUniversity == value && selectedMajor == ""
      ensures step == old(step)
    {
      selectedUniversity := value;
      selectedMajor := "";
    }

    method OnMajorChange(value: string)
      modifies this
      ensures selectedMajor == value
      ensures selectedUniversity == old(selectedUniversity) && step == old(step)
    {
      selectedMajor := value;
    }

    /**
     * `handleSubmit(type)`, with `outcome` standing for how the request settles.
     * A blank selection sends nothing and leaves the hook alone; otherwise the
     * request carries the two selections and the chosen type.
     */
    method HandleSubmit(studentType: string, outcome: FetchOutcome<Option<string>>)
      returns (req: Option<HttpRequest>, effect: UiEffect)
      modifies startSession
      ensures selectedUniversity == "" || selectedMajor == "" ==>
                && req == None && effect == ErrorToast(MissingSelection)
                && unchanged(startSession)
      ensures selectedUniversity != "" && selectedMajor != "" ==>
                && req == Some(StartRequest(Api.SessionRequest(selectedUniversity, selectedMajor, studentType)))
                && effect == SubmitEffect(outcome)
                && startSession.Valid() && !startSession.isLoading
    {
      if selectedUniversity == "" || selectedMajor == "" {
        return None, ErrorToast(MissingSelection);
      }
      var request := startSession.Begin(Api.SessionRequest(selectedUniversity, selectedMajor, studentType));
      var result := startSession.Settle(outcome);
      req := Some(request);
      match result {
        case Ok(body) =>
          if body.Some? {
            effect := Navigate("/survey/" + body.value + "/initial");
          } else {
            effect := ErrorToast(FailedToStart);
          }
        case Err(thrown) =>
          effect := ErrorToast(MessageOf(thrown, FailedToStart));
      }
    }
  }
}
