/** The first step's form: university and major dropdowns and the submit button. */
module SelectionForm {
  import opened Wrappers
  import opened Catalogue
  import opened Dropdown

  /** `universities.find(u => u.id === id)` */
  function FindUniversity(catalogue: seq<University>, id: string): (r: Option<University>)
    ensures r.None? <==> forall u :: u in catalogue ==> u.id != id
    ensures r.Some? ==> exists k :: 0 <= k < |catalogue| && catalogue[k] == r.value && r.value.id == id
                                      && forall j :: 0 <= j < k ==> catalogue[j].id != id
  {
    if |catalogue| == 0 then None
    else if catalogue[0].id == id then Some(catalogue[0])
    else
      var r := FindUniversity(catalogue[1..], id);
      assert r.Some? ==> exists k :: 0 <= k < |catalogue| && catalogue[k] == r.value && r.value.id == id
                                      && forall j :: 0 <= j < k ==> catalogue[j].id != id by {
        if r.Some? {
          var k :| 0 <= k < |catalogue[1..]| && catalogue[1..][k] == r.value && r.value.id == id
                   && forall j :: 0 <= j < k ==> catalogue[1..][j].id != id;
          assert catalogue[k + 1] == r.value;
          assert forall j :: 0 <= j < k + 1 ==> catalogue[j].id != id by {
            forall j | 0 <= j < k + 1 ensures catalogue[j].id != id {
              if j > 0 { assert catalogue[j] == catalogue[1..][j - 1]; }
            }
          }
        }
      }
      r
  }

  /** The dropdown option for a major: its id, its name as label, its description. */
  function MajorOption(m: Major): DropdownOption {
    DropdownOption(m.id, m.name, Some(m.description))
  }

  /** `getAvailableMajors`: the selected university's majors as options, or none. */
  function AvailableMajors(catalogue: seq<University>, selectedUniversity: string): (r: seq<DropdownOption>)
    ensures (forall u :: u in catalogue ==> u.id != selectedUniversity) ==> r == []
    ensures FindUniversity(catalogue, selectedUniversity).Some? ==>
              var majors := FindUniversity(catalogue, selectedUniversity).value.majors;
              |r| == |majors| && forall i :: 0 <= i < |majors| ==>
                r[i].id == majors[i].id && r[i].labelText == majors[i].name && r[i].description == Some(majors[i].description)
  {
    match FindUniversity(catalogue, selectedUniversity)
    case None => []
    case Some(u) => seq(|u.majors|, i requires 0 <= i < |u.majors| => MajorOption(u.majors[i]))
  }

  /** The university dropdown's options: one per catalogue entry, labelled by name and described by location. */
  function UniversityOptions(catalogue: seq<University>): (r: seq<DropdownOption>)
    ensures |r| == |catalogue|
    ensures forall i :: 0 <= i < |catalogue| ==>
              r[i] == DropdownOption(catalogue[i].id, catalogue[i].name, Some(catalogue[i].location))
  {
    seq(|catalogue|, i requires 0 <= i < |catalogue| =>
      DropdownOption(catalogue[i].id, catalogue[i].name, Some(catalogue[i].location)))
  }

  /** What the form renders for its props. */
  datatype FormView = FormView(
    universityOptions: seq<DropdownOption>,
    universityValue: string,
    majorOptions: seq<DropdownOption>,
    majorValue: string,
    majorDisabled: bool,
    submitLoading: bool)

  /** The form over the static catalogue. */
  function Render(selectedUniversity: string, selectedMajor: string, isLoading: bool): (r: FormView)
    ensures r.universityOptions == UniversityOptions(Universities)
    ensures r.majorOptions == AvailableMajors(Universities, selectedUniversity)
    ensures r.universityValue == selectedUniversity && r.majorValue == selectedMajor
    ensures r.majorDisabled <==> selectedUniversity == ""
    ensures selectedUniversity == "" ==> r.majorOptions == []
    ensures r.submitLoading <==> isLoading
  {
    assert forall u :: u in Universities ==> u.id != "";
    FormView(UniversityOptions(Universities), selectedUniversity,
             AvailableMajors(Universities, selectedUniversity), selectedMajor,
             selectedUniversity == "", isLoading)
  }
}
