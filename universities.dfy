/** The static university and major catalogue the selection form offers. */
module Catalogue {
  import Api
  import AssistantService

  datatype Major = Major(id: string, name: string, description: string)

  datatype University = University(id: string, name: string, location: string, majors: seq<Major>)

  const Universities: seq<University> := [
    University("berkeley", "University of California, Berkeley", "Berkeley, CA",
               [Major("cs", "Computer Science", "Study of computers and computational systems")]),
    University("hpi", "Hasso Plattner Institute", "Berlin, Germany",
               [Major("dh", "Digital Health", "Study of digital health and its impact on healthcare")])
  ]

  /** Two universities, `berkeley` and `hpi`, with distinct ids. */
  lemma UniversityIds()
    ensures |Universities| == 2
    ensures Universities[0].id == "berkeley" && Universities[1].id == "hpi"
    ensures forall i, j :: 0 <= i < j < |Universities| ==> Universities[i].id != Universities[j].id
  {
  }

  /** `berkeley` offers only `cs`, `hpi` only `dh`. */
  lemma MajorsPerUniversity()
    ensures |Universities[0].majors| == 1 && Universities[0].majors[0].id == "cs"
    ensures |Universities[1].majors| == 1 && Universities[1].majors[0].id == "dh"
  {
  }

  /** The catalogue's major names are the names the backend derives from major ids. */
  lemma MajorNamesAgreeWithBackend()
    ensures forall u, m :: u in Universities && m in u.majors ==> Api.MajorIdToName(m.id) == m.name
  {
    forall u, m | u in Universities && m in u.majors
      ensures Api.MajorIdToName(m.id) == m.name
    {
      assert u == Universities[0] || u == Universities[1];
    }
  }

  /** Distinct catalogue pairs get distinct assistant cache keys. */
  lemma AssistantKeysDistinct(u1: University, m1: Major, u2: University, m2: Major)
    requires u1 in Universities && m1 in u1.majors
    requires u2 in Universities && m2 in u2.majors
    requires (u1.id, m1.id) != (u2.id, m2.id)
    ensures AssistantService.AssistantKey(u1.id, m1.id) != AssistantService.AssistantKey(u2.id, m2.id)
  {
    assert u1 == Universities[0] || u1 == Universities[1];
    assert u2 == Universities[0] || u2 == Universities[1];
    assert '_' !in u1.id && '_' !in u2.id;
    if AssistantService.AssistantKey(u1.id, m1.id) == AssistantService.AssistantKey(u2.id, m2.id) {
      AssistantService.AssistantKeyInjective(u1.id, m1.id, u2.id, m2.id);
    }
  }
}
