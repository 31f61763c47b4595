/** The two listing tools: `list_available_people` and `list_available_companies` scan every
    vertex of a type and build one entry per vertex with a loop. Each is a method with the loop,
    specified by a function that builds the same list recursively. */
module Listings {
  import opened Wrappers
  import opened Json
  import opened Backend
  import opened Envelopes

  /** The entry the people loop appends for one vertex. */
  function PersonEntryOf(v: Vertex): PersonEntry {
    PersonEntry(
      v.0,
      Get(v.1, "first_name", JStr("")),
      Get(v.1, "last_name", JStr("")),
      Get(v.1, "job_title", JStr("")),
      Get(v.1, "age", JInt(0)))
  }

  /** The entry the companies loop appends for one vertex. */
  function CompanyEntryOf(v: Vertex): CompanyEntry {
    CompanyEntry(v.0, Get(v.1, "name", JStr("")), Get(v.1, "industry", JStr("")), Get(v.1, "size", JStr("")))
  }

  /** A person entry carries the vertex id, and each attribute is the vertex's own value under its key, or the default
      the loop passes to `get` when the vertex has no such attribute. */
  lemma PersonEntryReadsVertex(v: Vertex)
    ensures var e := PersonEntryOf(v);
            && e.id == v.0
            && (HasKey(v.1, "first_name") ==> ("first_name", e.firstName) in v.1)
            && (!HasKey(v.1, "first_name") ==> e.firstName == JStr(""))
            && (HasKey(v.1, "last_name") ==> ("last_name", e.lastName) in v.1)
            && (!HasKey(v.1, "last_name") ==> e.lastName == JStr(""))
            && (HasKey(v.1, "job_title") ==> ("job_title", e.jobTitle) in v.1)
            && (!HasKey(v.1, "job_title") ==> e.jobTitle == JStr(""))
            && (HasKey(v.1, "age") ==> ("age", e.age) in v.1)
            && (!HasKey(v.1, "age") ==> e.age == JInt(0))
  {
  }

  /** A company entry carries the vertex id, and each attribute is the vertex's own value under
      its key, or "". */
  lemma CompanyEntryReadsVertex(v: Vertex)
    ensures var e := CompanyEntryOf(v);
            && e.id == v.0
            && (HasKey(v.1, "name") ==> ("name", e.name) in v.1)
            && (!HasKey(v.1, "name") ==> e.name == JStr(""))
            && (HasKey(v.1, "industry") ==> ("industry", e.industry) in v.1)
            && (!HasKey(v.1, "industry") ==> e.industry == JStr(""))
            && (HasKey(v.1, "size") ==> ("size", e.size) in v.1)
            && (!HasKey(v.1, "size") ==> e.size == JStr(""))
  {
  }

  /** The people list after the loop has visited `vs`. */
  function PeopleEntries(vs: seq<Vertex>): seq<PersonEntry> {
    if vs == [] then [] else PeopleEntries(vs[..|vs| - 1]) + [PersonEntryOf(vs[|vs| - 1])]
  }

  /** The companies list after the loop has visited `vs`. */
  function CompanyEntries(vs: seq<Vertex>): seq<CompanyEntry> {
    if vs == [] then [] else CompanyEntries(vs[..|vs| - 1]) + [CompanyEntryOf(vs[|vs| - 1])]
  }

  /** The envelope of `list_available_people` for a listing response. */
  function ListPeople(response: VertexResponse): (r: Envelope)
    ensures Shaped(PeopleListing, r)
    ensures r.status != NotFound
  {
    match response
    case ListingFailed(d) => Failure(PeopleListing, BackendFault(d))
    case Vertices(vs) =>
      var people := PeopleEntries(vs);
      Envelope(Success, Some(PeopleList(people)), Some(|people|), FoundPeople(|people|))
  }

  /** The envelope of `list_available_companies` for a listing response. */
  function ListCompanies(response: VertexResponse): (r: Envelope)
    ensures Shaped(CompanyListing, r)
    ensures r.status != NotFound
  {
    match response
    case ListingFailed(d) => Failure(CompanyListing, BackendFault(d))
    case Vertices(vs) =>
      var companies := CompanyEntries(vs);
      Envelope(Success, Some(CompanyList(companies)), Some(|companies|), FoundCompanies(|companies|))
  }

  /** `list_available_people()` */
  method ListAvailablePeople(getVertices: VertexBackend) returns (r: Envelope)
    ensures r == ListPeople(getVertices("Person"))
  {
    var response := getVertices("Person");
    match response {
      case ListingFailed(d) =>
        r := Failure(PeopleListing, BackendFault(d));
      case Vertices(vs) =>
        var people := CollectPeople(vs);
        r := Envelope(Success, Some(PeopleList(people)), Some(|people|), FoundPeople(|people|));
    }
  }

  /** The loop of `list_available_people`: one entry per vertex, appended in order. */
  method CollectPeople(vs: seq<Vertex>) returns (people: seq<PersonEntry>)
    ensures people == PeopleEntries(vs)
  {
    people := [];
    var i := 0;
    while i < |vs|
      invariant 0 <= i <= |vs|
      invariant people == PeopleEntries(vs[..i])
    {
      var (personId, personData) := vs[i];
      people := people + [PersonEntry(
        personId,
        Get(personData, "first_name", JStr("")),
        Get(personData, "last_name", JStr("")),
        Get(personData, "job_title", JStr("")),
        Get(personData, "age", JInt(0)))];
      assert vs[..i + 1][..i] == vs[..i];
      i := i + 1;
    }
    assert vs[..i] == vs;
  }

  /** `list_available_companies()` */
  method ListAvailableCompanies(getVertices: VertexBackend) returns (r: Envelope)
    ensures r == ListCompanies(getVertices("Company"))
  {
    var response := getVertices("Company");
    match response {
      case ListingFailed(d) =>
        r := Failure(CompanyListing, BackendFault(d));
      case Vertices(vs) =>
        var companies := CollectCompanies(vs);
        r := Envelope(Success, Some(CompanyList(companies)), Some(|companies|), FoundCompanies(|companies|));
    }
  }

  /** The loop of `list_available_companies`: one entry per vertex, appended in order. */
  method CollectCompanies(vs: seq<Vertex>) returns (companies: seq<CompanyEntry>)
    ensures companies == CompanyEntries(vs)
  {
    companies := [];
    var i := 0;
    while i < |vs|
      invariant 0 <= i <= |vs|
      invariant companies == CompanyEntries(vs[..i])
    {
      var (companyId, companyData) := vs[i];
      companies := companies + [CompanyEntry(
        companyId,
        Get(companyData, "name", JStr("")),
        Get(companyData, "industry", JStr("")),
        Get(companyData, "size", JStr("")))];
      assert vs[..i + 1][..i] == vs[..i];
      i := i + 1;
    }
    assert vs[..i] == vs;
  }

  lemma {:induction false} PeopleEntriesPointwise(vs: seq<Vertex>)
    ensures |PeopleEntries(vs)| == |vs|
    ensures forall i :: 0 <= i < |vs| ==> PeopleEntries(vs)[i] == PersonEntryOf(vs[i])
  {
    if vs != [] {
      var init := vs[..|vs| - 1];
      PeopleEntriesPointwise(init);
      assert PeopleEntries(vs) == PeopleEntries(init) + [PersonEntryOf(vs[|vs| - 1])];
      forall i | 0 <= i < |vs| ensures PeopleEntries(vs)[i] == PersonEntryOf(vs[i]) {
        if i < |vs| - 1 {
          assert vs[i] == init[i];
        }
      }
    }
  }

  lemma {:induction false} CompanyEntriesPointwise(vs: seq<Vertex>)
    ensures |CompanyEntries(vs)| == |vs|
    ensures forall i :: 0 <= i < |vs| ==> CompanyEntries(vs)[i] == CompanyEntryOf(vs[i])
  {
    if vs != [] {
      var init := vs[..|vs| - 1];
      CompanyEntriesPointwise(init);
      assert CompanyEntries(vs) == CompanyEntries(init) + [CompanyEntryOf(vs[|vs| - 1])];
      forall i | 0 <= i < |vs| ensures CompanyEntries(vs)[i] == CompanyEntryOf(vs[i]) {
        if i < |vs| - 1 {
          assert vs[i] == init[i];
        }
      }
    }
  }

  /** A successful people listing has one entry per vertex, in the order of the listing: the
      vertex id, the first and last name (shown joined by a space), the job title and the age,
      where a missing attribute reads as "" (0 for the age); `count` is the number of vertices. */
  lemma PeopleListed(vs: seq<Vertex>)
    ensures var r := ListPeople(Vertices(vs));
            && r.status == Success && r.count == Some(|vs|) && r.message == FoundPeople(|vs|)
            && r.payload.Some? && r.payload.value.PeopleList? && |r.payload.value.people| == |vs|
            && forall i :: 0 <= i < |vs| ==>
                 var e := r.payload.value.people[i];
                 && e.id == vs[i].0
                 && (HasKey(vs[i].1, "first_name") ==> ("first_name", e.firstName) in vs[i].1)
                 && (!HasKey(vs[i].1, "first_name") ==> e.firstName == JStr(""))
                 && (HasKey(vs[i].1, "last_name") ==> ("last_name", e.lastName) in vs[i].1)
                 && (!HasKey(vs[i].1, "last_name") ==> e.lastName == JStr(""))
                 && (HasKey(vs[i].1, "job_title") ==> ("job_title", e.jobTitle) in vs[i].1)
                 && (!HasKey(vs[i].1, "job_title") ==> e.jobTitle == JStr(""))
                 && (HasKey(vs[i].1, "age") ==> ("age", e.age) in vs[i].1)
                 && (!HasKey(vs[i].1, "age") ==> e.age == JInt(0))
  {
    PeopleEntriesPointwise(vs);
  }

  /** A successful company listing has one entry per vertex, in order: the vertex id, and the
      name, industry and size, where a missing attribute reads as ""; `count` is the number of
      vertices. */
  lemma CompaniesListed(vs: seq<Vertex>)
    ensures var r := ListCompanies(Vertices(vs));
            && r.status == Success && r.count == Some(|vs|) && r.message == FoundCompanies(|vs|)
            && r.payload.Some? && r.payload.value.CompanyList? && |r.payload.value.companies| == |vs|
            && forall i :: 0 <= i < |vs| ==>
                 var e := r.payload.value.companies[i];
                 && e.id == vs[i].0
                 && (HasKey(vs[i].1, "name") ==> ("name", e.name) in vs[i].1)
                 && (!HasKey(vs[i].1, "name") ==> e.name == JStr(""))
                 && (HasKey(vs[i].1, "industry") ==> ("industry", e.industry) in vs[i].1)
                 && (!HasKey(vs[i].1, "industry") ==> e.industry == JStr(""))
                 && (HasKey(vs[i].1, "size") ==> ("size", e.size) in vs[i].1)
                 && (!HasKey(vs[i].1, "size") ==> e.size == JStr(""))
  {
    CompanyEntriesPointwise(vs);
  }

  /** A failed listing call gives the error envelope of the operation. */
  lemma ListingFailureIsError(d: string)
    ensures ListPeople(ListingFailed(d)) == Failure(PeopleListing, BackendFault(d))
    ensures ListCompanies(ListingFailed(d)) == Failure(CompanyListing, BackendFault(d))
  {
  }
}
