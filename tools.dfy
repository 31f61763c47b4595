/** The five query-backed tools of the registry: each sends one installed-query request and
    classifies the response into an envelope. */
module Tools {
  import opened Wrappers
  import opened Json
  import opened Backend
  import opened Envelopes

  /** The default arguments of the tools. */
  const DefaultMaxHops: int := 3
  const DefaultDepartment: string := ""
  const DefaultLimitCount: int := 10

  /** The list a tool takes from the response, or the exception taking it raises. */
  datatype Extraction = Extracted(items: seq<Json>) | Raised(fault: Fault)

  /** `result[0][key] if result else []` inside the tool's `try`: a failed call raises, an empty
      response gives the empty list, and a first block without the key raises KeyError. */
  function Aggregate(response: QueryResponse, key: string): (r: Extraction)
    ensures response.QueryFailed? ==> r == Raised(BackendFault(response.description))
    ensures response.QueryResult? && response.blocks == [] ==> r == Extracted([])
    ensures response.QueryResult? && response.blocks != [] ==>
              (r.Extracted? <==> key in response.blocks[0])
              && (r.Extracted? ==> r.items == response.blocks[0][key])
              && (r.Raised? ==> r.fault == KeyFault(key))
  {
    match response
    case QueryFailed(d) => Raised(BackendFault(d))
    case QueryResult(blocks) =>
      if blocks == [] then Extracted([])
      else if key in blocks[0] then Extracted(blocks[0][key])
      else Raised(KeyFault(key))
  }

  /** The outcome of `v[key]` for a string key. */
  datatype Access = Value(value: Json) | Fails(fault: Fault)

  /** `v[key]`: a dict gives its entry or raises KeyError; any other value raises TypeError. */
  function Subscript(v: Json, key: string): (r: Access)
    ensures r.Value? <==> v.JObject? && HasKey(v.fields, key)
    ensures r.Value? ==> (key, r.value) in v.fields
    ensures v.JObject? && !HasKey(v.fields, key) ==> r == Fails(KeyFault(key))
  {
    match v
    case JObject(fields) =>
      (match Lookup(fields, key)
       case Some(x) => Value(x)
       case None => Fails(KeyFault(key)))
    case JList(_) => Fails(TypeFault("list indices must be integers or slices, not str"))
    case JStr(_) => Fails(TypeFault("string indices must be integers, not 'str'"))
    case _ => Fails(TypeFault("'" + TypeName(v) + "' object is not subscriptable"))
  }

  /** A record the person message can be formatted from: a dict with both name keys. */
  predicate NamedRecord(v: Json) {
    v.JObject? && HasKey(v.fields, "first_name") && HasKey(v.fields, "last_name")
  }

  // ---- get_person_info ----

  function PersonInfoRequest(personId: string): (r: QueryRequest)
    ensures r.query == "GetPersonInfo" && r.params.Keys == {"person_id"}
    ensures r.params["person_id"] == PStr(personId)
  {
    QueryRequest("GetPersonInfo", map["person_id" := PStr(personId)])
  }

  /** `get_person_info(person_id)` */
  function GetPersonInfo(backend: QueryBackend, personId: string): (r: Envelope)
    ensures Shaped(PersonInfo, r)
  {
    match Aggregate(backend(PersonInfoRequest(personId)), "@@result")
    case Raised(f) => Failure(PersonInfo, f)
    case Extracted(records) =>
      if |records| > 0 then
        var person := records[0];
        match Subscript(person, "first_name")
        case Fails(f) => Failure(PersonInfo, f)
        case Value(first) =>
          match Subscript(person, "last_name")
          case Fails(f) => Failure(PersonInfo, f)
          case Value(last) => Envelope(Success, Some(Person(person)), None, FoundPerson(first, last))
      else
        Envelope(NotFound, None, None, NoPerson(personId))
  }

  /** `get_person_info` succeeds exactly when the first block's `@@result` list is non-empty and
      its first record carries both names; the payload is that record and the message names the
      person. It reports not_found, naming the id, exactly when there is no block or the list is
      empty; every other response is an error. */
  lemma PersonInfoClassified(backend: QueryBackend, personId: string)
    ensures var resp := backend(PersonInfoRequest(personId));
            var r := GetPersonInfo(backend, personId);
            && (r.status == Success <==>
                  resp.QueryResult? && resp.blocks != [] && "@@result" in resp.blocks[0]
                  && resp.blocks[0]["@@result"] != [] && NamedRecord(resp.blocks[0]["@@result"][0]))
            && (r.status == Success ==>
                  var person := resp.blocks[0]["@@result"][0];
                  && r.payload == Some(Person(person))
                  && ("first_name", r.message.firstName) in person.fields
                  && ("last_name", r.message.lastName) in person.fields)
            && (r.status == NotFound <==>
                  resp.QueryResult? && (resp.blocks == [] || ("@@result" in resp.blocks[0] && resp.blocks[0]["@@result"] == [])))
            && (r.status == NotFound ==> r.message == NoPerson(personId))
  {
  }

  /** A first record that lacks a name key makes the formatting raise KeyError, so the tool
      reports an error rather than success. */
  lemma PersonWithoutNameIsError(backend: QueryBackend, personId: string, key: string)
    requires var resp := backend(PersonInfoRequest(personId));
             && resp.QueryResult? && resp.blocks != [] && "@@result" in resp.blocks[0]
             && resp.blocks[0]["@@result"] != [] && resp.blocks[0]["@@result"][0].JObject?
    requires var fields := backend(PersonInfoRequest(personId)).blocks[0]["@@result"][0].fields;
             (key == "first_name" && !HasKey(fields, key))
             || (key == "last_name" && HasKey(fields, "first_name") && !HasKey(fields, key))
    ensures GetPersonInfo(backend, personId) == Failure(PersonInfo, KeyFault(key))
  {
  }

  /** A first record whose names are strings: the tool succeeds and the message names the
      person, whatever else the record, the list or the response holds. */
  lemma PersonInfoNamesPerson(backend: QueryBackend, personId: string, first: string, last: string)
    requires var resp := backend(PersonInfoRequest(personId));
             && resp.QueryResult? && resp.blocks != [] && "@@result" in resp.blocks[0]
             && resp.blocks[0]["@@result"] != [] && resp.blocks[0]["@@result"][0].JObject?
             && Lookup(resp.blocks[0]["@@result"][0].fields, "first_name") == Some(JStr(first))
             && Lookup(resp.blocks[0]["@@result"][0].fields, "last_name") == Some(JStr(last))
    ensures GetPersonInfo(backend, personId).status == Success
    ensures Render(GetPersonInfo(backend, personId).message) == "Found information for " + first + " " + last
  {
    var resp := backend(PersonInfoRequest(personId));
    var person := resp.blocks[0]["@@result"][0];
    assert Aggregate(resp, "@@result") == Extracted(resp.blocks[0]["@@result"]);
    assert Subscript(person, "first_name") == Value(JStr(first));
    assert Subscript(person, "last_name") == Value(JStr(last));
    assert GetPersonInfo(backend, personId).message == FoundPerson(JStr(first), JStr(last));
  }

  // ---- find_connections ----

  function ConnectionsRequest(source: string, target: string, maxHops: int): (r: QueryRequest)
    ensures r.query == "FindConnections" && r.params.Keys == {"source_person", "target_person", "max_hops"}
    ensures r.params["source_person"] == PStr(source) && r.params["target_person"] == PStr(target)
    ensures r.params["max_hops"] == PInt(maxHops)
  {
    QueryRequest("FindConnections",
      map["source_person" := PStr(source), "target_person" := PStr(target), "max_hops" := PInt(maxHops)])
  }

  /** `find_connections(source_person, target_person, max_hops=3)`; None stands for an omitted argument. */
  function FindConnections(backend: QueryBackend, source: string, target: string, maxHops: Option<int>): (r: Envelope)
    ensures Shaped(Connections, r)
  {
    var hops := maxHops.GetOr(DefaultMaxHops);
    match Aggregate(backend(ConnectionsRequest(source, target, hops)), "@@paths")
    case Raised(f) => Failure(Connections, f)
    case Extracted(paths) =>
      if |paths| > 0 then
        Envelope(Success, Some(Paths(paths)), None, FoundConnections(|paths|, source, target))
      else
        Envelope(NotFound, None, None, NoConnections(source, target, hops))
  }

  /** When the call returns and the key lookup does not raise, an empty response counts as an
      empty list: the tool succeeds exactly when the list is non-empty, with the paths as payload
      and their number in the message, and otherwise reports not_found with the hop bound. */
  lemma ConnectionsClassified(backend: QueryBackend, source: string, target: string, maxHops: Option<int>)
    requires var resp := backend(ConnectionsRequest(source, target, maxHops.GetOr(DefaultMaxHops)));
             resp.QueryResult? && (resp.blocks == [] || "@@paths" in resp.blocks[0])
    ensures var resp := backend(ConnectionsRequest(source, target, maxHops.GetOr(DefaultMaxHops)));
            var paths := if resp.blocks == [] then [] else resp.blocks[0]["@@paths"];
            var r := FindConnections(backend, source, target, maxHops);
            && (r.status == Success <==> paths != [])
            && (r.status != Success ==> r.status == NotFound && r.message == NoConnections(source, target, maxHops.GetOr(DefaultMaxHops)))
            && (r.status == Success ==> r.payload == Some(Paths(paths)) && r.message == FoundConnections(|paths|, source, target))
  {
  }

  /** Omitting max_hops is the same as passing 3, and the hop bound reaches the query unchanged. */
  lemma ConnectionsDefault(backend: QueryBackend, source: string, target: string, maxHops: int)
    ensures FindConnections(backend, source, target, None) == FindConnections(backend, source, target, Some(DefaultMaxHops))
    ensures ConnectionsRequest(source, target, maxHops).params["max_hops"] == PInt(maxHops)
    ensures ConnectionsRequest(source, target, maxHops).params["source_person"] == PStr(source)
    ensures ConnectionsRequest(source, target, maxHops).params["target_person"] == PStr(target)
  {
  }

  // ---- get_company_employees ----

  function EmployeesRequest(company: string, department: string): (r: QueryRequest)
    ensures r.query == "GetCompanyEmployees" && r.params.Keys == {"company_name", "department"}
    ensures r.params["company_name"] == PStr(company) && r.params["department"] == PStr(department)
  {
    QueryRequest("GetCompanyEmployees", map["company_name" := PStr(company), "department" := PStr(department)])
  }

  /** `get_company_employees(company_name, department="")` */
  function GetCompanyEmployees(backend: QueryBackend, company: string, department: Option<string>): (r: Envelope)
    ensures Shaped(CompanyEmployees, r)
  {
    var dept := department.GetOr(DefaultDepartment);
    match Aggregate(backend(EmployeesRequest(company, dept)), "@@employees")
    case Raised(f) => Failure(CompanyEmployees, f)
    case Extracted(employees) =>
      if |employees| > 0 then
        Envelope(Success, Some(EmployeeList(employees)), Some(|employees|), FoundEmployees(|employees|, company, dept))
      else
        Envelope(NotFound, None, None, NoEmployees(company, dept))
  }

  /** As for connections: success exactly when the extracted list is non-empty, with `count` its
      length; both messages carry the department, so its clause appears in either exactly when
      the department is non-empty. */
  lemma EmployeesClassified(backend: QueryBackend, company: string, department: Option<string>)
    requires var resp := backend(EmployeesRequest(company, department.GetOr(DefaultDepartment)));
             resp.QueryResult? && (resp.blocks == [] || "@@employees" in resp.blocks[0])
    ensures var dept := department.GetOr(DefaultDepartment);
            var resp := backend(EmployeesRequest(company, dept));
            var employees := if resp.blocks == [] then [] else resp.blocks[0]["@@employees"];
            var r := GetCompanyEmployees(backend, company, department);
            && (r.status == Success <==> employees != [])
            && (r.status == Success ==>
                  r.payload == Some(EmployeeList(employees)) && r.count == Some(|employees|)
                  && r.message == FoundEmployees(|employees|, company, dept))
            && (r.status != Success ==> r.status == NotFound && r.count == None && r.message == NoEmployees(company, dept))
            && (Render(r.message) == Render(r.message.(department := "")) + DepartmentClause(dept))
            && (DepartmentClause(dept) == "" <==> dept == "")
  {
    var dept := department.GetOr(DefaultDepartment);
    DepartmentClauseOnlyWhenGiven(|GetCompanyEmployees(backend, company, department).payload.GetOr(EmployeeList([])).employees|, company, dept);
  }

  /** Omitting the department is the same as passing "", which reaches the query unchanged. */
  lemma EmployeesDefault(backend: QueryBackend, company: string, department: string)
    ensures GetCompanyEmployees(backend, company, None) == GetCompanyEmployees(backend, company, Some(DefaultDepartment))
    ensures EmployeesRequest(company, department).params["department"] == PStr(department)
    ensures EmployeesRequest(company, department).params["company_name"] == PStr(company)
  {
  }

  // ---- find_top_influencers ----

  function InfluencersRequest(limitCount: int): (r: QueryRequest)
    ensures r.query == "FindTopInfluencers" && r.params.Keys == {"limit_count"}
    ensures r.params["limit_count"] == PInt(limitCount)
  {
    QueryRequest("FindTopInfluencers", map["limit_count" := PInt(limitCount)])
  }

  /** `find_top_influencers(limit_count=10)` */
  function FindTopInfluencers(backend: QueryBackend, limitCount: Option<int>): (r: Envelope)
    ensures Shaped(TopInfluencers, r)
    ensures r.status != NotFound
  {
    match Aggregate(backend(InfluencersRequest(limitCount.GetOr(DefaultLimitCount))), "@@influencers")
    case Raised(f) => Failure(TopInfluencers, f)
    case Extracted(influencers) =>
      Envelope(Success, Some(InfluencerList(influencers)), Some(|influencers|), FoundInfluencers(|influencers|))
  }

  /** Whenever the call returns and the key lookup does not raise, the tool succeeds, even with
      nothing found (count 0); the count is the backend's, so it stays within the limit only when
      the backend keeps to it. */
  lemma InfluencersAlwaysSucceed(backend: QueryBackend, limitCount: Option<int>)
    requires var resp := backend(InfluencersRequest(limitCount.GetOr(DefaultLimitCount)));
             resp.QueryResult? && (resp.blocks == [] || "@@influencers" in resp.blocks[0])
    ensures var resp := backend(InfluencersRequest(limitCount.GetOr(DefaultLimitCount)));
            var influencers := if resp.blocks == [] then [] else resp.blocks[0]["@@influencers"];
            var r := FindTopInfluencers(backend, limitCount);
            && r.status == Success
            && r.payload == Some(InfluencerList(influencers))
            && r.count == Some(|influencers|)
            && (influencers == [] ==> r.count == Some(0))
            && (|influencers| <= limitCount.GetOr(DefaultLimitCount) ==> r.count.value <= limitCount.GetOr(DefaultLimitCount))
  {
  }

  /** Omitting limit_count is the same as passing 10, which reaches the query unchanged. */
  lemma InfluencersDefault(backend: QueryBackend, limitCount: int)
    ensures FindTopInfluencers(backend, None) == FindTopInfluencers(backend, Some(DefaultLimitCount))
    ensures InfluencersRequest(limitCount).params["limit_count"] == PInt(limitCount)
  {
  }

  // ---- get_network_analytics ----

  /** The analytics query takes no parameters. */
  function AnalyticsRequest(): (r: QueryRequest)
    ensures r.query == "GetNetworkAnalytics" && r.params.Keys == {}
  {
    QueryRequest("GetNetworkAnalytics", map[])
  }

  /** `get_network_analytics()` */
  function GetNetworkAnalytics(backend: QueryBackend): (r: Envelope)
    ensures Shaped(NetworkAnalytics, r)
    ensures r.status != NotFound
  {
    match Aggregate(backend(AnalyticsRequest()), "@@metrics")
    case Raised(f) => Failure(NetworkAnalytics, f)
    case Extracted(metrics) => Envelope(Success, Some(MetricList(metrics)), None, AnalyticsRetrieved)
  }

  /** Whenever the call returns and the key lookup does not raise, the tool succeeds with the
      metrics as they came, an empty list included, and no count. */
  lemma AnalyticsAlwaysSucceed(backend: QueryBackend)
    requires var resp := backend(AnalyticsRequest());
             resp.QueryResult? && (resp.blocks == [] || "@@metrics" in resp.blocks[0])
    ensures var resp := backend(AnalyticsRequest());
            var r := GetNetworkAnalytics(backend);
            && r.status == Success
            && r.payload == Some(MetricList(if resp.blocks == [] then [] else resp.blocks[0]["@@metrics"]))
            && r.count == None
  {
  }

  // ---- failures shared by the five tools ----

  /** A failed backend call gives the error envelope with the operation's prefix and the
      failure's text, and no payload or count. */
  lemma BackendFailureIsError(backend: QueryBackend, personId: string, source: string, target: string,
                              maxHops: Option<int>, company: string, department: Option<string>, limitCount: Option<int>)
    ensures backend(PersonInfoRequest(personId)).QueryFailed? ==>
      GetPersonInfo(backend, personId) == Failure(PersonInfo, BackendFault(backend(PersonInfoRequest(personId)).description))
    ensures var q := ConnectionsRequest(source, target, maxHops.GetOr(DefaultMaxHops));
      backend(q).QueryFailed? ==>
      FindConnections(backend, source, target, maxHops) == Failure(Connections, BackendFault(backend(q).description))
    ensures var q := EmployeesRequest(company, department.GetOr(DefaultDepartment));
      backend(q).QueryFailed? ==>
      GetCompanyEmployees(backend, company, department) == Failure(CompanyEmployees, BackendFault(backend(q).description))
    ensures var q := InfluencersRequest(limitCount.GetOr(DefaultLimitCount));
      backend(q).QueryFailed? ==>
      FindTopInfluencers(backend, limitCount) == Failure(TopInfluencers, BackendFault(backend(q).description))
    ensures backend(AnalyticsRequest()).QueryFailed? ==>
      GetNetworkAnalytics(backend) == Failure(NetworkAnalytics, BackendFault(backend(AnalyticsRequest()).description))
  {
  }

  /** A first block without the tool's aggregation key raises KeyError inside the `try`, so the
      tool reports an error naming the key. */
  lemma MissingKeyIsError(backend: QueryBackend, personId: string, source: string, target: string,
                          maxHops: Option<int>, company: string, department: Option<string>, limitCount: Option<int>)
    ensures var resp := backend(PersonInfoRequest(personId));
      resp.QueryResult? && resp.blocks != [] && "@@result" !in resp.blocks[0] ==>
      GetPersonInfo(backend, personId) == Failure(PersonInfo, KeyFault("@@result"))
    ensures var resp := backend(ConnectionsRequest(source, target, maxHops.GetOr(DefaultMaxHops)));
      resp.QueryResult? && resp.blocks != [] && "@@paths" !in resp.blocks[0] ==>
      FindConnections(backend, source, target, maxHops) == Failure(Connections, KeyFault("@@paths"))
    ensures var resp := backend(EmployeesRequest(company, department.GetOr(DefaultDepartment)));
      resp.QueryResult? && resp.blocks != [] && "@@employees" !in resp.blocks[0] ==>
      GetCompanyEmployees(backend, company, department) == Failure(CompanyEmployees, KeyFault("@@employees"))
    ensures var resp := backend(InfluencersRequest(limitCount.GetOr(DefaultLimitCount)));
      resp.QueryResult? && resp.blocks != [] && "@@influencers" !in resp.blocks[0] ==>
      FindTopInfluencers(backend, limitCount) == Failure(TopInfluencers, KeyFault("@@influencers"))
    ensures var resp := backend(AnalyticsRequest());
      resp.QueryResult? && resp.blocks != [] && "@@metrics" !in resp.blocks[0] ==>
      GetNetworkAnalytics(backend) == Failure(NetworkAnalytics, KeyFault("@@metrics"))
  {
  }
}
