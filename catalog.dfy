/** The static query catalog (`query_descriptions`) and the introspection answer built from it
    (`get_query_descriptions`). */
module Catalog {
  import opened Backend
  import Tools

  /** A formal parameter as the catalog lists it: its name and, for an optional one, a note. */
  datatype ParamDescriptor = ParamDescriptor(name: string, note: string)

  /** The text the catalog shows for the parameter, such as "max_hops (optional)". */
  function ParamText(p: ParamDescriptor): string {
    if p.note == "" then p.name else p.name + " (" + p.note + ")"
  }

  datatype QueryDescriptor = QueryDescriptor(
    name: string,
    description: string,
    parameters: seq<ParamDescriptor>,
    exampleQuestions: seq<string>)

  function ParamTexts(d: QueryDescriptor): seq<string> {
    seq(|d.parameters|, i requires 0 <= i < |d.parameters| => ParamText(d.parameters[i]))
  }

  function ParamNames(d: QueryDescriptor): set<string> {
    set p | p in d.parameters :: p.name
  }

  const PersonInfoQuery: QueryDescriptor := QueryDescriptor(
    "GetPersonInfo",
    "Get detailed information about a specific person including their job, company, and location",
    [ParamDescriptor("person_id", "")],
    ["Tell me about person_001",
     "What information do you have on John Smith?",
     "Show me details for person_005"])

  const ConnectionsQuery: QueryDescriptor := QueryDescriptor(
    "FindConnections",
    "Find how two people are connected through friendships or work relationships",
    [ParamDescriptor("source_person", ""), ParamDescriptor("target_person", ""), ParamDescriptor("max_hops", "optional")],
    ["How is person_001 connected to person_003?",
     "Find the connection between John and Sarah",
     "What's the relationship path between person_002 and person_008?"])

  const EmployeesQuery: QueryDescriptor := QueryDescriptor(
    "GetCompanyEmployees",
    "Get all employees working at a specific company, optionally filtered by department",
    [ParamDescriptor("company_name", ""), ParamDescriptor("department", "optional")],
    ["Who works at TechCorp?",
     "Show me all employees at DataSystems",
     "List engineering department employees at CloudVentures"])

  const InfluencersQuery: QueryDescriptor := QueryDescriptor(
    "FindTopInfluencers",
    "Find the most influential people in the network based on connections and followers",
    [ParamDescriptor("limit_count", "optional, default 10")],
    ["Who are the top influencers?",
     "Show me the 5 most connected people",
     "Find the most influential people in the network"])

  const AnalyticsQuery: QueryDescriptor := QueryDescriptor(
    "GetNetworkAnalytics",
    "Get overall statistics and analytics about the social network",
    [],
    ["What are the network statistics?",
     "Give me an overview of the social network",
     "Show me network analytics"])

  /** The five installed domain queries, in the catalog's order. */
  const Queries: seq<QueryDescriptor> :=
    [PersonInfoQuery, ConnectionsQuery, EmployeesQuery, InfluencersQuery, AnalyticsQuery]

  datatype SampleData = SampleData(people: seq<string>, companies: seq<string>)

  const Samples: SampleData := SampleData(
    ["person_001 (John Smith)", "person_002 (Sarah Johnson)", "person_003 (Mike Brown)"],
    ["TechCorp", "DataSystems", "CloudVentures", "StartupX", "FinanceHub"])

  datatype Introspection = Introspection(queries: seq<QueryDescriptor>, sampleData: SampleData)

  /** `get_query_descriptions()`: the catalog and the sample hints; it takes no backend, so the
      answer does not depend on the graph engine's state. */
  function GetQueryDescriptions(): (r: Introspection)
    ensures |r.queries| == 5 && forall i :: 0 <= i < 5 ==> r.queries[i].exampleQuestions != []
    ensures |r.sampleData.people| == 3 && |r.sampleData.companies| == 5
  {
    Introspection(Queries, Samples)
  }

  /** The catalog lists the five installed queries the tools run, once each, in the order of the
      tools. */
  lemma CatalogListsEachQueryOnce(personId: string, source: string, target: string, maxHops: int,
                                  company: string, department: string, limitCount: int)
    ensures |GetQueryDescriptions().queries| == 5
    ensures forall i, j :: 0 <= i < j < |Queries| ==> Queries[i].name != Queries[j].name
    ensures Queries[0].name == Tools.PersonInfoRequest(personId).query
    ensures Queries[1].name == Tools.ConnectionsRequest(source, target, maxHops).query
    ensures Queries[2].name == Tools.EmployeesRequest(company, department).query
    ensures Queries[3].name == Tools.InfluencersRequest(limitCount).query
    ensures Queries[4].name == Tools.AnalyticsRequest().query
  {
  }

  /** Each entry's parameter names are exactly the keys of the parameter map its tool sends. */
  lemma CatalogParametersMatchRequests(personId: string, source: string, target: string, maxHops: int,
                                       company: string, department: string, limitCount: int)
    ensures ParamNames(PersonInfoQuery) == Tools.PersonInfoRequest(personId).params.Keys
    ensures ParamNames(ConnectionsQuery) == Tools.ConnectionsRequest(source, target, maxHops).params.Keys
    ensures ParamNames(EmployeesQuery) == Tools.EmployeesRequest(company, department).params.Keys
    ensures ParamNames(InfluencersQuery) == Tools.InfluencersRequest(limitCount).params.Keys
    ensures ParamNames(AnalyticsQuery) == Tools.AnalyticsRequest().params.Keys
  {
    PersonInfoParameters(personId);
    ConnectionsParameters(source, target, maxHops);
    EmployeesParameters(company, department);
    InfluencersParameters(limitCount);
    AnalyticsParameters();
  }

  lemma PersonInfoParameters(personId: string)
    ensures ParamNames(PersonInfoQuery) == Tools.PersonInfoRequest(personId).params.Keys
  {
    assert PersonInfoQuery.parameters == [ParamDescriptor("person_id", "")];
  }

  lemma ConnectionsParameters(source: string, target: string, maxHops: int)
    ensures ParamNames(ConnectionsQuery) == Tools.ConnectionsRequest(source, target, maxHops).params.Keys
  {
    assert ParamNames(ConnectionsQuery) == {"source_person", "target_person", "max_hops"};
  }

  lemma EmployeesParameters(company: string, department: string)
    ensures ParamNames(EmployeesQuery) == Tools.EmployeesRequest(company, department).params.Keys
  {
    assert ParamNames(EmployeesQuery) == {"company_name", "department"};
  }

  lemma InfluencersParameters(limitCount: int)
    ensures ParamNames(InfluencersQuery) == Tools.InfluencersRequest(limitCount).params.Keys
  {
    assert InfluencersQuery.parameters == [ParamDescriptor("limit_count", "optional, default 10")];
  }

  lemma AnalyticsParameters()
    ensures ParamNames(AnalyticsQuery) == Tools.AnalyticsRequest().params.Keys
  {
    assert ParamNames(AnalyticsQuery) == {};
  }

  /** The parameter lists read as the catalog prints them. */
  lemma CatalogParameterTexts()
    ensures ParamTexts(PersonInfoQuery) == ["person_id"]
    ensures ParamTexts(ConnectionsQuery) == ["source_person", "target_person", "max_hops (optional)"]
    ensures ParamTexts(EmployeesQuery) == ["company_name", "department (optional)"]
    ensures ParamTexts(InfluencersQuery) == ["limit_count (optional, default 10)"]
    ensures ParamTexts(AnalyticsQuery) == []
  {
    ConnectionsTexts();
    EmployeesTexts();
    InfluencersTexts();
  }

  lemma ConnectionsTexts()
    ensures ParamTexts(ConnectionsQuery) == ["source_person", "target_person", "max_hops (optional)"]
  {
    assert ParamText(ParamDescriptor("max_hops", "optional")) == "max_hops (optional)";
  }

  lemma EmployeesTexts()
    ensures ParamTexts(EmployeesQuery) == ["company_name", "department (optional)"]
  {
    assert ParamText(ParamDescriptor("department", "optional")) == "department (optional)";
  }

  lemma InfluencersTexts()
    ensures ParamTexts(InfluencersQuery) == ["limit_count (optional, default 10)"]
  {
    assert ParamText(ParamDescriptor("limit_count", "optional, default 10")) == "limit_count (optional, default 10)";
  }
}
