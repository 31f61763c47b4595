/** The tool registry: the seven tools under the names the agent calls them by, and the
    dispatch of one tool call to its tool. */
module Registry {
  import opened Wrappers
  import opened Backend
  import opened Envelopes
  import Tools
  import Listings

  /** A tool invocation as the agent issues it; None stands for an omitted optional argument. */
  datatype ToolCall =
    | GetPersonInfoCall(personId: string)
    | FindConnectionsCall(source: string, target: string, maxHops: Option<int>)
    | GetCompanyEmployeesCall(company: string, department: Option<string>)
    | FindTopInfluencersCall(limitCount: Option<int>)
    | GetNetworkAnalyticsCall
    | ListAvailablePeopleCall
    | ListAvailableCompaniesCall

  function CallOperation(call: ToolCall): Operation {
    match call
    case GetPersonInfoCall(_) => PersonInfo
    case FindConnectionsCall(_, _, _) => Connections
    case GetCompanyEmployeesCall(_, _) => CompanyEmployees
    case FindTopInfluencersCall(_) => TopInfluencers
    case GetNetworkAnalyticsCall => NetworkAnalytics
    case ListAvailablePeopleCall => PeopleListing
    case ListAvailableCompaniesCall => CompanyListing
  }

  /** The name a tool is registered under. */
  function ToolName(op: Operation): string {
    match op
    case PersonInfo => "get_person_info"
    case Connections => "find_connections"
    case CompanyEmployees => "get_company_employees"
    case TopInfluencers => "find_top_influencers"
    case NetworkAnalytics => "get_network_analytics"
    case PeopleListing => "list_available_people"
    case CompanyListing => "list_available_companies"
  }

  /** The registered tools, in registration order. */
  const Registered: seq<Operation> :=
    [PersonInfo, Connections, CompanyEmployees, TopInfluencers, NetworkAnalytics, PeopleListing, CompanyListing]

  /** Runs one tool call against the graph engine's two entry points. Every call yields exactly
      one envelope of the called tool's shape, and only the three lookups ever report not_found. */
  function Invoke(call: ToolCall, queries: QueryBackend, getVertices: VertexBackend): (r: Envelope)
    ensures Shaped(CallOperation(call), r)
    ensures r.status == NotFound ==> CallOperation(call) in {PersonInfo, Connections, CompanyEmployees}
  {
    match call
    case GetPersonInfoCall(id) => Tools.GetPersonInfo(queries, id)
    case FindConnectionsCall(s, t, h) => Tools.FindConnections(queries, s, t, h)
    case GetCompanyEmployeesCall(c, d) => Tools.GetCompanyEmployees(queries, c, d)
    case FindTopInfluencersCall(k) => Tools.FindTopInfluencers(queries, k)
    case GetNetworkAnalyticsCall => Tools.GetNetworkAnalytics(queries)
    case ListAvailablePeopleCall => Listings.ListPeople(getVertices("Person"))
    case ListAvailableCompaniesCall => Listings.ListCompanies(getVertices("Company"))
  }

  /** Every operation is registered exactly once, under a name no other tool shares. */
  lemma RegistryComplete(op1: Operation, op2: Operation)
    ensures op1 in Registered
    ensures |Registered| == 7 && forall i, j :: 0 <= i < j < |Registered| ==> Registered[i] != Registered[j]
    ensures op1 != op2 ==> ToolName(op1) != ToolName(op2)
  {
  }
}
