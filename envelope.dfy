/** The envelope every tool returns: a status tag (`success`, `not_found` or `error`), the
    tool's payload key on success, a `count` for the counting tools, and a message. The message
    is kept as a template with its arguments; Render gives the exact text the tool formats. */
module Envelopes {
  import opened Wrappers
  import opened Decimal
  import opened Json

  /** The seven tools of the registry. */
  datatype Operation =
    | PersonInfo
    | Connections
    | CompanyEmployees
    | TopInfluencers
    | NetworkAnalytics
    | PeopleListing
    | CompanyListing

  datatype Status = Success | NotFound | Error

  /** The `status` string of the encoded envelope. */
  function StatusText(s: Status): string {
    match s
    case Success => "success"
    case NotFound => "not_found"
    case Error => "error"
  }

  /** An exception raised inside a tool's `try` block. */
  datatype Fault =
    | BackendFault(description: string)  // raised by the graph client; `str(e)` is its description
    | KeyFault(key: string)              // KeyError on a missing dict key
    | TypeFault(description: string)     // TypeError on subscripting a value that is not a dict

  /** `str(e)` for the exception. */
  function FaultText(f: Fault): string {
    match f
    case BackendFault(d) => d
    case KeyFault(k) => "'" + k + "'"
    case TypeFault(d) => d
  }

  /** An entry of `list_available_people`. Like a message, its `name` is kept as the two values
      the f-string interpolates; Name gives the text. */
  datatype PersonEntry = PersonEntry(id: string, firstName: Json, lastName: Json, jobTitle: Json, age: Json)
  {
    /** `f"{first_name} {last_name}"` */
    function Name(): (r: string)
      ensures firstName.JStr? && lastName.JStr? ==> r == firstName.s + " " + lastName.s
    {
      PyStr(firstName) + " " + PyStr(lastName)
    }
  }

  /** An entry of `list_available_companies`. */
  datatype CompanyEntry = CompanyEntry(id: string, name: Json, industry: Json, size: Json)

  /** The data a successful tool hands back, under its payload key. */
  datatype Payload =
    | Person(person: Json)
    | Paths(connections: seq<Json>)
    | EmployeeList(employees: seq<Json>)
    | InfluencerList(influencers: seq<Json>)
    | MetricList(metrics: seq<Json>)
    | PeopleList(people: seq<PersonEntry>)
    | CompanyList(companies: seq<CompanyEntry>)

  function PayloadOperation(p: Payload): Operation {
    match p
    case Person(_) => PersonInfo
    case Paths(_) => Connections
    case EmployeeList(_) => CompanyEmployees
    case InfluencerList(_) => TopInfluencers
    case MetricList(_) => NetworkAnalytics
    case PeopleList(_) => PeopleListing
    case CompanyList(_) => CompanyListing
  }

  /** The key under which an operation's payload appears in the envelope. */
  function PayloadKey(op: Operation): string {
    match op
    case PersonInfo => "person"
    case Connections => "connections"
    case CompanyEmployees => "employees"
    case TopInfluencers => "influencers"
    case NetworkAnalytics => "metrics"
    case PeopleListing => "people"
    case CompanyListing => "companies"
  }

  /** `len(...)` of the payload; a single person counts as one. */
  function PayloadSize(p: Payload): nat {
    match p
    case Person(_) => 1
    case Paths(xs) => |xs|
    case EmployeeList(xs) => |xs|
    case InfluencerList(xs) => |xs|
    case MetricList(xs) => |xs|
    case PeopleList(xs) => |xs|
    case CompanyList(xs) => |xs|
  }

  /** The operations whose success envelope carries a `count` key. */
  predicate Counted(op: Operation) {
    op == CompanyEmployees || op == TopInfluencers || op == PeopleListing || op == CompanyListing
  }

  /** The message templates of the tools, with the values they interpolate. */
  datatype Message =
    | FoundPerson(firstName: Json, lastName: Json)
    | NoPerson(personId: string)
    | FoundConnections(count: nat, source: string, target: string)
    | NoConnections(source: string, target: string, maxHops: int)
    | FoundEmployees(count: nat, company: string, department: string)
    | NoEmployees(company: string, department: string)
    | FoundInfluencers(count: nat)
    | AnalyticsRetrieved
    | FoundPeople(count: nat)
    | FoundCompanies(count: nat)
    | Failed(op: Operation, fault: Fault)

  function MessageOperation(m: Message): Operation {
    match m
    case FoundPerson(_, _) => PersonInfo
    case NoPerson(_) => PersonInfo
    case FoundConnections(_, _, _) => Connections
    case NoConnections(_, _, _) => Connections
    case FoundEmployees(_, _, _) => CompanyEmployees
    case NoEmployees(_, _) => CompanyEmployees
    case FoundInfluencers(_) => TopInfluencers
    case AnalyticsRetrieved => NetworkAnalytics
    case FoundPeople(_) => PeopleListing
    case FoundCompanies(_) => CompanyListing
    case Failed(op, _) => op
  }

  /** The status each template is used with. */
  function MessageStatus(m: Message): Status {
    match m
    case NoPerson(_) => NotFound
    case NoConnections(_, _, _) => NotFound
    case NoEmployees(_, _) => NotFound
    case Failed(_, _) => Error
    case _ => Success
  }

  /** The count a template interpolates, if any. */
  function MessageCount(m: Message): Option<nat> {
    match m
    case FoundConnections(n, _, _) => Some(n)
    case FoundEmployees(n, _, _) => Some(n)
    case FoundInfluencers(n) => Some(n)
    case FoundPeople(n) => Some(n)
    case FoundCompanies(n) => Some(n)
    case _ => None
  }

  /** The operation-specific text before `str(e)` in an error message. */
  function ErrorPrefix(op: Operation): string {
    match op
    case PersonInfo => "Error retrieving person info: "
    case Connections => "Error finding connections: "
    case CompanyEmployees => "Error retrieving company employees: "
    case TopInfluencers => "Error finding top influencers: "
    case NetworkAnalytics => "Error retrieving network analytics: "
    case PeopleListing => "Error listing people: "
    case CompanyListing => "Error listing companies: "
  }

  /** `f" in {department} department" if department else ""` */
  function DepartmentClause(department: string): string {
    if department != "" then " in " + department + " department" else ""
  }

  /** The message text the tool formats. The text after a count is grouped with it, so that the
      count visibly starts right after the words before it. */
  function Render(m: Message): (r: string)
    ensures r != ""
  {
    match m
    case FoundPerson(f, l) => "Found information for " + PyStr(f) + " " + PyStr(l)
    case NoPerson(id) => "No person found with ID: " + id
    case FoundConnections(n, s, t) =>
      "Found " + (NatToString(n) + (" connection(s) between " + s + " and " + t))
    case NoConnections(s, t, h) =>
      "No connections found between " + s + " and " + t + " within " + IntToString(h) + " hops"
    case FoundEmployees(n, c, d) =>
      "Found " + (NatToString(n) + (" employee(s) at " + c + DepartmentClause(d)))
    case NoEmployees(c, d) => "No employees found at " + c + DepartmentClause(d)
    case FoundInfluencers(n) => "Found top " + (NatToString(n) + " influencer(s) in the network")
    case AnalyticsRetrieved => "Network analytics retrieved successfully"
    case FoundPeople(n) => "Found " + (NatToString(n) + " people in the database")
    case FoundCompanies(n) => "Found " + (NatToString(n) + " companies in the database")
    case Failed(op, f) => ErrorPrefix(op) + FaultText(f)
  }

  /** The text before the interpolated count of a counting template. */
  function CountPrefix(m: Message): string {
    if m.FoundInfluencers? then "Found top " else "Found "
  }

  /** A tool's result: the dict that the tool encodes with `json.dumps`. */
  datatype Envelope = Envelope(status: Status, payload: Option<Payload>, count: Option<nat>, message: Message)

  /** The keys of the encoded dict, in the order the tool writes them. */
  function Keys(e: Envelope): seq<string> {
    ["status"]
    + (if e.payload.Some? then [PayloadKey(PayloadOperation(e.payload.value))] else [])
    + (if e.count.Some? then ["count"] else [])
    + ["message"]
  }

  /** The keys an envelope of the operation must have for the given status. */
  function ExpectedKeys(op: Operation, s: Status): seq<string> {
    if s == Success then
      ["status", PayloadKey(op)] + (if Counted(op) then ["count"] else []) + ["message"]
    else
      ["status", "message"]
  }

  /** The envelope invariant: the status decides which keys are present, the payload is the
      operation's own, `count` and the count in the message are the payload's length, and the
      message template belongs to the operation and the status. */
  predicate Shaped(op: Operation, e: Envelope) {
    && (e.status == Success <==> e.payload.Some?)
    && (e.payload.Some? ==> PayloadOperation(e.payload.value) == op)
    && (e.count.Some? <==> e.status == Success && Counted(op))
    && (e.count.Some? ==> e.count.value == PayloadSize(e.payload.value))
    && MessageOperation(e.message) == op
    && MessageStatus(e.message) == e.status
    && (MessageCount(e.message).Some? ==> e.payload.Some? && MessageCount(e.message).value == PayloadSize(e.payload.value))
  }

  /** The envelope of the `except` branch. */
  function Failure(op: Operation, f: Fault): (e: Envelope)
    ensures Shaped(op, e) && e.status == Error
    ensures e.payload.None? && e.count.None? && e.message == Failed(op, f)
  {
    Envelope(Error, None, None, Failed(op, f))
  }

  /** The status alone decides which keys the encoded envelope has. */
  lemma ShapedKeys(op: Operation, e: Envelope)
    requires Shaped(op, e)
    ensures Keys(e) == ExpectedKeys(op, e.status)
    ensures e.status == Success ==> PayloadKey(op) in Keys(e)
    ensures e.status != Success ==> PayloadKey(op) !in Keys(e) && "count" !in Keys(e)
  {
  }

  /** Distinct statuses are encoded as distinct strings. */
  lemma StatusesDistinguished(s1: Status, s2: Status)
    requires s1 != s2
    ensures StatusText(s1) != StatusText(s2)
  {
  }

  /** The text of a message opens with a word its status decides: "No " for not_found,
      "Error " for an error, and "Found " for every success but the analytics one. */
  lemma LeadingWord(m: Message)
    ensures MessageStatus(m) == NotFound ==> |Render(m)| >= 3 && Render(m)[..3] == "No "
    ensures MessageStatus(m) == Error ==> |Render(m)| >= 6 && Render(m)[..6] == "Error "
    ensures MessageStatus(m) == Success && !m.AnalyticsRetrieved? ==>
              |Render(m)| >= 6 && Render(m)[..6] == "Found "
  {
    if m.Failed? {
      ErrorOpens(m.op, FaultText(m.fault), Render(m));
    } else if MessageStatus(m) == NotFound {
      NotFoundLeadingWord(m);
    } else if !m.AnalyticsRetrieved? {
      SuccessLeadingWord(m);
    }
  }

  lemma NotFoundLeadingWord(m: Message)
    requires MessageStatus(m) == NotFound
    ensures |Render(m)| >= 3 && Render(m)[..3] == "No "
  {
    match m
    case NoPerson(id) => Extends("No person found with ID: ", id, "No ");
    case NoConnections(s, t, h) =>
      var lead := "No connections found between ";
      Extends(lead, s, "No ");
      Extends(lead + s, " and ", "No ");
      Extends(lead + s + " and ", t, "No ");
      Extends(lead + s + " and " + t, " within ", "No ");
      Extends(lead + s + " and " + t + " within ", IntToString(h), "No ");
      Extends(lead + s + " and " + t + " within " + IntToString(h), " hops", "No ");
    case NoEmployees(c, d) =>
      Extends("No employees found at ", c, "No ");
      Extends("No employees found at " + c, DepartmentClause(d), "No ");
  }

  lemma SuccessLeadingWord(m: Message)
    requires MessageStatus(m) == Success && !m.AnalyticsRetrieved?
    ensures |Render(m)| >= 6 && Render(m)[..6] == "Found "
  {
    match m
    case FoundPerson(f, l) =>
      var lead := "Found information for ";
      Extends(lead, PyStr(f), "Found ");
      Extends(lead + PyStr(f), " ", "Found ");
      Extends(lead + PyStr(f) + " ", PyStr(l), "Found ");
    case FoundConnections(n, s, t) =>
      Extends("Found ", NatToString(n) + (" connection(s) between " + s + " and " + t), "Found ");
    case FoundEmployees(n, c, d) =>
      Extends("Found ", NatToString(n) + (" employee(s) at " + c + DepartmentClause(d)), "Found ");
    case FoundInfluencers(n) =>
      Extends("Found top ", NatToString(n) + " influencer(s) in the network", "Found ");
    case FoundPeople(n) => Extends("Found ", NatToString(n) + " people in the database", "Found ");
    case FoundCompanies(n) => Extends("Found ", NatToString(n) + " companies in the database", "Found ");
  }

  /** A prefix of a string is a prefix of every extension of it. */
  lemma Extends(x: string, y: string, p: string)
    requires |p| <= |x| && x[..|p|] == p
    ensures |p| <= |x + y| && (x + y)[..|p|] == p
  {
    assert (x + y)[..|p|] == x[..|p|];
  }

  lemma ErrorOpens(op: Operation, rest: string, text: string)
    requires text == ErrorPrefix(op) + rest
    ensures |text| >= 6 && text[..6] == "Error "
  {
  }

  /** Distinct operations report under distinct payload keys and distinct error prefixes. */
  lemma OperationsDistinguished(op1: Operation, op2: Operation)
    requires op1 != op2
    ensures PayloadKey(op1) != PayloadKey(op2)
    ensures ErrorPrefix(op1) != ErrorPrefix(op2)
  {
  }

  /** Every error message is non-empty, starts with its operation's prefix and ends with `str(e)`. */
  lemma ErrorMessageText(op: Operation, f: Fault)
    ensures Render(Failed(op, f)) != ""
    ensures Render(Failed(op, f))[..|ErrorPrefix(op)|] == ErrorPrefix(op)
    ensures Render(Failed(op, f))[|ErrorPrefix(op)|..] == FaultText(f)
  {
  }

  /** The count a counting message interpolates can be read back from its text, right after
      the words before it. */
  lemma CountReadable(m: Message)
    requires MessageCount(m).Some?
    ensures |CountPrefix(m)| <= |Render(m)|
    ensures Render(m)[..|CountPrefix(m)|] == CountPrefix(m)
    ensures ReadNat(Render(m)[|CountPrefix(m)|..]) == MessageCount(m)
  {
    match m
    case FoundConnections(n, s, t) => ConnectionsCountReadable(n, s, t);
    case FoundEmployees(n, c, d) => EmployeesCountReadable(n, c, d);
    case FoundInfluencers(n) => InfluencersCountReadable(n);
    case FoundPeople(n) => PeopleCountReadable(n);
    case FoundCompanies(n) => CompaniesCountReadable(n);
  }

  lemma InfluencersCountReadable(n: nat)
    ensures |"Found top "| <= |Render(FoundInfluencers(n))|
    ensures Render(FoundInfluencers(n))[..10] == "Found top "
    ensures ReadNat(Render(FoundInfluencers(n))[10..]) == Some(n)
  {
    CountAfter(Render(FoundInfluencers(n)), "Found top ", n, " influencer(s) in the network");
  }

  lemma PeopleCountReadable(n: nat)
    ensures |"Found "| <= |Render(FoundPeople(n))|
    ensures Render(FoundPeople(n))[..6] == "Found "
    ensures ReadNat(Render(FoundPeople(n))[6..]) == Some(n)
  {
    CountAfter(Render(FoundPeople(n)), "Found ", n, " people in the database");
  }

  lemma CompaniesCountReadable(n: nat)
    ensures |"Found "| <= |Render(FoundCompanies(n))|
    ensures Render(FoundCompanies(n))[..6] == "Found "
    ensures ReadNat(Render(FoundCompanies(n))[6..]) == Some(n)
  {
    CountAfter(Render(FoundCompanies(n)), "Found ", n, " companies in the database");
  }

  lemma ConnectionsCountReadable(n: nat, source: string, target: string)
    ensures |"Found "| <= |Render(FoundConnections(n, source, target))|
    ensures Render(FoundConnections(n, source, target))[..6] == "Found "
    ensures ReadNat(Render(FoundConnections(n, source, target))[6..]) == Some(n)
  {
    var rest := " connection(s) between " + source + " and " + target;
    CountAfter(Render(FoundConnections(n, source, target)), "Found ", n, rest);
  }

  lemma EmployeesCountReadable(n: nat, company: string, department: string)
    ensures |"Found "| <= |Render(FoundEmployees(n, company, department))|
    ensures Render(FoundEmployees(n, company, department))[..6] == "Found "
    ensures ReadNat(Render(FoundEmployees(n, company, department))[6..]) == Some(n)
  {
    var rest := " employee(s) at " + company + DepartmentClause(department);
    CountAfter(Render(FoundEmployees(n, company, department)), "Found ", n, rest);
  }

  lemma CountAfter(text: string, prefix: string, n: nat, rest: string)
    requires text == prefix + (NatToString(n) + rest)
    requires rest != [] && rest[0] == ' '
    ensures |prefix| <= |text| && text[..|prefix|] == prefix
    ensures ReadNat(text[|prefix|..]) == Some(n)
  {
    assert text[|prefix|..] == NatToString(n) + rest;
    ReadNatToString(n, rest);
  }

  /** The department adds its clause to both employee messages and changes nothing else; the
      clause is there exactly when a department was given. */
  lemma DepartmentClauseOnlyWhenGiven(n: nat, company: string, department: string)
    ensures Render(FoundEmployees(n, company, department)) == Render(FoundEmployees(n, company, "")) + DepartmentClause(department)
    ensures Render(NoEmployees(company, department)) == Render(NoEmployees(company, "")) + DepartmentClause(department)
    ensures DepartmentClause(department) == "" <==> department == ""
    ensures department != "" ==> DepartmentClause(department) == " in " + department + " department"
  {
    var count := NatToString(n);
    var at := " employee(s) at " + company;
    var clause := DepartmentClause(department);
    assert Render(FoundEmployees(n, company, "")) == "Found " + (count + at) by {
      assert at + DepartmentClause("") == at;
    }
    Regroup("Found ", count, at, clause);
    assert Render(NoEmployees(company, "")) == "No employees found at " + company by {
      assert DepartmentClause("") == "";
    }
  }

  lemma Regroup(a: string, b: string, c: string, d: string)
    ensures a + (b + (c + d)) == (a + (b + c)) + d
  {
    assert b + (c + d) == (b + c) + d;
  }
}
