# TigerGraph chatbot: tool layer and chat route

This project models the part of the TigerGraph social-network chatbot that sits between the LLM
agent and the graph engine. It covers the following, with the graph engine and the agent given
as function values:

- the seven tools the agent may call;
- the envelope each tool returns;
- the chat endpoint that strips the posted message and forwards it;
- the static catalog of installed queries served by `/api/queries`.

- **Tools** (`tools.dfy`, `listings.dfy`). Five tools run an installed query:
  - `get_person_info`, `find_connections`, `get_company_employees`, `find_top_influencers`,
    `get_network_analytics`.
  - Each sends one request (query name plus parameter map) to a `QueryBackend`.
  - It takes the first result block's aggregation list (`result[0][key] if result else []`).
  - It classifies that list into a `success`, `not_found` or `error` envelope.

  The two listing tools, `list_available_people` and `list_available_companies`, ask a
  `VertexBackend` for all vertices of a type. A loop then appends one entry per vertex. They are
  methods (`ListAvailablePeople`, `ListAvailableCompanies`) whose loops sit in `CollectPeople` and
  `CollectCompanies`. Each is proved equal to a recursive reference function.
- **Envelopes** (`envelope.dfy`). An envelope holds the following fields:
  - a status;
  - the tool's payload under its own key;
  - a `count` for the four counting tools;
  - a message.

  Messages are kept as templates with their arguments, and `Render` produces the exact f-string
  text. The invariant `Shaped(op, e)` says these things:
  - the status decides which keys are present;
  - the payload is the operation's own;
  - `count` and the count in the message both equal the payload's length;
  - the message template belongs to the operation and the status.

  Every tool is proved to return a `Shaped` envelope.
- **Values** (`json.dfy`, `decimal.dfy`). Python values are a `Json` datatype. A dict is an
  ordered sequence of key/value pairs. `d[k]` is `Lookup`, `d.get(k, default)` is `Get`, and
  f-string interpolation is `PyStr`. Integers are written in decimal by `NatToString`, and
  `ReadNat` reads them back, so counts can be recovered from message text.
- **Registry** (`registry.dfy`). Each tool is registered under its name, and one call is
  dispatched to its tool.
- **Chat route** (`chat.dfy`). `POST /api/chat` does the following:
  - reads `data.get('message', '')`;
  - strips it with Python's `str.strip()`, modelled on CPython's index-based scan over the 29
    characters `str.isspace()` accepts;
  - answers 400 for a blank message;
  - otherwise returns the result of `chat(stripped message)`: the agent's answer or its error
    text, with the message echoed as `query`.

  A body that is not a dict, or a message that is not a string, gives Python's AttributeError,
  and therefore a 500.
- **Catalog** (`catalog.dfy`). `query_descriptions` and `get_query_descriptions()` hold the
  five installed queries, their parameters and example questions, and the sample data hints.

Only `get_person_info`, `find_connections` and `get_company_employees` report `not_found`.
`find_top_influencers`, `get_network_analytics` and the two listing tools report `success` with
an empty list, and the counting ones report `count` 0. `InfluencersAlwaysSucceed`,
`AnalyticsAlwaysSucceed` and `Registry.Invoke` state this.

## Model

| member | source | states |
|---|---|---|
| Decimal.NatToString | app.py:181 | the decimal text of a count is non-empty, all digits, has no leading zero, and is one digit exactly for counts below 10 |
| Decimal.ValueOfNatToString | app.py:181 | reading the digits of the decimal text gives back the number |
| Decimal.IntToString | app.py:186 | `str(max_hops)` has a minus sign exactly for a negative number, followed by the digits of its magnitude, without leading zeros, which read back as the magnitude |
| Decimal.ReadNatToString | app.py:238 | the number written in a message, followed by a non-digit, is read back exactly |
| Json.Lookup | app.py:151 | `d[key]` finds a value exactly when the key is in the dict, and the value found is the key's entry |
| Json.Get | app.py:271-273 | `d.get(key, default)` gives the key's entry when present and the default otherwise |
| Json.PyStr | app.py:151 | an f-string shows a str as itself and an int in decimal |
| Envelopes.StatusesDistinguished | app.py:149-160 | the three status strings "success", "not_found" and "error" are pairwise distinct |
| Envelopes.Render | app.py:151-311 | every message the tools format is non-empty |
| Envelopes.LeadingWord | app.py:151-311 | a message opens with "No " when not_found, with "Error " on an error, and with "Found " on every success but the analytics one |
| Envelopes.Failure | app.py:158-162 | the except branch gives an error envelope with no payload and no count, whose message is the operation's error template, and which keeps the envelope invariant |
| Envelopes.ShapedKeys | app.py:148-157 | for an envelope that keeps the invariant, the status alone decides the encoded keys: status, payload key, count (counting tools only), message on success; status and message otherwise |
| Envelopes.OperationsDistinguished | app.py:142-312 | distinct tools use distinct payload keys and distinct error prefixes |
| Envelopes.ErrorMessageText | app.py:188-192 | an error message is the operation's prefix followed by exactly `str(e)` |
| Envelopes.CountReadable | app.py:212 | in every counting message, the count can be read back from the text right after "Found " ("Found top " for influencers) |
| Envelopes.DepartmentClauseOnlyWhenGiven | app.py:207-217 | both employee messages differ from their department-less form only by the department clause, which is present exactly when the department is non-empty |
| Envelopes.PersonEntry.Name | app.py:271 | the name of a people entry is the first and last name joined by one space when both are strings |
| Tools.Aggregate | app.py:175 | `result[0][key] if result else []`: a failed call raises its own exception, an empty result gives the empty list, and otherwise the first block's entry is taken exactly when the key is present, with KeyError on the key when it is not |
| Tools.PersonInfoRequest | app.py:145 | `GetPersonInfo` is run with exactly one parameter, `person_id`, set to the id given |
| Tools.ConnectionsRequest | app.py:167-174 | `FindConnections` is run with exactly `source_person`, `target_person` and `max_hops`, set to the arguments |
| Tools.EmployeesRequest | app.py:197-203 | `GetCompanyEmployees` is run with exactly `company_name` and `department`, set to the arguments |
| Tools.InfluencersRequest | app.py:228-231 | `FindTopInfluencers` is run with exactly one parameter, `limit_count`, set to the argument |
| Tools.AnalyticsRequest | app.py:249 | `GetNetworkAnalytics` is run with no parameters |
| Tools.Subscript | app.py:151 | `v[key]` succeeds exactly on a dict holding the key, returns its entry, and raises KeyError on a dict without it |
| Tools.GetPersonInfo | app.py:142-162 | `get_person_info` always returns an envelope that keeps the invariant |
| Tools.PersonInfoClassified | app.py:145-157 | success exactly when there is a first block with a non-empty `@@result` whose first record is a dict with both name keys; the payload is that record and the message carries its names; not_found, naming the id, exactly when there is no block or the list is empty |
| Tools.PersonWithoutNameIsError | app.py:151 | a first record missing `first_name` (or only `last_name`) yields the error envelope for KeyError on that key |
| Tools.PersonInfoNamesPerson | app.py:146-152 | whenever the first `@@result` record is a dict whose `first_name` and `last_name` are strings, whatever else the response holds, the tool succeeds and its message is "Found information for <first> <last>" |
| Tools.FindConnections | app.py:164-192 | `find_connections` always returns an envelope that keeps the invariant |
| Tools.ConnectionsClassified | app.py:175-187 | when the call returns and the key is present, success exactly when the path list is non-empty, with the paths as payload and their number in the message; otherwise not_found with the hop bound |
| Tools.ConnectionsDefault | app.py:164-174 | omitting max_hops equals passing 3, and all three arguments reach the query unchanged |
| Tools.GetCompanyEmployees | app.py:194-223 | `get_company_employees` always returns an envelope that keeps the invariant |
| Tools.EmployeesClassified | app.py:204-218 | success exactly when the employee list is non-empty, with payload, count equal to its length and the count message; otherwise not_found with no count; the department clause appears in either message exactly when a department was given |
| Tools.EmployeesDefault | app.py:194-203 | omitting the department equals passing "", and both arguments reach the query unchanged |
| Tools.FindTopInfluencers | app.py:225-244 | `find_top_influencers` always returns an envelope that keeps the invariant and never reports not_found |
| Tools.InfluencersAlwaysSucceed | app.py:232-239 | when the call returns and the key is present, the tool succeeds with the list as payload and its length as count, 0 included; the count stays within the limit only if the backend's list does |
| Tools.InfluencersDefault | app.py:225-231 | omitting limit_count equals passing 10, which reaches the query unchanged |
| Tools.GetNetworkAnalytics | app.py:246-261 | `get_network_analytics` always returns an envelope that keeps the invariant and never reports not_found |
| Tools.AnalyticsAlwaysSucceed | app.py:249-256 | when the call returns and the key is present, the tool succeeds with the metrics list as payload, possibly empty, and no count |
| Tools.BackendFailureIsError | app.py:158-162 | for each of the five query tools, a failed backend call gives the error envelope carrying the failure's text |
| Tools.MissingKeyIsError | app.py:175 | for each of the five query tools, a first block without its aggregation key gives the error envelope for KeyError on that key |
| Listings.ListPeople | app.py:262-286 | the people listing envelope keeps the invariant and never reports not_found |
| Listings.ListCompanies | app.py:289-312 | the company listing envelope keeps the invariant and never reports not_found |
| Listings.ListAvailablePeople | app.py:262-286 | the method with the loop returns exactly the envelope of the reference function for the "Person" listing |
| Listings.CollectPeople | app.py:267-275 | the loop builds exactly the recursive reference list of entries |
| Listings.ListAvailableCompanies | app.py:289-312 | the method with the loop returns exactly the envelope of the reference function for the "Company" listing |
| Listings.CollectCompanies | app.py:293-300 | the loop builds exactly the recursive reference list of entries |
| Listings.PersonEntryReadsVertex | app.py:270-275 | a person entry carries the vertex id, and each attribute is the vertex's own entry under its key, or "" (0 for the age) when the vertex lacks it |
| Listings.CompanyEntryReadsVertex | app.py:295-300 | a company entry carries the vertex id, and each attribute is the vertex's own entry under its key, or "" when the vertex lacks it |
| Listings.PeopleEntriesPointwise | app.py:268-274 | the reference list has one entry per vertex, the i-th built from the i-th vertex |
| Listings.CompanyEntriesPointwise | app.py:294-300 | the reference list has one entry per vertex, the i-th built from the i-th vertex |
| Listings.PeopleListed | app.py:268-281 | a successful people listing keeps the vertex order: id, first and last name, job title and age taken from each vertex, with "" (0 for age) for a missing attribute; count and message give the vertex count |
| Listings.CompaniesListed | app.py:294-307 | a successful company listing keeps the vertex order: id, name, industry and size taken from each vertex, with "" for a missing attribute; count and message give the vertex count |
| Listings.ListingFailureIsError | app.py:282-312 | a failed listing call gives the operation's error envelope |
| Registry.Invoke | app.py:314-351 | every tool call yields one envelope of the called tool's shape, and only the three lookup tools can report not_found |
| Registry.RegistryComplete | app.py:314-351 | all seven tools are registered, once each, under pairwise distinct names |
| Catalog.GetQueryDescriptions | app.py:406-414 | the introspection answer lists five queries, each with example questions, plus three sample people and five sample companies |
| Catalog.CatalogListsEachQueryOnce | app.py:43-89 | the catalog lists the five installed queries once each, named as the queries the tools run, in the tools' order |
| Catalog.CatalogParametersMatchRequests | app.py:43-89 | each catalog entry's parameter names are exactly the keys of the parameter map its tool sends |
| Catalog.CatalogParameterTexts | app.py:46-82 | the parameter lists read as printed, optional ones annotated |
| ChatRoute.SkipLeading | app.py:437 | the front scan of `strip()` stops at the first non-whitespace character, having passed only whitespace |
| ChatRoute.SkipTrailing | app.py:437 | the back scan of `strip()` stops after the last non-whitespace character, having passed only whitespace |
| ChatRoute.Strip | app.py:437 | `strip()` never lengthens its input and leaves no whitespace at either end of a non-empty result |
| ChatRoute.StripCharacterized | app.py:437 | `strip()` gives a slice of its input with only whitespace outside it and none at its ends, empty exactly when the input is all whitespace |
| ChatRoute.Chat | app.py:389-404 | `chat` echoes the message as query, succeeds exactly when the agent answers, and otherwise returns the fixed error text followed by the exception's text |
| ChatRoute.ChatEndpoint | app.py:432-451 | the HTTP code matches the body kind (200 reply, 400 client error, 500 internal error), and a reply always carries a non-empty, already stripped query |
| ChatRoute.BlankMessageRejected | app.py:437-440 | a message that is all whitespace, the empty one included, gets the 400 answer whatever the agent |
| ChatRoute.MessageForwarded | app.py:437-443 | any other string message reaches the agent stripped, and the 200 reply echoes the stripped message |
| ChatRoute.MissingMessageRejected | app.py:437-440 | a dict without a message reads it as "" and gets the 400 answer |
| ChatRoute.StripBlankIff | app.py:439 | the stripped message is empty exactly when the posted one is all whitespace |
| ChatRoute.AgentSeesStrippedMessage | app.py:437-442 | agents that agree on the stripped message give the same response |
| ChatRoute.MalformedBodyIsInternalError | app.py:436-451 | a body that is not a dict, or a message that is not a string, gets a 500 and never reaches the agent |

## Left out

- The graph connection (`TigerGraphConnection`, `echo`, `runInstalledQuery`, `getVertices`) is not modelled as code. It is an input: a function from request to response, whose failure is any exception with its `str(e)`.
- The listing backend's result is taken as the code treats it: pairs of vertex id and attribute dict, in the order `.items()` yields them. Duplicate ids are not excluded. An attribute container that is not a dict is not modelled.
- Aggregation values are always modelled as lists, so `len(...)` and truthiness on other types (a dict, a string, None under `@@result`) are not modelled.
- A list of fields with a repeated key stands for no Python dict, since a dict holds one value per key. Such lists are not excluded, and `Lookup` takes the first entry for the key; that choice is arbitrary.
- The LLM agent (`ReActAgent`, `achat`, Azure OpenAI settings, the system prompt) is a function from message to outcome. Its reasoning and tool selection are not modelled.
- `json.dumps(..., indent=2)` and `jsonify` are not modelled. Envelopes and responses keep their fields and key order, not their serialized text.
- Json.PyStr: `repr` of a string is shown between single quotes with no escaping and no choice of quote character.
- Floating-point values are not modelled.
- Logging, `initialize`, `_get_system_prompt`, the index, health and test-connection routes, CORS, and the asyncio event loop are left out: they are I/O or configuration.
- `request.get_json()` failing (wrong content type, malformed JSON) is not modelled. The endpoint starts from the parsed body.
- The `FunctionTool` descriptions of the tools are not modelled, only their names.
- Tools.InfluencersAlwaysSucceed: it does not claim the count stays within `limit_count`, because the code passes the backend's list through unchecked.
