/** The chat endpoint: it takes the posted message, strips it, rejects a blank one with a client
    error, and otherwise hands the stripped text to the agent and echoes it in the result. The
    agent is not part of this model; it is a function from message to outcome. */
module ChatRoute {
  import opened Json

  /** The characters `str.isspace()` accepts, which `str.strip()` removes. */
  const Whitespace: string :=
    "\t\n\U{B}\U{C}\r\U{1C}\U{1D}\U{1E}\U{1F} \U{85}\U{A0}\U{1680}"
    + "\U{2000}\U{2001}\U{2002}\U{2003}\U{2004}\U{2005}\U{2006}\U{2007}\U{2008}\U{2009}\U{200A}"
    + "\U{2028}\U{2029}\U{202F}\U{205F}\U{3000}"

  predicate IsSpace(c: char) {
    Occurs(c, Whitespace)
  }

  predicate Occurs(c: char, chars: string) {
    chars != [] && (chars[0] == c || Occurs(c, chars[1..]))
  }

  predicate AllSpace(s: string) {
    forall k :: 0 <= k < |s| ==> IsSpace(s[k])
  }

  /** Where `strip()` starts: the first index at or after `i` that is not whitespace. */
  function SkipLeading(s: string, i: nat): (k: nat)
    requires i <= |s|
    ensures i <= k <= |s|
    ensures forall m :: i <= m < k ==> IsSpace(s[m])
    ensures k < |s| ==> !IsSpace(s[k])
    decreases |s| - i
  {
    if i < |s| && IsSpace(s[i]) then SkipLeading(s, i + 1) else i
  }

  /** Where `strip()` ends: the last index at or before `j`, and not before `lo`, that does not
      follow whitespace. */
  function SkipTrailing(s: string, lo: nat, j: nat): (k: nat)
    requires lo <= j <= |s|
    ensures lo <= k <= j
    ensures forall m :: k <= m < j ==> IsSpace(s[m])
    ensures lo < k ==> !IsSpace(s[k - 1])
  {
    if lo < j && IsSpace(s[j - 1]) then SkipTrailing(s, lo, j - 1) else j
  }

  /** `s.strip()`: skip whitespace from the front, then from the back down to where the front
      stopped, and keep what lies between. */
  function Strip(s: string): (r: string)
    ensures |r| <= |s|
    ensures r != [] ==> !IsSpace(r[0]) && !IsSpace(r[|r| - 1])
  {
    var i := SkipLeading(s, 0);
    s[i..SkipTrailing(s, i, |s|)]
  }

  /** `strip()` cuts whitespace from both ends and nothing else: the result is the slice
      `s[i..j]` of the input with only whitespace outside it and none at its ends, and it is
      empty exactly when the input is all whitespace. */
  lemma StripCharacterized(s: string) returns (i: nat, j: nat)
    ensures i <= j <= |s| && Strip(s) == s[i..j]
    ensures forall k :: 0 <= k < i || j <= k < |s| ==> IsSpace(s[k])
    ensures Strip(s) != [] ==> !IsSpace(Strip(s)[0]) && !IsSpace(Strip(s)[|Strip(s)| - 1])
    ensures Strip(s) == [] <==> AllSpace(s)
  {
    i := SkipLeading(s, 0);
    j := SkipTrailing(s, i, |s|);
    if i < j {
      assert Strip(s)[0] == s[i];
      assert Strip(s)[|Strip(s)| - 1] == s[j - 1];
    }
  }

  /** What the agent did with a message: answered, or raised. */
  datatype AgentOutcome = Answered(text: string) | Raised(description: string)

  type Agent = string -> AgentOutcome

  datatype ChatStatus = ChatSuccess | ChatError

  datatype ChatResult = ChatResult(status: ChatStatus, response: string, query: string)

  const ChatErrorPrefix: string := "I encountered an error while processing your request: "

  /** `TigerGraphChatbot.chat(user_message)`: both outcomes echo the message as the query. */
  function Chat(agent: Agent, userMessage: string): (r: ChatResult)
    ensures r.query == userMessage
    ensures r.status == ChatSuccess <==> agent(userMessage).Answered?
    ensures agent(userMessage).Answered? ==> r.response == agent(userMessage).text
    ensures agent(userMessage).Raised? ==> r.response == ChatErrorPrefix + agent(userMessage).description
  {
    match agent(userMessage)
    case Answered(text) => ChatResult(ChatSuccess, text, userMessage)
    case Raised(d) => ChatResult(ChatError, ChatErrorPrefix + d, userMessage)
  }

  datatype ResponseBody =
    | ClientError(error: string)                   // {"error": ...}
    | Reply(result: ChatResult)                    // the chat result
    | InternalError(response: string, error: string) // {"status": "error", "response": ..., "error": str(e)}

  datatype HttpResponse = HttpResponse(code: nat, body: ResponseBody)

  const BlankMessageError: string := "Please provide a message"
  const InternalErrorResponse: string := "I'm sorry, I encountered an internal error. Please try again."

  /** `POST /api/chat` for the parsed request body: `data.get('message', '').strip()`, a 400 for
      a blank message, a 500 when the body is not a dict or the message not a string (Python's
      AttributeError), and otherwise the agent's result for the stripped message. */
  function ChatEndpoint(body: Json, agent: Agent): (r: HttpResponse)
    ensures r.code == 200 <==> r.body.Reply?
    ensures r.code == 400 <==> r.body.ClientError?
    ensures r.code == 500 <==> r.body.InternalError?
    ensures r.body.Reply? ==> r.body.result.query != "" && r.body.result.query == Strip(r.body.result.query)
  {
    match body
    case JObject(fields) =>
      (match Get(fields, "message", JStr(""))
       case JStr(m) =>
         var userMessage := Strip(m);
         if userMessage == "" then HttpResponse(400, ClientError(BlankMessageError))
         else HttpResponse(200, Reply(Chat(agent, userMessage)))
       case other =>
         HttpResponse(500, InternalError(InternalErrorResponse, "'" + TypeName(other) + "' object has no attribute 'strip'")))
    case _ =>
      HttpResponse(500, InternalError(InternalErrorResponse, "'" + TypeName(body) + "' object has no attribute 'get'"))
  }

  /** The message the endpoint reads from a dict body. */
  function PostedMessage(fields: Fields): Json {
    Get(fields, "message", JStr(""))
  }

  /** A missing, empty or all-whitespace message gets a 400, whatever the agent, so it never
      reaches the agent. */
  lemma BlankMessageRejected(fields: Fields, agent: Agent)
    requires PostedMessage(fields).JStr? && AllSpace(PostedMessage(fields).s)
    ensures ChatEndpoint(JObject(fields), agent) == HttpResponse(400, ClientError(BlankMessageError))
  {
    var m := PostedMessage(fields).s;
    StripBlankIff(m);
    EndpointOnString(fields, agent, m);
  }

  /** A message that is not all whitespace reaches the agent stripped, and the reply echoes the
      stripped message as the query. */
  lemma MessageForwarded(fields: Fields, agent: Agent)
    requires PostedMessage(fields).JStr? && !AllSpace(PostedMessage(fields).s)
    ensures var m := Strip(PostedMessage(fields).s);
            && ChatEndpoint(JObject(fields), agent) == HttpResponse(200, Reply(Chat(agent, m)))
            && ChatEndpoint(JObject(fields), agent).body.result.query == m
  {
    var m := PostedMessage(fields).s;
    StripBlankIff(m);
    EndpointOnString(fields, agent, m);
  }

  lemma EndpointOnString(fields: Fields, agent: Agent, m: string)
    requires PostedMessage(fields) == JStr(m)
    ensures Strip(m) == "" ==> ChatEndpoint(JObject(fields), agent) == HttpResponse(400, ClientError(BlankMessageError))
    ensures Strip(m) != "" ==> ChatEndpoint(JObject(fields), agent) == HttpResponse(200, Reply(Chat(agent, Strip(m))))
  {
  }

  lemma StripBlankIff(m: string)
    ensures Strip(m) == "" <==> AllSpace(m)
  {
    var _, _ := StripCharacterized(m);
  }

  /** A body without a message reads it as "" and is rejected. */
  lemma MissingMessageRejected(fields: Fields, agent: Agent)
    requires !HasKey(fields, "message")
    ensures ChatEndpoint(JObject(fields), agent) == HttpResponse(400, ClientError(BlankMessageError))
  {
    assert PostedMessage(fields) == JStr("");
    assert Strip("") == "";
  }

  /** The agent sees only the stripped message: agents that agree on it give the same response. */
  lemma AgentSeesStrippedMessage(body: Json, agent: Agent, other: Agent)
    requires body.JObject? && PostedMessage(body.fields).JStr?
    requires agent(Strip(PostedMessage(body.fields).s)) == other(Strip(PostedMessage(body.fields).s))
    ensures ChatEndpoint(body, agent) == ChatEndpoint(body, other)
  {
  }

  /** A body that is not a dict, or a message that is not a string, gets a 500 and never reaches
      the agent. */
  lemma MalformedBodyIsInternalError(body: Json, agent: Agent, other: Agent)
    requires !body.JObject? || !PostedMessage(body.fields).JStr?
    ensures ChatEndpoint(body, agent).code == 500
    ensures ChatEndpoint(body, agent) == ChatEndpoint(body, other)
  {
  }
}
