/**
 * The REST client of the remote-agent demo (remote_agent_agp/client/rest.py):
 * the node that posts the last query to the Remote Graph Server and turns
 * the response, or the failure, into a state update. The HTTP exchange is a
 * function from the request body to its outcome, already classified by the
 * `except` clause that catches it.
 */
module RestClient {
  import opened Json
  import opened Wrappers
  import opened GraphMessages

  /** How the POST ended: a JSON body with a success status, or the exception class the handler catches. */
  datatype HttpOutcome =
    | Responded(body: Json)
    | ConnectionFailure(detail: string)               // Timeout or ConnectionError
    | HttpStatusFailure(status: int, detail: string)  // raise_for_status
    | RequestFailure(detail: string)                  // any other RequestException
    | InvalidJson(detail: string)                     // json.JSONDecodeError
    | OtherFailure(detail: string, trace: string)     // any other Exception

  /** The request: one human message built from the last query, and no route. */
  function RestPayload(query: Content, dump: Message -> Json, runId: string): Json
  {
    JObj(map[
      "agent_id" := JStr("remote_agent"),
      "input" := JObj(map["messages" := JList([dump(Message(Human, query))])]),
      "model" := JStr("gpt-4o"),
      "metadata" := JObj(map["id" := JStr(runId)])])
  }

  /** The error record logged and returned for a failed request. */
  function FailureRecord(outcome: HttpOutcome): Json
    requires !outcome.Responded?
  {
    match outcome
    case ConnectionFailure(d) =>
      JObj(map["error" := JStr("Connection timeout or failure"), "exception" := JStr(d)])
    case HttpStatusFailure(status, d) =>
      JObj(map["error" := JStr("HTTP request failed"), "status_code" := JInt(status), "exception" := JStr(d)])
    case RequestFailure(d) =>
      JObj(map["error" := JStr("Request failed"), "exception" := JStr(d)])
    case InvalidJson(d) =>
      JObj(map["error" := JStr("Invalid JSON response"), "exception" := JStr(d)])
    case OtherFailure(d, t) =>
      JObj(map["error" := JStr("Unexpected failure"), "exception" := JStr(d), "stack_trace" := JStr(t)])
  }

  /**
   * The update for an outcome: all decoded messages on success; one message
   * holding the failure record otherwise, a HumanMessage from the specific
   * handlers and an AIMessage after the generic one.
   */
  function RestUpdate(outcome: HttpOutcome): (u: Update)
    ensures outcome.Responded? ==> u == Value(DecodedMessages(outcome.body))
    ensures !outcome.Responded? ==>
      && u.Items? && |u.items| == 1 && u.items[0].Msg?
      && u.items[0].msg.content == Dumped(FailureRecord(outcome))
      && (u.items[0].msg.kind == AI <==> outcome.OtherFailure?)
  {
    match outcome
    case Responded(body) => Value(DecodedMessages(body))
    case OtherFailure(_, _) => Items([Msg(Message(AI, Dumped(FailureRecord(outcome))))])
    case _ => Items([Msg(Message(Human, Dumped(FailureRecord(outcome))))])
  }

  /** node_remote_request_stateless: an empty state gets the error message and no request is made. */
  function NodeRemoteRequestStateless(state: seq<Message>, dump: Message -> Json, runId: string,
                                      post: Json -> HttpOutcome): (x: Exchange)
    ensures state == [] ==> x == Exchange([], Ok(EmptyStateUpdate()))
    ensures state != [] ==>
      && |x.sent| == 1
      && x.sent[0].JObj?
      && x.sent[0].fields.Keys == {"agent_id", "input", "model", "metadata"}
      && "route" !in x.sent[0].fields
      && Get(x.sent[0].fields, "agent_id") == JStr("remote_agent")
      && Get(x.sent[0].fields, "model") == JStr("gpt-4o")
      && Get(x.sent[0].fields, "metadata") == JObj(map["id" := JStr(runId)])
      && Get(x.sent[0].fields, "input") == JObj(map["messages" := JList([dump(Message(Human, state[|state| - 1].content))])])
      && x.result == Ok(RestUpdate(post(x.sent[0])))
  {
    if state == [] then Exchange([], Ok(EmptyStateUpdate()))
    else
      var payload := RestPayload(state[|state| - 1].content, dump, runId);
      Exchange([payload], Ok(RestUpdate(post(payload))))
  }

  /** A well-formed response hands on every message of output.messages, in order. */
  lemma RestKeepsAllMessages(body: map<string, Json>, messages: seq<Json>)
    requires "output" in body && body["output"] == JObj(map["messages" := JList(messages)])
    ensures RestUpdate(Responded(JObj(body))) == Value(JList(messages))
  {
  }

  /** A response the decoder cannot read yields an empty list of messages, not an exception. */
  lemma RestUndecodableIsEmpty(body: Json)
    requires !body.JObj? || !GetOr(body.fields, "output", JObj(map[])).JObj?
    ensures RestUpdate(Responded(body)) == Value(JList([]))
  {
  }
}
