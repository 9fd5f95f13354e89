/**
 * The API client of the remote-agent demo (remote_agent_agp/api_client/agp.py):
 * the node that sends the conversation to the "server" agent over the
 * gateway container, and the classification of its reply. The gateway is a
 * function from the request sent to the reply received.
 */
module ApiClient {
  import opened Json
  import opened Wrappers
  import opened GraphMessages
  import RemoteServer

  /** The request: like the Studio client's, with the REST-style route "/api/v1/runs". */
  function ApiPayload(messages: Json, runId: string): Json
  {
    JObj(map[
      "agent_id" := JStr("remote_agent"),
      "input" := JObj(map["messages" := messages]),
      "model" := JStr("gpt-4o"),
      "metadata" := JObj(map["id" := JStr(runId)]),
      "route" := JStr("/api/v1/runs")])
  }

  /**
   * send_and_recv after the reply arrives: a non-null "error" becomes a
   * one-element list holding the failure message; otherwise a one-element
   * list holding the last of output.messages. No decode step guards the
   * reads, so an output that is not a dict or an empty list raises.
   */
  function ApiReceive(reply: Json): (r: Result<Update, string>)
    ensures reply.JObj? && Get(reply.fields, "error") != JNull ==>
      r == Ok(Items([Msg(Message(Human, Dumped(AgpFailure(Get(reply.fields, "error"), Get(reply.fields, "message")))))]))
    ensures reply.JObj? && Get(reply.fields, "error") == JNull ==>
      var output := GetOr(reply.fields, "output", JObj(map[]));
      && (r.Ok? <==> output.JObj? && LastOf(GetOr(output.fields, "messages", JList([]))).Ok?)
      && (r.Ok? ==> r.value == Items([Raw(LastOf(GetOr(output.fields, "messages", JList([]))).value)]))
    ensures !reply.JObj? ==> r.Err?
    ensures r.Ok? ==> r.value.Items? && |r.value.items| == 1
  {
    if !reply.JObj? then Err("AttributeError: " + NoGetText(reply))
    else
      var code := Get(reply.fields, "error");
      if code != JNull then
        Ok(Items([Msg(Message(Human, Dumped(AgpFailure(code, Get(reply.fields, "message")))))]))
      else
        var output := GetOr(reply.fields, "output", JObj(map[]));
        if !output.JObj? then Err("AttributeError: " + NoGetText(output))
        else
          match LastOf(GetOr(output.fields, "messages", JList([])))
          case Ok(last) => Ok(Items([Raw(last)]))
          case Err(e) => Err(e)
  }

  /** node_remote_agp: an empty state gets the error message and nothing is sent; otherwise one request and its reply. */
  function NodeRemoteAgp(state: seq<Message>, toOpenAI: seq<Message> -> Json, runId: string, remote: Json -> Json): (x: Exchange)
    ensures state == [] ==> x == Exchange([], Ok(EmptyStateUpdate()))
    ensures state != [] ==>
      && |x.sent| == 1
      && x.sent[0].JObj?
      && Get(x.sent[0].fields, "agent_id") == JStr("remote_agent")
      && Get(x.sent[0].fields, "route") == JStr("/api/v1/runs")
      && Get(x.sent[0].fields, "model") == JStr("gpt-4o")
      && Get(x.sent[0].fields, "metadata") == JObj(map["id" := JStr(runId)])
      && Get(x.sent[0].fields, "input") == JObj(map["messages" := toOpenAI(state)])
      && x.result == ApiReceive(remote(x.sent[0]))
  {
    if state == [] then Exchange([], Ok(EmptyStateUpdate()))
    else
      var payload := ApiPayload(toOpenAI(state), runId);
      Exchange([payload], ApiReceive(remote(payload)))
  }

  /** The remote's acknowledgement, when it comes, becomes a one-element list holding the assistant message. */
  lemma ApiTakesLastMessage(agentId: Json, messageId: Json)
    ensures ApiReceive(RemoteServer.SuccessReply(agentId, messageId)) == Ok(Items([Raw(RemoteServer.AssistantAck())]))
  {
  }

  /**
   * Sent to the validator of remote_agent_agp/app/main.py instead of the
   * REST-style server it addresses, this request's route is refused with 404,
   * and the client hands that on as one HumanMessage.
   */
  lemma ApiRouteRefusedByAgpApp(messages: Json, runId: string)
    ensures RemoteServer.MessageParsing(ApiPayload(messages, runId))
      == RemoteServer.Reply(RemoteServer.ErrorReply(RemoteServer.NotFound, 404))
    ensures ApiReceive(RemoteServer.ErrorReply(RemoteServer.NotFound, 404))
      == Ok(Items([Msg(Message(Human, Dumped(AgpFailure(JInt(404), JStr(RemoteServer.NotFound)))))]))
  {
  }
}
