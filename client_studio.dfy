/**
 * The LangGraph Studio client of the remote-agent demo
 * (remote_agent_agp/client_studio/agp.py): the node that sends the whole
 * conversation to the remote agent over the gateway and turns the reply into
 * a state update. The gateway is a flag (is it initialised) and a function
 * from the request sent to the reply received.
 */
module ClientStudio {
  import opened Json
  import opened Wrappers
  import opened GraphMessages
  import RemoteServer

  const GatewayMissing: string := "RuntimeError: Gateway is not initialized yet!"

  /** The request built from the converted state messages and a fresh run id. */
  function StudioPayload(messages: Json, runId: string): Json
  {
    JObj(map[
      "agent_id" := JStr("remote_agent"),
      "input" := JObj(map["messages" := messages]),
      "model" := JStr("gpt-4o"),
      "metadata" := JObj(map["id" := JStr(runId)]),
      "route" := JStr("/runs")])
  }

  /**
   * send_and_recv after the reply arrives: a non-null "error" becomes one
   * HumanMessage holding the failure record; otherwise the last decoded
   * message is the update, as a bare value.
   */
  function StudioReceive(reply: Json): (r: Result<Update, string>)
    ensures reply.JObj? && Get(reply.fields, "error") != JNull ==>
      r == Ok(Items([Msg(Message(Human, Dumped(AgpFailure(Get(reply.fields, "error"), Get(reply.fields, "message")))))]))
    ensures reply.JObj? && Get(reply.fields, "error") == JNull ==>
      (r.Ok? <==> LastOf(DecodedMessages(reply)).Ok?)
      && (r.Ok? ==> r.value == Value(LastOf(DecodedMessages(reply)).value))
    ensures !reply.JObj? ==> r.Err?
  {
    if !reply.JObj? then Err("AttributeError: " + NoGetText(reply))
    else
      var code := Get(reply.fields, "error");
      if code != JNull then
        Ok(Items([Msg(Message(Human, Dumped(AgpFailure(code, Get(reply.fields, "message")))))]))
      else
        match LastOf(DecodedMessages(reply))
        case Ok(last) => Ok(Value(last))
        case Err(e) => Err(e)
  }

  /**
   * node_remote_agp: an empty state gets the error message and nothing is
   * sent; otherwise the request is published (or RuntimeError when the
   * gateway is not set) and the reply is classified.
   */
  function NodeRemoteAgp(state: seq<Message>, toOpenAI: seq<Message> -> Json, runId: string,
                         gatewayReady: bool, remote: Json -> Json): (x: Exchange)
    ensures state == [] ==> x == Exchange([], Ok(EmptyStateUpdate()))
    ensures state != [] && !gatewayReady ==> x == Exchange([], Err(GatewayMissing))
    ensures state != [] && gatewayReady ==>
      && |x.sent| == 1
      && x.sent[0].JObj?
      && x.sent[0].fields.Keys == {"agent_id", "input", "model", "metadata", "route"}
      && Get(x.sent[0].fields, "agent_id") == JStr("remote_agent")
      && Get(x.sent[0].fields, "route") == JStr("/runs")
      && Get(x.sent[0].fields, "model") == JStr("gpt-4o")
      && Get(x.sent[0].fields, "metadata") == JObj(map["id" := JStr(runId)])
      && Get(x.sent[0].fields, "input") == JObj(map["messages" := toOpenAI(state)])
      && x.result == StudioReceive(remote(x.sent[0]))
  {
    if state == [] then Exchange([], Ok(EmptyStateUpdate()))
    else
      var payload := StudioPayload(toOpenAI(state), runId);
      if !gatewayReady then Exchange([], Err(GatewayMissing))
      else Exchange([payload], StudioReceive(remote(payload)))
  }

  /** Whatever the messages, the request passes the validator's agent_id and route checks. */
  lemma StudioPassesRouting(messages: Json, runId: string)
    ensures var r := RemoteServer.MessageParsing(StudioPayload(messages, runId));
      !(r.Reply? && RemoteServer.CodeOf(r.record) in {JInt(422), JInt(404)})
  {
  }

  /**
   * When the first converted message is a dict with content, the validator
   * accepts the request, echoing the agent id and the run id, and the client
   * turns that reply into the acknowledgement message.
   */
  lemma StudioRequestAccepted(messages: Json, runId: string)
    requires RemoteServer.HasFirstContent(map["input" := JObj(map["messages" := messages])])
    ensures RemoteServer.MessageParsing(StudioPayload(messages, runId))
      == RemoteServer.Reply(RemoteServer.SuccessReply(JStr("remote_agent"), JStr(runId)))
    ensures StudioReceive(RemoteServer.SuccessReply(JStr("remote_agent"), JStr(runId)))
      == Ok(Value(RemoteServer.AssistantAck()))
  {
    StudioPayloadAccepted(messages, runId);
    StudioReadsAck(runId);
  }

  lemma StudioPayloadAccepted(messages: Json, runId: string)
    requires RemoteServer.HasFirstContent(map["input" := JObj(map["messages" := messages])])
    ensures var p := StudioPayload(messages, runId);
      && RemoteServer.Accepted(p)
      && Get(p.fields, "agent_id") == JStr("remote_agent")
      && Get(Get(p.fields, "metadata").fields, "id") == JStr(runId)
  {
    var p := StudioPayload(messages, runId);
    assert Get(p.fields, "input") == JObj(map["messages" := messages]);
  }

  lemma StudioReadsAck(runId: string)
    ensures StudioReceive(RemoteServer.SuccessReply(JStr("remote_agent"), JStr(runId)))
      == Ok(Value(RemoteServer.AssistantAck()))
  {
  }

  /** An error record from the validator reaches the graph as one HumanMessage carrying its code and message. */
  lemma StudioSeesServerError(message: string, code: int)
    ensures StudioReceive(RemoteServer.ErrorReply(message, code))
      == Ok(Items([Msg(Message(Human, Dumped(AgpFailure(JInt(code), JStr(message)))))]))
  {
  }

  /** A reply with no message to take makes the node raise instead of returning an update. */
  lemma StudioEmptyReplyRaises(reply: map<string, Json>)
    requires "error" !in reply && "output" in reply && reply["output"] == JObj(map["messages" := JList([])])
    ensures StudioReceive(JObj(reply)).Err?
  {
    assert DecodedMessages(JObj(reply)) == JList([]);
  }
}
