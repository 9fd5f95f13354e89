/**
 * The AGP remote agent's request validator (remote_agent_agp/app/main.py):
 * `create_error` and `message_parsing`, an ordered chain of checks over the
 * decoded request where the first failing check decides the reply.
 */
module RemoteServer {
  import opened Json

  /** What message_parsing does with one decoded payload: a reply record to send back, or an exception. */
  datatype Parsed = Reply(record: Json) | Raised(error: string)

  const AgentIdRequired: string := "agent_id is required and cannot be empty."
  const NotFound: string := "Not Found."
  const InputNotDict: string := "The 'input' field should be a dictionary."
  const MessagesNotList: string := "The 'input.messages' field should be a non-empty list."
  const FirstNotDict: string := "The first element in 'input.messages' should be a dictionary."
  const ContentMissing: string := "Missing 'content' in the first message of 'input.messages'."
  const AckText: string := "Received remote request"
  /** The exception raised when the success reply reads a `message_id` that was never assigned. */
  const UnboundMessageId: string := "UnboundLocalError: message_id"

  /** create_error: a record with exactly the fields "message" and "error". */
  function ErrorReply(message: string, code: int): (r: Json)
    ensures r.JObj? && r.fields.Keys == {"message", "error"}
    ensures r.fields["message"] == JStr(message) && r.fields["error"] == JInt(code)
  {
    JObj(map["message" := JStr(message), "error" := JInt(code)])
  }

  /** The one message of a successful reply. */
  function AssistantAck(): Json
  {
    JObj(map["role" := JStr("assistant"), "content" := JStr(AckText)])
  }

  /** The success reply: the agent id echoed, the fixed acknowledgement, the model, and the request's metadata id. */
  function SuccessReply(agentId: Json, messageId: Json): Json
  {
    JObj(map[
      "agent_id" := agentId,
      "output" := JObj(map["messages" := JList([AssistantAck()])]),
      "model" := JStr("gpt-4o"),
      "metadata" := JObj(map["id" := messageId])])
  }

  /** The "error" field of a reply, `None` when absent. */
  function CodeOf(r: Json): Json
  {
    if r.JObj? then Get(r.fields, "error") else JNull
  }

  /** `payload["input"]["messages"][0]` exists and is a dict whose "content" is not None. */
  predicate HasFirstContent(payload: map<string, Json>)
  {
    var input := Get(payload, "input");
    && input.JObj?
    && var messages := Get(input.fields, "messages");
    && messages.JList? && messages.items != []
    && messages.items[0].JObj?
    && Get(messages.items[0].fields, "content") != JNull
  }

  /** The request the validator answers with the success reply, stated as one condition. */
  predicate Accepted(payload: Json)
  {
    && payload.JObj?
    && Truthy(Get(payload.fields, "agent_id"))
    && Get(payload.fields, "route") == JStr("/runs")
    && Get(payload.fields, "metadata").JObj?
    && HasFirstContent(payload.fields)
  }

  /** A dict payload with a valid agent_id and route "/runs", whose metadata is None or a dict. */
  predicate PastRouting(payload: Json)
  {
    && payload.JObj?
    && Truthy(Get(payload.fields, "agent_id"))
    && Get(payload.fields, "route") == JStr("/runs")
    && (Get(payload.fields, "metadata") == JNull || Get(payload.fields, "metadata").JObj?)
  }

  /**
   * message_parsing. A payload that is not a dict, or a metadata value that
   * is neither None nor a dict, makes `.get` raise; a missing metadata leaves
   * `message_id` unassigned, which raises once every other check has passed.
   */
  function MessageParsing(payload: Json): (r: Parsed)
    ensures Accepted(payload) ==>
      r == Reply(SuccessReply(Get(payload.fields, "agent_id"), Get(Get(payload.fields, "metadata").fields, "id")))
    ensures r.Reply? ==> r.record.JObj?
    ensures r.Reply? && "output" in r.record.fields ==> Accepted(payload)
    ensures r.Reply? ==> "output" in r.record.fields || CodeOf(r.record) in {JInt(422), JInt(404), JInt(500)}
    ensures PastRouting(payload) && !Get(payload.fields, "input").JObj? ==>
      r == Reply(ErrorReply(InputNotDict, 500))
    ensures PastRouting(payload) && Get(payload.fields, "input").JObj? ==>
      var messages := Get(Get(payload.fields, "input").fields, "messages");
      && (!messages.JList? || messages.items == [] ==> r == Reply(ErrorReply(MessagesNotList, 500)))
      && (messages.JList? && messages.items != [] && !messages.items[0].JObj? ==>
            r == Reply(ErrorReply(FirstNotDict, 500)))
      && (messages.JList? && messages.items != [] && messages.items[0].JObj?
          && Get(messages.items[0].fields, "content") == JNull ==>
            r == Reply(ErrorReply(ContentMissing, 500)))
    ensures r.Raised? <==>
      !payload.JObj?
      || (Truthy(Get(payload.fields, "agent_id")) && Get(payload.fields, "route") == JStr("/runs")
          && var m := Get(payload.fields, "metadata");
             (m != JNull && !m.JObj?) || (m == JNull && HasFirstContent(payload.fields)))
  {
    if !payload.JObj? then Raised("AttributeError: " + NoGetText(payload))
    else
      var d := payload.fields;
      var agentId := Get(d, "agent_id");
      if !Truthy(agentId) then Reply(ErrorReply(AgentIdRequired, 422))
      else
        var route := Get(d, "route");
        if !Truthy(route) || route != JStr("/runs") then Reply(ErrorReply(NotFound, 404))
        else
          var metadata := Get(d, "metadata");
          if metadata != JNull && !metadata.JObj? then Raised("AttributeError: " + NoGetText(metadata))
          else
            var input := Get(d, "input");
            if !input.JObj? then Reply(ErrorReply(InputNotDict, 500))
            else
              var messages := Get(input.fields, "messages");
              if !messages.JList? || messages.items == [] then Reply(ErrorReply(MessagesNotList, 500))
              else if !messages.items[0].JObj? then Reply(ErrorReply(FirstNotDict, 500))
              else if Get(messages.items[0].fields, "content") == JNull then Reply(ErrorReply(ContentMissing, 500))
              else if metadata == JNull then Raised(UnboundMessageId)
              else Reply(SuccessReply(agentId, Get(metadata.fields, "id")))
  }

  /** A dict payload with a missing or empty agent_id gets 422, whatever else it holds. */
  lemma AgentIdCheckedFirst(payload: map<string, Json>)
    requires !Truthy(Get(payload, "agent_id"))
    ensures MessageParsing(JObj(payload)) == Reply(ErrorReply(AgentIdRequired, 422))
  {
  }

  /** With a valid agent_id, a route other than "/runs" gets 404, whatever else the payload holds. */
  lemma RouteCheckedSecond(payload: map<string, Json>)
    requires Truthy(Get(payload, "agent_id")) && Get(payload, "route") != JStr("/runs")
    ensures MessageParsing(JObj(payload)) == Reply(ErrorReply(NotFound, 404))
  {
  }

  /** Changing nothing but the first message's content, from None to a value, turns a 500 into the success reply. */
  lemma OnlyFirstContentMatters(payload: map<string, Json>, others: seq<Json>, first: map<string, Json>, content: Json)
    requires Truthy(Get(payload, "agent_id")) && Get(payload, "route") == JStr("/runs")
    requires Get(payload, "metadata").JObj?
    requires content != JNull
    ensures
      var withContent := payload["input" := JObj(map["messages" := JList([JObj(first["content" := content])] + others)])];
      var without := payload["input" := JObj(map["messages" := JList([JObj(first["content" := JNull])] + others)])];
      MessageParsing(JObj(withContent)) == Reply(SuccessReply(Get(payload, "agent_id"), Get(Get(payload, "metadata").fields, "id")))
      && MessageParsing(JObj(without)) == Reply(ErrorReply(ContentMissing, 500))
  {
    var withContent := payload["input" := JObj(map["messages" := JList([JObj(first["content" := content])] + others)])];
    assert Accepted(JObj(withContent));
  }
}
