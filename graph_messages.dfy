/**
 * What the three graph clients of the remote-agent demo share: the messages
 * of the graph state, the update a node returns, the reply decoder that
 * remote_agent_agp/client_studio/agp.py and remote_agent_agp/client/rest.py
 * both define, and Python's `xs[-1]` on a decoded value.
 */
module GraphMessages {
  import opened Json
  import opened Wrappers
  import opened Strings

  datatype Kind = Human | AI

  /** Message content: plain text, or the `json.dumps` text of a record (kept as the record). */
  datatype Content = Text(text: string) | Dumped(record: Json)

  datatype Message = Message(kind: Kind, content: Content)

  /** An element a node hands to `add_messages`: a message object, or a value taken from the reply as decoded. */
  datatype Item = Msg(msg: Message) | Raw(value: Json)

  /** The value under "messages" in a node's update: a list the node builds, or a value taken from the reply as it is. */
  datatype Update = Items(items: seq<Item>) | Value(value: Json)

  /** A node run: the requests it sent, and its update or the exception it raised. */
  datatype Exchange = Exchange(sent: seq<Json>, result: Result<Update, string>)

  const NoMessagesText: string := "Error: No messages in state"

  /** The update every client returns for an empty state. */
  function EmptyStateUpdate(): Update
  {
    Items([Msg(Message(Human, Text(NoMessagesText)))])
  }

  /** The record sent back as a HumanMessage when the reply carries an "error". */
  function AgpFailure(code: Json, message: Json): Json
  {
    JObj(map["error" := JStr("AGP request failed"), "status_code" := code, "exception" := message])
  }

  /** `v[-1]`: the last element of a list or the last character of a string; anything else raises. */
  function LastOf(v: Json): (r: Result<Json, string>)
    ensures r.Ok? <==> (v.JList? && v.items != []) || (v.JStr? && v.s != [])
    ensures v.JList? && v.items != [] ==> r == Ok(v.items[|v.items| - 1])
    ensures v.JStr? && v.s != [] ==> r == Ok(JStr([v.s[|v.s| - 1]]))
  {
    match v
    case JList(items) =>
      if items == [] then Err("IndexError: list index out of range") else Ok(items[|items| - 1])
    case JStr(s) =>
      if s == [] then Err("IndexError: string index out of range") else Ok(JStr([s[|s| - 1]]))
    case JObj(_) => Err("KeyError: -1")
    case _ => Err("TypeError: '" + TypeName(v) + "' object is not subscriptable")
  }

  const DecodeFailurePrefix: string := "Failed to decode response: "

  /** decode_response's fallback: a record whose only field is "error". */
  function DecodeFailure(detail: string): Json
  {
    JObj(map["error" := JStr(DecodeFailurePrefix + detail)])
  }

  /**
   * decode_response: agent_id, messages (from output.messages), model and
   * metadata, with their defaults. Calling `.get` on a reply or an output that
   * is not a dict raises AttributeError, which is caught.
   */
  function DecodeResponse(data: Json): (r: Json)
    ensures r.JObj?
    ensures "error" in r.fields <==> !data.JObj? || !GetOr(data.fields, "output", JObj(map[])).JObj?
    ensures "error" in r.fields ==>
      r.fields.Keys == {"error"} && r.fields["error"].JStr? && StartsWith(r.fields["error"].s, DecodeFailurePrefix)
    ensures "error" !in r.fields ==>
      && r.fields.Keys == {"agent_id", "messages", "model", "metadata"}
      && r.fields["agent_id"] == GetOr(data.fields, "agent_id", JStr("Unknown"))
      && r.fields["model"] == GetOr(data.fields, "model", JStr("Unknown"))
      && r.fields["metadata"] == GetOr(data.fields, "metadata", JObj(map[]))
      && r.fields["messages"] == GetOr(GetOr(data.fields, "output", JObj(map[])).fields, "messages", JList([]))
  {
    if !data.JObj? then DecodeFailure(NoGetText(data))
    else
      var d := data.fields;
      var output := GetOr(d, "output", JObj(map[]));
      if !output.JObj? then DecodeFailure(NoGetText(output))
      else
        JObj(map[
          "agent_id" := GetOr(d, "agent_id", JStr("Unknown")),
          "messages" := GetOr(output.fields, "messages", JList([])),
          "model" := GetOr(d, "model", JStr("Unknown")),
          "metadata" := GetOr(d, "metadata", JObj(map[]))])
  }

  /** The "messages" of a decoded reply, `[]` when decoding failed. */
  function DecodedMessages(data: Json): Json
  {
    GetOr(DecodeResponse(data).fields, "messages", JList([]))
  }
}
