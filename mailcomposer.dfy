/**
 * The mail composer's schema (marketing-campaign/src/marketing_campaign/mailcomposer.py):
 * the message originator enum, the message record, and the input, output
 * and config records, each with its reading from JSON as the record
 * declarations require (strict types: the declared JSON type is accepted,
 * no coercion).
 */
module MailComposer {
  import opened Json
  import opened Wrappers

  /** `Type`: who wrote a message. */
  datatype MsgType = HumanType | AssistantType | AiType

  function TypeValue(t: MsgType): string
  {
    match t
    case HumanType => "human"
    case AssistantType => "assistant"
    case AiType => "ai"
  }

  /** `Type(value)`: the member with that value, or none. */
  function ParseType(s: string): (r: Option<MsgType>)
    ensures r.Some? <==> s in {"human", "assistant", "ai"}
    ensures r.Some? ==> TypeValue(r.value) == s
  {
    if s == "human" then Some(HumanType)
    else if s == "assistant" then Some(AssistantType)
    else if s == "ai" then Some(AiType)
    else None
  }

  lemma ParseTypeValue(t: MsgType)
    ensures ParseType(TypeValue(t)) == Some(t)
  {
  }

  datatype Message = Message(msgType: MsgType, content: string)

  function MessageToJson(m: Message): Json
  {
    JObj(map["type" := JStr(TypeValue(m.msgType)), "content" := JStr(m.content)])
  }

  /** Validation of a Message: both fields are required; `type` must be one of the enum's values. */
  function MessageFromJson(j: Json): (r: Result<Message, string>)
    ensures r.Ok? <==>
      j.JObj? && "type" in j.fields && j.fields["type"].JStr? && ParseType(j.fields["type"].s).Some?
      && "content" in j.fields && j.fields["content"].JStr?
    ensures r.Ok? ==> TypeValue(r.value.msgType) == j.fields["type"].s && r.value.content == j.fields["content"].s
  {
    if !j.JObj? then Err("Message: not an object")
    else if "type" !in j.fields then Err("type: Field required")
    else if !j.fields["type"].JStr? || ParseType(j.fields["type"].s).None? then Err("type: not a valid Type")
    else if "content" !in j.fields then Err("content: Field required")
    else if !j.fields["content"].JStr? then Err("content: Input should be a valid string")
    else Ok(Message(ParseType(j.fields["type"].s).value, j.fields["content"].s))
  }

  lemma MessageRoundTrip(m: Message)
    ensures MessageFromJson(MessageToJson(m)) == Ok(m)
  {
    ParseTypeValue(m.msgType);
  }

  function MessagesToJson(ms: seq<Message>): (js: seq<Json>)
    ensures |js| == |ms| && forall i :: 0 <= i < |ms| ==> js[i] == MessageToJson(ms[i])
  {
    seq(|ms|, i requires 0 <= i < |ms| => MessageToJson(ms[i]))
  }

  /** A list of messages: every item must be a valid message. */
  function MessagesFromJson(items: seq<Json>): (r: Result<seq<Message>, string>)
    ensures r.Ok? <==> forall i :: 0 <= i < |items| ==> MessageFromJson(items[i]).Ok?
    ensures r.Ok? ==> |r.value| == |items| && forall i :: 0 <= i < |items| ==> r.value[i] == MessageFromJson(items[i]).value
  {
    if items == [] then Ok([])
    else
      match MessageFromJson(items[0])
      case Err(e) => Err(e)
      case Ok(m) =>
        match MessagesFromJson(items[1..])
        case Err(e) => Err(e)
        case Ok(rest) => Ok([m] + rest)
  }

  lemma {:induction false} MessagesRoundTrip(ms: seq<Message>)
    ensures MessagesFromJson(MessagesToJson(ms)) == Ok(ms)
  {
    var js := MessagesToJson(ms);
    forall i | 0 <= i < |ms| ensures MessageFromJson(js[i]) == Ok(ms[i]) {
      MessageRoundTrip(ms[i]);
    }
    var r := MessagesFromJson(js);
    assert r.Ok?;
    assert r.value == ms by {
      forall i | 0 <= i < |ms| ensures r.value[i] == ms[i] {
        assert r.value[i] == MessageFromJson(js[i]).value;
      }
    }
  }

  /** `Optional[...] = None`: JSON null or a missing key reads as None. */
  predicate Absent(d: map<string, Json>, key: string)
  {
    key !in d || d[key] == JNull
  }

  /** An optional list of messages: absent, null, or a list whose every item is a valid message. */
  predicate MessagesFieldOk(d: map<string, Json>, key: string)
  {
    Absent(d, key) || (d[key].JList? && forall i :: 0 <= i < |d[key].items| ==> MessageFromJson(d[key].items[i]).Ok?)
  }

  /** An optional boolean: absent, null, or a JSON boolean. */
  predicate BoolFieldOk(d: map<string, Json>, key: string)
  {
    Absent(d, key) || d[key].JBool?
  }

  /** An optional string: absent, null, or a JSON string. */
  predicate StringFieldOk(d: map<string, Json>, key: string)
  {
    Absent(d, key) || d[key].JStr?
  }

  function OptMessagesFromJson(d: map<string, Json>, key: string): (r: Result<Option<seq<Message>>, string>)
    ensures r.Ok? <==> MessagesFieldOk(d, key)
    ensures r.Ok? ==> (r.value.None? <==> Absent(d, key))
    ensures r.Ok? && r.value.Some? ==>
      && |r.value.value| == |d[key].items|
      && forall i :: 0 <= i < |d[key].items| ==> r.value.value[i] == MessageFromJson(d[key].items[i]).value
  {
    if Absent(d, key) then Ok(None)
    else if !d[key].JList? then Err(key + ": Input should be a valid list")
    else
      match MessagesFromJson(d[key].items)
      case Err(e) => Err(e)
      case Ok(ms) => Ok(Some(ms))
  }

  function OptBoolFromJson(d: map<string, Json>, key: string): (r: Result<Option<bool>, string>)
    ensures r.Ok? <==> BoolFieldOk(d, key)
    ensures r.Ok? ==> (r.value.None? <==> Absent(d, key))
    ensures r.Ok? && r.value.Some? ==> d[key] == JBool(r.value.value)
  {
    if Absent(d, key) then Ok(None)
    else if !d[key].JBool? then Err(key + ": Input should be a valid boolean")
    else Ok(Some(d[key].b))
  }

  function OptStringFromJson(d: map<string, Json>, key: string): (r: Result<Option<string>, string>)
    ensures r.Ok? <==> StringFieldOk(d, key)
    ensures r.Ok? ==> (r.value.None? <==> Absent(d, key))
    ensures r.Ok? && r.value.Some? ==> d[key] == JStr(r.value.value)
  {
    if Absent(d, key) then Ok(None)
    else if !d[key].JStr? then Err(key + ": Input should be a valid string")
    else Ok(Some(d[key].s))
  }

  function OptMessagesToJson(ms: Option<seq<Message>>): Json
  {
    if ms.None? then JNull else JList(MessagesToJson(ms.value))
  }

  function OptBoolToJson(b: Option<bool>): Json
  {
    if b.None? then JNull else JBool(b.value)
  }

  function OptStringToJson(s: Option<string>): Json
  {
    if s.None? then JNull else JStr(s.value)
  }

  /** ConfigSchema: `test` is required. */
  datatype ConfigSchema = ConfigSchema(test: bool)

  /** InputSchema: both fields optional, None by default. */
  datatype InputSchema = InputSchema(messages: Option<seq<Message>>, isCompleted: Option<bool>)

  /** OutputSchema: the input's fields and final_email, all optional, None by default. */
  datatype OutputSchema = OutputSchema(messages: Option<seq<Message>>, isCompleted: Option<bool>, finalEmail: Option<string>)

  function ConfigFromJson(j: Json): (r: Result<ConfigSchema, string>)
    ensures r.Ok? <==> j.JObj? && "test" in j.fields && j.fields["test"].JBool?
    ensures r.Ok? ==> j.fields["test"] == JBool(r.value.test)
  {
    if j.JObj? && "test" in j.fields && j.fields["test"].JBool? then Ok(ConfigSchema(j.fields["test"].b))
    else Err("test: Field required")
  }

  function InputFromJson(j: Json): (r: Result<InputSchema, string>)
    ensures r.Ok? <==> j.JObj? && MessagesFieldOk(j.fields, "messages") && BoolFieldOk(j.fields, "is_completed")
    ensures r.Ok? ==> r.value.messages == OptMessagesFromJson(j.fields, "messages").value
    ensures r.Ok? ==> r.value.isCompleted == OptBoolFromJson(j.fields, "is_completed").value
    ensures j == JObj(map[]) ==> r == Ok(InputSchema(None, None))
  {
    if !j.JObj? then Err("InputSchema: not an object")
    else
      match OptMessagesFromJson(j.fields, "messages")
      case Err(e) => Err(e)
      case Ok(ms) =>
        match OptBoolFromJson(j.fields, "is_completed")
        case Err(e) => Err(e)
        case Ok(done) => Ok(InputSchema(ms, done))
  }

  function InputToJson(x: InputSchema): Json
  {
    JObj(map["messages" := OptMessagesToJson(x.messages), "is_completed" := OptBoolToJson(x.isCompleted)])
  }

  function OutputFromJson(j: Json): (r: Result<OutputSchema, string>)
    ensures r.Ok? <==>
      j.JObj? && MessagesFieldOk(j.fields, "messages") && BoolFieldOk(j.fields, "is_completed")
      && StringFieldOk(j.fields, "final_email")
    ensures r.Ok? ==> r.value.messages == OptMessagesFromJson(j.fields, "messages").value
    ensures r.Ok? ==> r.value.isCompleted == OptBoolFromJson(j.fields, "is_completed").value
    ensures r.Ok? ==> r.value.finalEmail == OptStringFromJson(j.fields, "final_email").value
    ensures j == JObj(map[]) ==> r == Ok(OutputSchema(None, None, None))
  {
    if !j.JObj? then Err("OutputSchema: not an object")
    else
      match OptMessagesFromJson(j.fields, "messages")
      case Err(e) => Err(e)
      case Ok(ms) =>
        match OptBoolFromJson(j.fields, "is_completed")
        case Err(e) => Err(e)
        case Ok(done) =>
          match OptStringFromJson(j.fields, "final_email")
          case Err(e) => Err(e)
          case Ok(email) => Ok(OutputSchema(ms, done, email))
  }

  function OutputToJson(x: OutputSchema): Json
  {
    JObj(map[
      "messages" := OptMessagesToJson(x.messages),
      "is_completed" := OptBoolToJson(x.isCompleted),
      "final_email" := OptStringToJson(x.finalEmail)])
  }

  lemma InputRoundTrip(x: InputSchema)
    ensures InputFromJson(InputToJson(x)) == Ok(x)
  {
    if x.messages.Some? { MessagesRoundTrip(x.messages.value); }
  }

  lemma OutputRoundTrip(x: OutputSchema)
    ensures OutputFromJson(OutputToJson(x)) == Ok(x)
  {
    if x.messages.Some? { MessagesRoundTrip(x.messages.value); }
  }
}
