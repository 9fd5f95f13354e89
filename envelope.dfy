/**
 * The moderator's control messages (network_of_assistants/moderator/agent.py):
 * three record types told apart by their string field `type`, and the
 * decision record `ModelAnswer`, an ordered list of them under "messages".
 * `Decode` is the validation the declared schema describes; `Encode` writes
 * an envelope as the flat JSON record the moderator appends and publishes.
 */
module Envelope {
  import opened Json
  import opened Wrappers

  datatype Envelope =
    | ChatMessage(author: string, message: string)
    | RequestToSpeak(author: string, target: string)
    | InviteToChat(author: string, target: string, summary: string)

  /** Why a JSON value is not one of the three declared records. */
  datatype DecodeError =
    | NotAnObject
    | MissingDiscriminator
    | UnknownDiscriminator(tag: Json)
    | MissingField(name: string)
    | NotAString(name: string)
    | NotAList(name: string)

  /** The value of the discriminator field `type` of each variant. */
  function Tag(e: Envelope): string
  {
    match e
    case ChatMessage(_, _) => "ChatMessage"
    case RequestToSpeak(_, _) => "RequestToSpeak"
    case InviteToChat(_, _, _) => "InviteToChat"
  }

  /** The flat record `{"type": ..., <the variant's fields>}`. */
  function Encode(e: Envelope): Json
  {
    match e
    case ChatMessage(a, m) =>
      JObj(map["type" := JStr("ChatMessage"), "author" := JStr(a), "message" := JStr(m)])
    case RequestToSpeak(a, t) =>
      JObj(map["type" := JStr("RequestToSpeak"), "author" := JStr(a), "target" := JStr(t)])
    case InviteToChat(a, t, s) =>
      JObj(map["type" := JStr("InviteToChat"), "author" := JStr(a), "target" := JStr(t), "summary" := JStr(s)])
  }

  /** A required string field. */
  function RequiredString(d: map<string, Json>, name: string): Result<string, DecodeError>
  {
    if name !in d then Err(MissingField(name))
    else if d[name].JStr? then Ok(d[name].s)
    else Err(NotAString(name))
  }

  /** A string field with a default, as `message: str = ""` of ChatMessage. */
  function DefaultedString(d: map<string, Json>, name: string, default: string): Result<string, DecodeError>
  {
    if name !in d then Ok(default) else RequiredString(d, name)
  }

  /** Reads one record as the variant its `type` names; fields other than the variant's are ignored. */
  function Decode(j: Json): Result<Envelope, DecodeError>
  {
    if !j.JObj? then Err(NotAnObject)
    else
      var d := j.fields;
      if "type" !in d then Err(MissingDiscriminator)
      else if d["type"] == JStr("ChatMessage") then
        match RequiredString(d, "author")
        case Err(e) => Err(e)
        case Ok(a) =>
          match DefaultedString(d, "message", "")
          case Err(e) => Err(e)
          case Ok(m) => Ok(ChatMessage(a, m))
      else if d["type"] == JStr("RequestToSpeak") then
        match RequiredString(d, "author")
        case Err(e) => Err(e)
        case Ok(a) =>
          match RequiredString(d, "target")
          case Err(e) => Err(e)
          case Ok(t) => Ok(RequestToSpeak(a, t))
      else if d["type"] == JStr("InviteToChat") then
        match RequiredString(d, "author")
        case Err(e) => Err(e)
        case Ok(a) =>
          match RequiredString(d, "target")
          case Err(e) => Err(e)
          case Ok(t) =>
            match RequiredString(d, "summary")
            case Err(e) => Err(e)
            case Ok(s) => Ok(InviteToChat(a, t, s))
      else Err(UnknownDiscriminator(d["type"]))
  }

  /** An envelope written as a flat record and read back is the same envelope. */
  lemma RoundTrip(e: Envelope)
    ensures Decode(Encode(e)) == Ok(e)
  {
  }

  /**
   * What `Decode` accepts agrees with the envelope it returns: the record names
   * the variant in `type` and holds each of the variant's fields with the same
   * value, except that an absent `message` stands for the empty message.
   */
  lemma DecodeAgrees(j: Json, e: Envelope)
    requires Decode(j) == Ok(e)
    ensures j.JObj? && "type" in j.fields && j.fields["type"] == JStr(Tag(e))
    ensures forall k :: k in Encode(e).fields && k in j.fields ==> j.fields[k] == Encode(e).fields[k]
    ensures forall k :: k in Encode(e).fields && k !in j.fields ==> k == "message" && e == ChatMessage(e.author, "")
  {
  }

  /** A record whose `type` is missing or names none of the three variants is rejected. */
  lemma UnknownTagRejected(j: Json)
    requires j.JObj?
    requires "type" !in j.fields
      || j.fields["type"] !in {JStr("ChatMessage"), JStr("RequestToSpeak"), JStr("InviteToChat")}
    ensures Decode(j).Err?
    ensures "type" in j.fields ==> Decode(j) == Err(UnknownDiscriminator(j.fields["type"]))
  {
  }

  /** The records of a list, in order. */
  function EncodeAll(es: seq<Envelope>): (js: seq<Json>)
    ensures |js| == |es|
    ensures forall i :: 0 <= i < |es| ==> js[i] == Encode(es[i])
  {
    seq(|es|, i requires 0 <= i < |es| => Encode(es[i]))
  }

  /** Reads every item of a list; the first item that is not an envelope rejects the whole list. */
  function DecodeAll(items: seq<Json>): (r: Result<seq<Envelope>, DecodeError>)
    ensures r.Ok? ==> |r.value| == |items| && forall i :: 0 <= i < |items| ==> Decode(items[i]) == Ok(r.value[i])
    ensures r.Err? ==> exists i :: 0 <= i < |items| && Decode(items[i]) == Err(r.error) && forall k :: 0 <= k < i ==> Decode(items[k]).Ok?
  {
    if items == [] then Ok([])
    else
      match Decode(items[0])
      case Err(e) => Err(e)
      case Ok(e0) =>
        match DecodeAll(items[1..])
        case Err(e) => Err(e)
        case Ok(rest) => Ok([e0] + rest)
  }

  /** `ModelAnswer`: `{"messages": [<envelope>, ...]}`. */
  function EncodeAnswer(es: seq<Envelope>): Json
  {
    JObj(map["messages" := JList(EncodeAll(es))])
  }

  function DecodeAnswer(j: Json): Result<seq<Envelope>, DecodeError>
  {
    if !j.JObj? then Err(NotAnObject)
    else if "messages" !in j.fields then Err(MissingField("messages"))
    else if !j.fields["messages"].JList? then Err(NotAList("messages"))
    else DecodeAll(j.fields["messages"].items)
  }

  /** A decision written as `ModelAnswer` and read back is the same ordered list. */
  lemma {:induction false} AnswerRoundTrip(es: seq<Envelope>)
    ensures DecodeAnswer(EncodeAnswer(es)) == Ok(es)
  {
    DecodeAllEncodeAll(es);
  }

  lemma DecodeAllEncodeAll(es: seq<Envelope>)
    ensures DecodeAll(EncodeAll(es)) == Ok(es)
  {
    var js := EncodeAll(es);
    forall i | 0 <= i < |es| ensures Decode(js[i]) == Ok(es[i]) {
      RoundTrip(es[i]);
    }
    var r := DecodeAll(js);
    assert r.Ok?;
    assert forall i :: 0 <= i < |es| ==> r.value[i] == es[i];
    assert r.value == es;
  }
}
