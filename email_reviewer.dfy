/**
 * The email reviewer's schema (marketing-campaign/src/marketing_campaign/email_reviewer.py):
 * the target-audience enum and the input, output and config records, read
 * from JSON as the declarations require (strict types, no coercion).
 */
module EmailReviewer {
  import opened Json
  import opened Wrappers

  datatype TargetAudience = General | Technical | Business | Academic

  function AudienceValue(a: TargetAudience): string
  {
    match a
    case General => "general"
    case Technical => "technical"
    case Business => "business"
    case Academic => "academic"
  }

  /** `TargetAudience(value)`: the member with that value; any other value raises ValueError. */
  function ParseAudience(s: string): (r: Option<TargetAudience>)
    ensures r.Some? <==> s in {"general", "technical", "business", "academic"}
    ensures r.Some? ==> AudienceValue(r.value) == s
  {
    if s == "general" then Some(General)
    else if s == "technical" then Some(Technical)
    else if s == "business" then Some(Business)
    else if s == "academic" then Some(Academic)
    else None
  }

  lemma ParseAudienceValue(a: TargetAudience)
    ensures ParseAudience(AudienceValue(a)) == Some(a)
  {
  }

  /** InputSchema: the email and its audience, both required. */
  datatype InputSchema = InputSchema(email: string, targetAudience: TargetAudience)

  /** OutputSchema: `correct` required, the corrected email optional. */
  datatype OutputSchema = OutputSchema(correct: bool, correctedEmail: Option<string>)

  /** ConfigSchema is a root model over any value: every JSON value is a valid config. */
  type ConfigSchema = Json

  function InputToJson(x: InputSchema): Json
  {
    JObj(map["email" := JStr(x.email), "target_audience" := JStr(AudienceValue(x.targetAudience))])
  }

  function InputFromJson(j: Json): (r: Result<InputSchema, string>)
    ensures r.Ok? <==>
      j.JObj? && "email" in j.fields && j.fields["email"].JStr?
      && "target_audience" in j.fields && j.fields["target_audience"].JStr?
      && ParseAudience(j.fields["target_audience"].s).Some?
    ensures r.Ok? ==> j.fields["email"] == JStr(r.value.email)
    ensures r.Ok? ==> j.fields["target_audience"] == JStr(AudienceValue(r.value.targetAudience))
  {
    if !j.JObj? then Err("InputSchema: not an object")
    else if "email" !in j.fields || !j.fields["email"].JStr? then Err("email: Field required")
    else if "target_audience" !in j.fields || !j.fields["target_audience"].JStr? then Err("target_audience: Field required")
    else
      match ParseAudience(j.fields["target_audience"].s)
      case None => Err("target_audience: not a valid TargetAudience")
      case Some(a) => Ok(InputSchema(j.fields["email"].s, a))
  }

  function OutputToJson(x: OutputSchema): Json
  {
    JObj(map[
      "correct" := JBool(x.correct),
      "corrected_email" := if x.correctedEmail.None? then JNull else JStr(x.correctedEmail.value)])
  }

  function OutputFromJson(j: Json): (r: Result<OutputSchema, string>)
    ensures r.Ok? <==>
      j.JObj? && "correct" in j.fields && j.fields["correct"].JBool?
      && ("corrected_email" !in j.fields || j.fields["corrected_email"] == JNull || j.fields["corrected_email"].JStr?)
    ensures r.Ok? ==> j.fields["correct"] == JBool(r.value.correct)
    ensures r.Ok? ==> (r.value.correctedEmail.None? <==> "corrected_email" !in j.fields || j.fields["corrected_email"] == JNull)
    ensures r.Ok? && r.value.correctedEmail.Some? ==> j.fields["corrected_email"] == JStr(r.value.correctedEmail.value)
  {
    if !j.JObj? then Err("OutputSchema: not an object")
    else if "correct" !in j.fields || !j.fields["correct"].JBool? then Err("correct: Field required")
    else if "corrected_email" !in j.fields || j.fields["corrected_email"] == JNull then
      Ok(OutputSchema(j.fields["correct"].b, None))
    else if j.fields["corrected_email"].JStr? then
      Ok(OutputSchema(j.fields["correct"].b, Some(j.fields["corrected_email"].s)))
    else Err("corrected_email: Input should be a valid string")
  }

  lemma InputRoundTrip(x: InputSchema)
    ensures InputFromJson(InputToJson(x)) == Ok(x)
  {
    ParseAudienceValue(x.targetAudience);
  }

  lemma OutputRoundTrip(x: OutputSchema)
    ensures OutputFromJson(OutputToJson(x)) == Ok(x)
  {
  }
}
