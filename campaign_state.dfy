/**
 * The marketing campaign's graph state (marketing-campaign/src/marketing_campaign/state.py):
 * the run configuration, the per-agent sub-states and the overall state that
 * the graph nodes update in place.
 */
module CampaignState {
  import opened Json
  import opened Wrappers
  import MC = MailComposer
  import ER = EmailReviewer

  /** ConfigModel: all three fields are required. */
  datatype ConfigModel = ConfigModel(recipientEmailAddress: string, senderEmailAddress: string, targetAudience: ER.TargetAudience)

  function ConfigToJson(c: ConfigModel): Json
  {
    JObj(map[
      "recipient_email_address" := JStr(c.recipientEmailAddress),
      "sender_email_address" := JStr(c.senderEmailAddress),
      "target_audience" := JStr(ER.AudienceValue(c.targetAudience))])
  }

  function ConfigFromJson(j: Json): (r: Result<ConfigModel, string>)
    ensures r.Ok? <==>
      && j.JObj?
      && "recipient_email_address" in j.fields && j.fields["recipient_email_address"].JStr?
      && "sender_email_address" in j.fields && j.fields["sender_email_address"].JStr?
      && "target_audience" in j.fields && j.fields["target_audience"].JStr?
      && ER.ParseAudience(j.fields["target_audience"].s).Some?
    ensures r.Ok? ==> j.fields["recipient_email_address"] == JStr(r.value.recipientEmailAddress)
    ensures r.Ok? ==> j.fields["sender_email_address"] == JStr(r.value.senderEmailAddress)
    ensures r.Ok? ==> j.fields["target_audience"] == JStr(ER.AudienceValue(r.value.targetAudience))
  {
    if !j.JObj? then Err("ConfigModel: not an object")
    else
      var d := j.fields;
      if "recipient_email_address" !in d || !d["recipient_email_address"].JStr? then Err("recipient_email_address: Field required")
      else if "sender_email_address" !in d || !d["sender_email_address"].JStr? then Err("sender_email_address: Field required")
      else if "target_audience" !in d || !d["target_audience"].JStr? then Err("target_audience: Field required")
      else
        match ER.ParseAudience(d["target_audience"].s)
        case None => Err("target_audience: not a valid TargetAudience")
        case Some(a) => Ok(ConfigModel(d["recipient_email_address"].s, d["sender_email_address"].s, a))
  }

  lemma ConfigRoundTrip(c: ConfigModel)
    ensures ConfigFromJson(ConfigToJson(c)) == Ok(c)
  {
    ER.ParseAudienceValue(c.targetAudience);
  }

  /** Each sub-state: input and output both optional, None by default. */
  datatype MailComposerState = MailComposerState(input: Option<MC.InputSchema>, output: Option<MC.OutputSchema>)
  datatype MailReviewerState = MailReviewerState(input: Option<ER.InputSchema>, output: Option<ER.OutputSchema>)

  /** The send bridge's output; the nodes read only its result text. */
  datatype SendGridOutput = SendGridOutput(result: string)
  /** The send bridge's sub-state; its input is the bridge's request, kept as a value. */
  datatype SendGridState = SendGridState(input: Option<Json>, output: Option<SendGridOutput>)

  /** OverallState: the state every node of the campaign graph reads and updates. */
  class OverallState {
    var messages: seq<MC.Message>
    var operationLogs: seq<string>
    var hasComposerCompleted: Option<bool>
    var hasReviewerCompleted: Option<bool>
    var hasSenderCompleted: Option<bool>
    var mailcomposerState: Option<MailComposerState>
    var emailReviewerState: Option<MailReviewerState>
    var targetAudience: Option<ER.TargetAudience>
    var sendgridState: Option<SendGridState>
    var recipientEmailAddress: Option<string>
    var senderEmailAddress: Option<string>

    /** The declared defaults: empty lists, and None everywhere else. */
    constructor ()
      ensures messages == [] && operationLogs == []
      ensures hasComposerCompleted.None? && hasReviewerCompleted.None? && hasSenderCompleted.None?
      ensures mailcomposerState.None? && emailReviewerState.None? && sendgridState.None?
      ensures targetAudience.None? && recipientEmailAddress.None? && senderEmailAddress.None?
    {
      messages, operationLogs := [], [];
      hasComposerCompleted, hasReviewerCompleted, hasSenderCompleted := None, None, None;
      mailcomposerState, emailReviewerState, sendgridState := None, None, None;
      targetAudience, recipientEmailAddress, senderEmailAddress := None, None, None;
    }
  }
}
