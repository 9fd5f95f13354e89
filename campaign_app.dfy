/**
 * The marketing campaign's own graph nodes (marketing-campaign/src/marketing_campaign/app.py):
 * `process_inputs` and `prepare_output` update the state in place,
 * `check_final_email` routes on it.
 */
module CampaignApp {
  import opened Wrappers
  import opened Strings
  import MC = MailComposer
  import ER = EmailReviewer
  import opened CampaignState

  /** The exceptions process_inputs raises. */
  datatype NodeError =
    | NoMessages                   // IndexError from messages[-1]
    | MissingAddresses             // ValueError: an address is not configured
    | MissingConfigKey(key: string)      // KeyError
    | InvalidAudience(value: string)     // ValueError from the enum

  /** The user accepts the composed email by answering "OK" in any letter case. */
  predicate IsOk(s: string)
  {
    Upper(s) == "OK"
  }

  /** Exactly the four spellings of "ok" count as acceptance. */
  lemma IsOkExactly(s: string)
    ensures IsOk(s) <==> s in {"ok", "Ok", "oK", "OK"}
  {
    if IsOk(s) {
      assert |s| == 2;
      assert UpperChar(s[0]) == 'O' && UpperChar(s[1]) == 'K';
      assert s[0] == 'o' || s[0] == 'O';
      assert s[1] == 'k' || s[1] == 'K';
      assert s == [s[0], s[1]];
    }
    if s in {"ok", "Ok", "oK", "OK"} {
      assert Upper(s) == [UpperChar(s[0]), UpperChar(s[1])];
    }
  }

  /**
   * process_inputs: reads the last message, checks that both addresses are
   * configured, stores them and the acceptance flag, parses the audience and
   * hands a copy of the messages to the mail composer. An exception leaves
   * whatever was assigned before it.
   */
  method ProcessInputs(state: OverallState, cfg: map<string, string>) returns (error: Option<NodeError>)
    modifies state
    ensures state.messages == old(state.messages) && state.operationLogs == old(state.operationLogs)
    ensures state.hasReviewerCompleted == old(state.hasReviewerCompleted)
    ensures state.hasSenderCompleted == old(state.hasSenderCompleted)
    ensures state.emailReviewerState == old(state.emailReviewerState) && state.sendgridState == old(state.sendgridState)
    ensures old(state.messages) == [] ==> error == Some(NoMessages) && unchanged(state)
    ensures old(state.messages) != [] && ("recipient_email_address" !in cfg || "sender_email_address" !in cfg) ==>
      error == Some(MissingAddresses) && unchanged(state)
    ensures old(state.messages) != [] && "recipient_email_address" in cfg && "sender_email_address" in cfg ==>
      var accepted := IsOk(old(state.messages)[|old(state.messages)| - 1].content);
      && state.recipientEmailAddress == Some(cfg["recipient_email_address"])
      && state.senderEmailAddress == Some(cfg["sender_email_address"])
      && state.hasComposerCompleted == Some(accepted)
      && ("target_audience" !in cfg ==>
            error == Some(MissingConfigKey("target_audience"))
            && state.targetAudience == old(state.targetAudience) && state.mailcomposerState == old(state.mailcomposerState))
      && ("target_audience" in cfg && ER.ParseAudience(cfg["target_audience"]).None? ==>
            error == Some(InvalidAudience(cfg["target_audience"]))
            && state.targetAudience == old(state.targetAudience) && state.mailcomposerState == old(state.mailcomposerState))
      && ("target_audience" in cfg && ER.ParseAudience(cfg["target_audience"]).Some? ==>
            error.None?
            && state.targetAudience == ER.ParseAudience(cfg["target_audience"])
            && state.mailcomposerState == Some(MailComposerState(Some(MC.InputSchema(Some(old(state.messages)), Some(accepted))), None)))
  {
    if state.messages == [] {
      return Some(NoMessages);
    }
    var userMessage := state.messages[|state.messages| - 1].content;
    if "recipient_email_address" !in cfg || "sender_email_address" !in cfg {
      return Some(MissingAddresses);
    }
    state.recipientEmailAddress := Some(cfg["recipient_email_address"]);
    state.senderEmailAddress := Some(cfg["sender_email_address"]);
    if Upper(userMessage) == "OK" {
      state.hasComposerCompleted := Some(true);
    } else {
      state.hasComposerCompleted := Some(false);
    }
    if "target_audience" !in cfg {
      return Some(MissingConfigKey("target_audience"));
    }
    var audience := ER.ParseAudience(cfg["target_audience"]);
    if audience.None? {
      return Some(InvalidAudience(cfg["target_audience"]));
    }
    state.targetAudience := audience;
    state.mailcomposerState := Some(MailComposerState(Some(MC.InputSchema(Some(state.messages), state.hasComposerCompleted)), None));
    error := None;
  }

  /** The composer's output messages when there are any, else none. */
  function ComposedMessages(m: Option<MailComposerState>): (ms: seq<MC.Message>)
    ensures ms != [] <==> m.Some? && m.value.output.Some? && m.value.output.value.messages.Some?
                          && m.value.output.value.messages.value != []
    ensures ms != [] ==> ms == m.value.output.value.messages.value
  {
    if m.Some? && m.value.output.Some? && m.value.output.value.messages.Some? then m.value.output.value.messages.value
    else []
  }

  /** The send result, when the bridge reported a non-empty one. */
  function SendResult(s: Option<SendGridState>): (r: Option<string>)
    ensures r.Some? <==> s.Some? && s.value.output.Some? && s.value.output.value.result != ""
    ensures r.Some? ==> r.value == s.value.output.value.result
  {
    if s.Some? && s.value.output.Some? && s.value.output.value.result != "" then Some(s.value.output.value.result)
    else None
  }

  /**
   * prepare_output: the conversation becomes the composer's output messages
   * (or none), and a non-empty send result is logged.
   */
  method PrepareOutput(state: OverallState)
    modifies state
    ensures state.messages == ComposedMessages(old(state.mailcomposerState))
    ensures SendResult(old(state.sendgridState)).Some? ==>
      state.operationLogs == old(state.operationLogs) + ["Email Send Operation: " + SendResult(old(state.sendgridState)).value]
    ensures SendResult(old(state.sendgridState)).None? ==> state.operationLogs == old(state.operationLogs)
    ensures state.mailcomposerState == old(state.mailcomposerState) && state.sendgridState == old(state.sendgridState)
    ensures state.targetAudience == old(state.targetAudience) && state.hasComposerCompleted == old(state.hasComposerCompleted)
    ensures state.hasReviewerCompleted == old(state.hasReviewerCompleted) && state.hasSenderCompleted == old(state.hasSenderCompleted)
    ensures state.emailReviewerState == old(state.emailReviewerState)
    ensures state.recipientEmailAddress == old(state.recipientEmailAddress) && state.senderEmailAddress == old(state.senderEmailAddress)
  {
    var m := state.mailcomposerState;
    if m.Some? && m.value.output.Some? && m.value.output.value.messages.Some? && m.value.output.value.messages.value != [] {
      state.messages := m.value.output.value.messages.value;
    } else {
      state.messages := [];
    }
    var s := state.sendgridState;
    if s.Some? && s.value.output.Some? && s.value.output.value.result != "" {
      state.operationLogs := state.operationLogs + ["Email Send Operation: " + s.value.output.value.result];
    }
  }

  /** check_final_email: "done" once the composer produced a non-empty final email, else back to the user. */
  function CheckFinalEmail(m: Option<MailComposerState>): (next: string)
    ensures next == "done" <==>
      m.Some? && m.value.output.Some? && m.value.output.value.finalEmail.Some? && m.value.output.value.finalEmail.value != ""
    ensures next != "done" ==> next == "user"
  {
    if m.Some? && m.value.output.Some? && m.value.output.value.finalEmail.Some? && m.value.output.value.finalEmail.value != "" then "done"
    else "user"
  }

  /** After process_inputs succeeds the composer has no output yet, so the graph routes back to the user. */
  lemma FreshComposerRoutesToUser(messages: seq<MC.Message>, accepted: bool)
    ensures CheckFinalEmail(Some(MailComposerState(Some(MC.InputSchema(Some(messages), Some(accepted))), None))) == "user"
    ensures ComposedMessages(Some(MailComposerState(Some(MC.InputSchema(Some(messages), Some(accepted))), None))) == []
  {
  }
}
