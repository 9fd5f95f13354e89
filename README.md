# Agent demos: a verified model

This project models the logic of a set of agent demos in Dafny and proves properties of that model:

- **Moderator** of a network of assistants. It builds a catalog of agents from a directory of JSON agent specs and renders it for a prompt. On every message from the shared channel it asks a decision model for an ordered list of control messages. It then applies, records, judges and publishes each one. When the decision cannot be parsed, it publishes a fallback.
- **Control messages** of the moderator. `ChatMessage`, `RequestToSpeak` and `InviteToChat` are told apart by their `type` field. `ModelAnswer` is an ordered list of them.
- **AGP remote agent.** Its request validator is an ordered chain of checks whose first failure decides the reply.
- **Three graph clients of the remote agent**: the Studio client, the API client and the REST client. Each turns the graph state into a request and the reply (or the failure) into a state update.
- **The identity** under which the remote agent's server joins the gateway.
- **The Weather Vibes ACP server's run store**: create, process in the background, read, and a bounded wait.
- **The Weather Vibes agent's request handler**: its bounded search history, three tool calls, and the assembly of the response.
- **The marketing campaign**:
  - the record schemas of its mail composer and email reviewer;
  - its graph state;
  - its own graph nodes `process_inputs`, `prepare_output` and `check_final_email`.
- **The requirements upgrader**, which pins each requirement line to the version installed after an upgrade.
- **The CORS origins setting reader.**

JSON values are the datatype `Json.Json`: null, booleans, integers, strings, lists, and objects as maps. Python truthiness is `Json.Truthy`. Dict insertion order matters only in the moderator's catalog, which is a sequence of pairs. Everything the code cannot see is a parameter of the model:

- the language model and the evaluator;
- the gateway and the HTTP transport;
- the tools;
- pip;
- the requirement parser;
- the file system.

Code that updates state in place is modelled as classes:

- the moderator's callback state (`Moderator.Moderator`);
- the run store (`WeatherServer.AcpServer`);
- the agent's search history (`WeatherAgent.WeatherVibesAgent`);
- the gateway identity (`AgpIdentity.AgpAgent`);
- the campaign's `OverallState`.

Loops are methods proved against the functions that specify them.

## Model

| member | source | states |
|---|---|---|
| Strings.Strip | network_of_assistants/moderator/main.py:19 | `str.strip()`: the result is a contiguous slice of the input with no whitespace at either end, whitespace being every character `str.isspace()` accepts |
| Strings.StripCutsOnlySpace | remote_agent_ap/update_req.py:53 | everything `strip()` cuts, before and after the slice, is whitespace |
| Strings.Lower | network_of_assistants/moderator/main.py:19 | `lower()` keeps the length and maps each character to its lower case |
| Strings.Upper | marketing-campaign/src/marketing_campaign/app.py:56 | `upper()` keeps the length and maps each character to its upper case |
| Strings.ReplaceChar | network_of_assistants/moderator/main.py:19 | `replace(" ", "-")` keeps the length and swaps exactly the matching characters |
| Strings.Split | remote_graphs/app/core/config.py:15 | `split(c)` yields at least one piece, and no piece holds the separator |
| Strings.SplitJoin | remote_graphs/app/core/config.py:15 | joining pieces that hold no separator and splitting again gives the pieces back |
| Strings.JoinSplit | network_of_assistants/moderator/main.py:32 | splitting and re-joining with the same separator gives the string back |
| Moderator.NormaliseName | network_of_assistants/moderator/main.py:19 | a catalog key holds no space and no upper-case letter, and has no surrounding whitespace |
| Moderator.NormaliseIdempotent | network_of_assistants/moderator/main.py:19 | normalising a catalog key again leaves it unchanged |
| Moderator.Put | network_of_assistants/moderator/main.py:19-21 | dict assignment: the key now maps to the value, every other key keeps its value, the key set grows by the key, and keys stay distinct |
| Moderator.Contributions | network_of_assistants/moderator/main.py:13-23 | each listed file contributes in listing order: nothing for a non-JSON file or one whose open or parse failure is caught, else its key and description or an uncaught error (a missing field, or text that is not UTF-8) |
| Moderator.Entry | network_of_assistants/moderator/main.py:13-23 | a file fails the listing if and only if it is a `.json` file whose read is not a caught failure and whose content is not a dict with `description` and a string `name`; undecodable text fails with its own error; a kept entry is the normalised name and the description |
| Moderator.CollectDistinct | network_of_assistants/moderator/main.py:10-25 | a successful listing holds each agent key once |
| Moderator.CollectKeys | network_of_assistants/moderator/main.py:10-25 | a key is in the catalog if and only if some file provides it |
| Moderator.CollectLastWins | network_of_assistants/moderator/main.py:19-21 | a key's description comes from the last file that provides it |
| Moderator.CollectFailure | network_of_assistants/moderator/main.py:16-23 | the listing fails if and only if some file contributes an error, and then with the first such file's error |
| Moderator.CatalogFailure | network_of_assistants/moderator/main.py:16-23 | the catalog fails if and only if some `.json` file is neither a caught failure nor a well-formed spec, and the error is the first failing file's, every earlier file having been accepted |
| Moderator.ListAvailableAgents | network_of_assistants/moderator/main.py:10-25 | the loop over the directory listing computes exactly the catalog (or first error) the listing specifies |
| Moderator.RosterView | network_of_assistants/moderator/main.py:64-68 | the catalog restricted to the roster: an entry is kept if and only if its key is in the roster |
| Moderator.RosterViewDropsUnknown | network_of_assistants/moderator/main.py:64-68 | a roster member missing from the catalog has no entry in the view |
| Moderator.AgentLines | network_of_assistants/moderator/main.py:28-31 | one line `- name: description` per catalog entry, in catalog order |
| Moderator.AgentsToStringLines | network_of_assistants/moderator/main.py:28-32 | the newline-joined rendering splits back into exactly one line per entry |
| Moderator.Judge | network_of_assistants/moderator/main.py:94-98 | the verdict is "no judgement" if and only if the score contains "NA"; otherwise "not best-fitting" if and only if it contains "0" |
| Moderator.NoRequestKeepsGrant | network_of_assistants/moderator/agent.py:25-30 | answers without a RequestToSpeak leave the right to speak unchanged |
| Moderator.GrantIsLastRequest | network_of_assistants/moderator/agent.py:25-30 | after publishing, the right to speak belongs to the target of the last RequestToSpeak, or to nobody when that target is the user proxy |
| Moderator.FallbackReturnsControl | network_of_assistants/moderator/main.py:105-120 | the fallback keeps the one-speaker convention, invites nobody and hands control back to the user |
| Moderator.Moderator.constructor | network_of_assistants/moderator/main.py:49-51 | empty history, empty roster, nothing published |
| Moderator.Moderator.OnMessageReceived | network_of_assistants/moderator/main.py:53-120 | the message is recorded first. A non-chat message or a failed listing changes nothing else. Otherwise the decision gets the rendered catalog, the rendered roster view, the history and the query, and its answers (or the fallback) are published in order |
| Moderator.Moderator.PublishAnswers | network_of_assistants/moderator/main.py:78-100 | history, roster, outbox and right to speak grow by exactly the answers, in order. Each verdict is the evaluator's reading of its answer, given the history up to and including that answer |
| Moderator.Moderator.PublishStep | network_of_assistants/moderator/main.py:79-100 | one answer is applied, recorded, judged and published |
| Moderator.Moderator.Publish | network_of_assistants/moderator/main.py:79-83 | an InviteToChat adds its target to the roster; the answer is appended to the history and to the outbox |
| Moderator.Moderator.PublishFallback | network_of_assistants/moderator/main.py:102-120 | the failure notice and then the RequestToSpeak to the user proxy are recorded and published; the roster is unchanged and nobody holds the floor |
| Envelope.RoundTrip | network_of_assistants/moderator/agent.py:115-129 | an envelope written as its flat record and read back is the same envelope |
| Envelope.DecodeAgrees | network_of_assistants/moderator/agent.py:115-129 | an accepted record names the variant in `type` and holds the variant's fields with the decoded values; only an absent `message` defaults to "" |
| Envelope.UnknownTagRejected | network_of_assistants/moderator/agent.py:131-137 | a record whose discriminator is missing or unknown is rejected |
| Envelope.EncodeAll | network_of_assistants/moderator/main.py:83 | the records of a list of envelopes, one per envelope, in order |
| Envelope.DecodeAll | network_of_assistants/moderator/agent.py:131-137 | a list is accepted only when every item decodes, and then item by item; a rejection carries the error of the first item that does not decode |
| Envelope.AnswerRoundTrip | network_of_assistants/moderator/agent.py:131-137 | a ModelAnswer written and read back is the same ordered list |
| Envelope.DecodeAllEncodeAll | network_of_assistants/moderator/agent.py:131-137 | every list of envelopes survives encoding and decoding |
| RemoteServer.ErrorReply | remote_agent_agp/app/main.py:50-59 | an error record has exactly the fields "message" and "error", holding the message and the code |
| RemoteServer.MessageParsing | remote_agent_agp/app/main.py:62-131 | an accepted request gets the success reply, and only an accepted one does. Once agent_id, route and metadata pass, each later check has its own 500 reply: input not a dict, messages not a non-empty list, first message not a dict, content missing. Every other reply is an error record with code 422, 404 or 500. It raises exactly on a non-dict payload, or, once agent_id and route pass, on a metadata value that is neither None nor a dict or on a missing metadata with a valid first message |
| RemoteServer.AgentIdCheckedFirst | remote_agent_agp/app/main.py:74-75 | a missing or empty agent_id gets 422, whatever else the payload holds |
| RemoteServer.RouteCheckedSecond | remote_agent_agp/app/main.py:79-81 | with a valid agent_id, any route other than "/runs" gets 404 |
| RemoteServer.OnlyFirstContentMatters | remote_agent_agp/app/main.py:105-131 | changing only the first message's content from None to a value turns the 500 into the success reply |
| GraphMessages.LastOf | remote_agent_agp/client_studio/agp.py:122-126 | `v[-1]` succeeds exactly on a non-empty list or string, and gives its last element |
| GraphMessages.DecodeResponse | remote_agent_agp/client_studio/agp.py:67-83 | the decoded reply is an error record if and only if the reply or its output is not a dict; otherwise it carries the output's messages and the defaults |
| ClientStudio.StudioReceive | remote_agent_agp/client_studio/agp.py:94-126 | an error reply becomes one HumanMessage holding the failure record; otherwise the last decoded message is the update, or the node raises when there is none |
| ClientStudio.NodeRemoteAgp | remote_agent_agp/client_studio/agp.py:129-153 | an empty state sends nothing and gets the error message; a missing gateway raises; otherwise exactly one request is sent, holding exactly the fixed agent, route, model, run id and converted messages, and the reply is classified |
| ClientStudio.StudioPassesRouting | remote_agent_agp/client_studio/agp.py:141-148 | the Studio request always passes the validator's agent_id and route checks |
| ClientStudio.StudioRequestAccepted | remote_agent_agp/client_studio/agp.py:141-148 | when the first converted message has content, the validator replies with success and the client turns that reply into the acknowledgement message |
| ClientStudio.StudioSeesServerError | remote_agent_agp/client_studio/agp.py:110-118 | a validator error reaches the graph as one HumanMessage carrying its code and message |
| ClientStudio.StudioEmptyReplyRaises | remote_agent_agp/client_studio/agp.py:122-126 | a reply with an empty message list makes the node raise |
| ApiClient.ApiReceive | remote_agent_agp/api_client/agp.py:68-87 | an error reply becomes the failure message; otherwise reading succeeds if and only if the output is a dict whose message list has a last element, and the result is the one-element list holding it; a non-dict reply fails; no decoder guards the reads |
| ApiClient.NodeRemoteAgp | remote_agent_agp/api_client/agp.py:100-121 | an empty state sends nothing; otherwise exactly one request to "/api/v1/runs" is sent and its reply is classified |
| ApiClient.ApiTakesLastMessage | remote_agent_agp/api_client/agp.py:82-87 | a success reply yields a one-element list holding the assistant's acknowledgement |
| ApiClient.ApiRouteRefusedByAgpApp | remote_agent_agp/api_client/agp.py:111-118 | sent to the AGP app's validator, this request is refused with 404, and the client passes that on as one HumanMessage |
| RestClient.RestUpdate | remote_agent_agp/client/rest.py:139-185 | a response yields all decoded messages. Timeouts, HTTP errors, request errors and invalid JSON each yield a HumanMessage with their own record; any other failure yields an AIMessage |
| RestClient.NodeRemoteRequestStateless | remote_agent_agp/client/rest.py:104-145 | an empty state sends nothing; otherwise one request holding exactly the agent, the model, the run id and the last query as a human message, with no route |
| RestClient.RestKeepsAllMessages | remote_agent_agp/client/rest.py:139-145 | a well-formed response passes on every output message, in order |
| RestClient.RestUndecodableIsEmpty | remote_agent_agp/client/rest.py:67-83 | a response the decoder cannot read yields an empty message list, not an exception |
| AgpIdentity.AgpAgent.constructor | remote_agent_agp/server/agent/agp_agent.py:17-19 | the identity starts with the organization "cisco", the namespace "default" and the local agent "server" |
| AgpIdentity.AgpAgent.Details | remote_agent_agp/server/agent/agp_agent.py:32-36 | the details hold exactly the three names under their keys |
| AgpIdentity.AgpAgent.SetDetails | remote_agent_agp/server/agent/agp_agent.py:51-53 | all three names are replaced together |
| AgpIdentity.AgpAgent.GetOrganization | remote_agent_agp/server/agent/agp_agent.py:63 | the getter reports the current organization |
| AgpIdentity.AgpAgent.GetNamespace | remote_agent_agp/server/agent/agp_agent.py:73 | the getter reports the current namespace |
| AgpIdentity.AgpAgent.GetLocalAgent | remote_agent_agp/server/agent/agp_agent.py:83 | the getter reports the current local agent |
| WeatherServer.Processed | testing/weather_vibes_agent/weather_vibes/main.py:222-247 | a processed run is no longer pending. It fails if and only if the agent raised or its response has "error". Agent and request are kept |
| WeatherServer.SettleFinished | testing/weather_vibes_agent/weather_vibes/main.py:199-207 | polling leaves a finished run as it is |
| WeatherServer.SettlePending | testing/weather_vibes_agent/weather_vibes/main.py:199-207 | a pending run is still pending after the poll if and only if the background task finished during none of the sleeps; otherwise it holds the first outcome |
| WeatherServer.SettleAppend | testing/weather_vibes_agent/weather_vibes/main.py:199-207 | a poll split in two is the same poll |
| WeatherServer.WaitAnswer | testing/weather_vibes_agent/weather_vibes/main.py:206-220 | a pending run times out with 408 and only a pending one does; a success gives the output; a failure gives its error code and message |
| WeatherServer.WaitTimesOut | testing/weather_vibes_agent/weather_vibes/main.py:187-220 | waiting on a pending run times out if and only if the background task finished during none of the sleeps |
| WeatherServer.WaitAfterProcessing | testing/weather_vibes_agent/weather_vibes/main.py:187-247 | a run whose agent returned a response without "error" is waited on as that output; a run whose agent raised gives error 500 |
| WeatherServer.AcpServer.constructor | testing/weather_vibes_agent/weather_vibes/main.py:118-127 | the server starts with no runs |
| WeatherServer.AcpServer.SearchAgents | testing/weather_vibes_agent/weather_vibes/main.py:102-116 | whatever the request, the answer is the one served agent with its descriptor's metadata |
| WeatherServer.AcpServer.GetAgentDescriptor | testing/weather_vibes_agent/weather_vibes/main.py:118-127 | the descriptor is returned if and only if the id is the served agent's; otherwise 404 |
| WeatherServer.AcpServer.CreateRun | testing/weather_vibes_agent/weather_vibes/main.py:129-168 | another agent's id gets 404 and stores nothing; otherwise a pending run without a response is stored under the new id |
| WeatherServer.AcpServer.ProcessRun | testing/weather_vibes_agent/weather_vibes/main.py:222-247 | only the processed run changes, and it becomes what `Processed` says |
| WeatherServer.AcpServer.GetRun | testing/weather_vibes_agent/weather_vibes/main.py:170-185 | an unknown id gets 404 and only an unknown id does; otherwise exactly the id, agent and status, the id being the one asked for and the agent the run's own |
| WeatherServer.AcpServer.WaitForRun | testing/weather_vibes_agent/weather_vibes/main.py:187-220 | an unknown id gets 404; otherwise the run after at most 30 looks, and the answer `WaitAnswer` gives for it |
| WeatherAgent.ErrorResponse | weather_vibes_agp/testing/weather_vibes_agent/weather_vibes/agent/weather_vibes_agent.py:292-295 | an error response holds exactly "error" (the code) and "message" |
| WeatherAgent.ReadParams | weather_vibes_agp/testing/weather_vibes_agent/weather_vibes/agent/weather_vibes_agent.py:278-287 | reading succeeds if and only if input and config are dicts (or absent); units, verbose and max_recommendations are the given values or their defaults, video_mood the given value or None, and metadata the request's or an empty dict |
| WeatherAgent.RecordSearch | weather_vibes_agp/testing/weather_vibes_agent/weather_vibes/agent/weather_vibes_agent.py:301-305 | after a search the location is in the history. A known location changes nothing; a new one on a history shorter than 5 is appended and nothing is dropped. Distinct entries stay distinct, a history within 5 stays within 5, and nothing else is added |
| WeatherAgent.RecordSearchKeepsNewest | weather_vibes_agp/testing/weather_vibes_agent/weather_vibes/agent/weather_vibes_agent.py:301-305 | on a full history a new location drops the oldest entry and keeps the rest in order |
| WeatherAgent.Summary | weather_vibes_agp/testing/weather_vibes_agent/weather_vibes/agent/weather_vibes_agent.py:336-350 | the non-verbose weather exists if and only if all five summary keys are present, and holds exactly those keys with the tool's values |
| WeatherAgent.Envelope | weather_vibes_agp/testing/weather_vibes_agent/weather_vibes/agent/weather_vibes_agent.py:353-363 | the success response holds the output and no error; agent_id is echoed if and only if the request has it; metadata is present if and only if it is truthy |
| WeatherAgent.Produce | weather_vibes_agp/testing/weather_vibes_agent/weather_vibes/agent/weather_vibes_agent.py:312-373 | once a location is given, the response has an output if and only if it has no error, and any error is a 500 record |
| WeatherAgent.Respond | weather_vibes_agp/testing/weather_vibes_agent/weather_vibes/agent/weather_vibes_agent.py:262-373 | the response has an output if and only if it has no error, and every error is a 400 or 500 record |
| WeatherAgent.MissingLocation | weather_vibes_agp/testing/weather_vibes_agent/weather_vibes/agent/weather_vibes_agent.py:290-295 | a request without a location gets 400 and leaves the history as it was |
| WeatherAgent.WeatherToolError | weather_vibes_agp/testing/weather_vibes_agent/weather_vibes/agent/weather_vibes_agent.py:312-317 | a weather-tool error gets 500 with its message, after the location was recorded |
| WeatherAgent.SuccessShape | weather_vibes_agp/testing/weather_vibes_agent/weather_vibes/agent/weather_vibes_agent.py:319-363 | a successful response carries weather, recommendations and video; the weather is the tool's result when verbose and the five summary fields otherwise |
| WeatherAgent.SuccessThroughRunStore | testing/weather_vibes_agent/weather_vibes/main.py:222-247 | handed to the run store, a successful response completes the run with success, and waiting on it yields that output |
| WeatherAgent.WeatherVibesAgent.constructor | weather_vibes_agp/testing/weather_vibes_agent/weather_vibes/agent/weather_vibes_agent.py:89-99 | the agent starts with an empty search history |
| WeatherAgent.WeatherVibesAgent.ProcessAcpRequest | weather_vibes_agp/testing/weather_vibes_agent/weather_vibes/agent/weather_vibes_agent.py:262-373 | the response is the one `Respond` describes, and the history is updated in place as `HistoryAfter` describes |
| WeatherAgent.WeatherVibesAgent.Remember | weather_vibes_agp/testing/weather_vibes_agent/weather_vibes/agent/weather_vibes_agent.py:298-305 | the in-place history update is `RecordSearch` of the old history |
| WeatherAgent.RunTools | weather_vibes_agp/testing/weather_vibes_agent/weather_vibes/agent/weather_vibes_agent.py:312-363 | the tool calls and the assembly run step by step produce the response `Produce` specifies |
| WeatherAgent.Wrap | weather_vibes_agp/testing/weather_vibes_agent/weather_vibes/agent/weather_vibes_agent.py:353-363 | the response dict built step by step is `Envelope` |
| WeatherAgent.FormatResult | weather_vibes_agp/testing/weather_vibes_agent/weather_vibes/agent/weather_vibes_agent.py:243-253 | the result is the first applicable view of the object, in the order dict, `model_dump`, `__dict__`, and `{"result": str(x)}` when none applies |
| WeatherAgent.FirstApplicable | weather_vibes_agp/testing/weather_vibes_agent/weather_vibes/agent/weather_vibes_agent.py:243-253 | the first present view from a position on, or the fallback when none is present |
| WeatherAgent.DictWins | weather_vibes_agp/testing/weather_vibes_agent/weather_vibes/agent/weather_vibes_agent.py:243-244 | a dict is returned as it is, whatever else the object offers |
| WeatherAgent.ModelDumpBeforeAttributes | weather_vibes_agp/testing/weather_vibes_agent/weather_vibes/agent/weather_vibes_agent.py:245-247 | a non-dict with `model_dump` gives its dump even when it also has attributes |
| WeatherAgent.TextOnlyWhenNothingApplies | weather_vibes_agp/testing/weather_vibes_agent/weather_vibes/agent/weather_vibes_agent.py:251-253 | only an object with none of the three views is turned into `{"result": str(x)}` |
| WeatherAgent.FormatResultIdempotent | weather_vibes_agp/testing/weather_vibes_agent/weather_vibes/agent/weather_vibes_agent.py:243-253 | formatting a formatted result again changes nothing |
| MailComposer.ParseType | marketing-campaign/src/marketing_campaign/mailcomposer.py:40-43 | a value names a member if and only if it is "human", "assistant" or "ai", and the member has that value |
| MailComposer.ParseTypeValue | marketing-campaign/src/marketing_campaign/mailcomposer.py:40-43 | every member is found again from its value |
| MailComposer.MessageFromJson | marketing-campaign/src/marketing_campaign/mailcomposer.py:22-27 | a message is valid if and only if it is a dict with a known `type` and a string `content`, and it carries that type and that content |
| MailComposer.MessageRoundTrip | marketing-campaign/src/marketing_campaign/mailcomposer.py:22-27 | a message written and read back is the same message |
| MailComposer.MessagesFromJson | marketing-campaign/src/marketing_campaign/mailcomposer.py:18 | a list is valid if and only if every item is a valid message, and then item by item |
| MailComposer.MessagesRoundTrip | marketing-campaign/src/marketing_campaign/mailcomposer.py:18 | a list of messages written and read back is the same list |
| MailComposer.ConfigFromJson | marketing-campaign/src/marketing_campaign/mailcomposer.py:13-14 | the config is valid if and only if it has the boolean `test`, and it holds that boolean |
| MailComposer.OptMessagesFromJson | marketing-campaign/src/marketing_campaign/mailcomposer.py:18 | an optional message list is accepted if and only if it is absent, null or a list of valid messages; absent reads as None, a list as its messages item by item |
| MailComposer.OptBoolFromJson | marketing-campaign/src/marketing_campaign/mailcomposer.py:19 | an optional boolean is accepted if and only if it is absent, null or a JSON boolean, and reads as None or that boolean |
| MailComposer.OptStringFromJson | marketing-campaign/src/marketing_campaign/mailcomposer.py:33-37 | an optional string is accepted if and only if it is absent, null or a JSON string, and reads as None or that string |
| MailComposer.InputFromJson | marketing-campaign/src/marketing_campaign/mailcomposer.py:17-19 | an input record is accepted if and only if it is an object whose `messages` and `is_completed` are each absent, null or of the declared type, every message valid; the fields read as the field readers give them |
| MailComposer.InputRoundTrip | marketing-campaign/src/marketing_campaign/mailcomposer.py:17-19 | an input record written and read back is the same record |
| MailComposer.OutputFromJson | marketing-campaign/src/marketing_campaign/mailcomposer.py:30-37 | an output record is accepted if and only if it is an object whose `messages`, `is_completed` and `final_email` are each absent, null or of the declared type, every message valid; the fields read as the field readers give them |
| MailComposer.OutputRoundTrip | marketing-campaign/src/marketing_campaign/mailcomposer.py:30-37 | an output record written and read back is the same record |
| EmailReviewer.ParseAudience | marketing-campaign/src/marketing_campaign/email_reviewer.py:38-42 | a value names an audience if and only if it is one of the four values, and the audience has that value |
| EmailReviewer.ParseAudienceValue | marketing-campaign/src/marketing_campaign/email_reviewer.py:38-42 | every audience is found again from its value |
| EmailReviewer.InputFromJson | marketing-campaign/src/marketing_campaign/email_reviewer.py:15-22 | an input is valid if and only if it has a string email and a known audience, and it holds that email and that audience |
| EmailReviewer.OutputFromJson | marketing-campaign/src/marketing_campaign/email_reviewer.py:25-35 | an output is valid if and only if it has a boolean `correct` and an absent, null or string corrected email; it holds that `correct`, no corrected email exactly when the field is absent or null, and otherwise that string |
| EmailReviewer.InputRoundTrip | marketing-campaign/src/marketing_campaign/email_reviewer.py:15-22 | an input record written and read back is the same record |
| EmailReviewer.OutputRoundTrip | marketing-campaign/src/marketing_campaign/email_reviewer.py:25-35 | an output record written and read back is the same record |
| CampaignState.ConfigFromJson | marketing-campaign/src/marketing_campaign/state.py:9-12 | the run configuration is valid if and only if both addresses are strings and the audience is known, and it holds each address under its own name and that audience |
| CampaignState.ConfigRoundTrip | marketing-campaign/src/marketing_campaign/state.py:9-12 | a configuration written and read back is the same configuration |
| CampaignState.OverallState.constructor | marketing-campaign/src/marketing_campaign/state.py:26-45 | empty message and log lists, and None in every other field |
| CampaignApp.IsOkExactly | marketing-campaign/src/marketing_campaign/app.py:56 | the user accepts the email exactly with "ok", "Ok", "oK" or "OK" |
| CampaignApp.ProcessInputs | marketing-campaign/src/marketing_campaign/app.py:39-70 | no messages raises IndexError and changes nothing. A missing address raises ValueError. Otherwise the addresses and the acceptance flag are stored. A missing audience then raises KeyError and an unknown one ValueError; else the audience is stored and the composer gets the messages and the flag. Nothing else changes |
| CampaignApp.ComposedMessages | marketing-campaign/src/marketing_campaign/app.py:76-84 | the composer's output messages when there are any, else none |
| CampaignApp.SendResult | marketing-campaign/src/marketing_campaign/app.py:85-89 | a result exists if and only if the send bridge reported a non-empty one |
| CampaignApp.PrepareOutput | marketing-campaign/src/marketing_campaign/app.py:73-94 | the messages become the composed messages, a non-empty send result is appended to the log, and every other field of the state keeps its value |
| CampaignApp.CheckFinalEmail | marketing-campaign/src/marketing_campaign/app.py:97-106 | "done" if and only if the composer produced a non-empty final email, else "user" |
| CampaignApp.FreshComposerRoutesToUser | marketing-campaign/src/marketing_campaign/app.py:64-106 | right after `process_inputs` the composer has no output, so the graph goes back to the user and the output messages are empty |
| UpdateRequirements.RStripNewlines | remote_agent_ap/update_req.py:57 | `rstrip("\n")` is a prefix with no trailing newline, and it cuts only newlines |
| UpdateRequirements.Rewritten | remote_agent_ap/update_req.py:50-111 | one output line per input line, in input order |
| UpdateRequirements.RewriteOne | remote_agent_ap/update_req.py:52-111 | the loop body raises exactly when pip cannot be launched for a parsed non-URL requirement, and otherwise produces the line `RewriteLine` specifies |
| UpdateRequirements.RewriteAll | remote_agent_ap/update_req.py:50-111 | the loop raises exactly when some line cannot launch pip, and otherwise produces exactly `Rewritten` of the lines |
| UpdateRequirements.UpgradePackages | remote_agent_ap/update_req.py:43-116 | an unreadable file, or a line whose pip cannot be launched, writes nothing; otherwise the rewritten lines are written back joined by newlines, with a final newline |
| UpdateRequirements.ChangedOnlyWhenPinned | remote_agent_ap/update_req.py:56-111 | a line changes only when it parses as a non-URL requirement whose upgrade succeeded and whose version is known, and then it becomes the pinned line |
| UpdateRequirements.RewriteLineIsOneLine | remote_agent_ap/update_req.py:52-111 | every output line is a single line |
| UpdateRequirements.WrittenLines | remote_agent_ap/update_req.py:116 | the written text ends in a newline and splits back into exactly the output lines |
| UpdateRequirements.EmptyFileWritesNewline | remote_agent_ap/update_req.py:116 | an empty requirements file is written back as a single newline |
| UpdateRequirements.PinnedRoundTrip | remote_agent_ap/update_req.py:100-106 | a pinned line reads back as the requirement's name, extras, version and marker |
| Cors.ParseCors | remote_graphs/app/core/config.py:13-18 | a non-bracketed string becomes its stripped comma-separated pieces; a list or a bracketed string passes through; anything else is refused with the value |
| Cors.ParseCorsIdempotent | remote_graphs/app/core/config.py:13-18 | reading an already parsed value again changes nothing |
| Cors.ParseCorsJoined | remote_graphs/app/core/config.py:13-18 | comma-joined origins read back as the origins, in order |

## Left out

- The gateway and HTTP transports are not modelled. That covers connection setup, the receive loop, retries and the 10-second timeout. A request is a value and its reply is a function of it.
- The language-model chains of the moderator, the evaluator and the weather tools are parameters. So are `convert_to_openai_messages`, `model_dump` and Python's `str()`.
- `json.dumps` and `json.loads` text is not modelled. Records stay JSON values, and message content that is a dumped record holds the record itself.
- Floating-point JSON numbers are not modelled; only integers.
- Case mapping covers ASCII letters only:
  - `lower()` in the moderator's catalog key;
  - `upper()` when `process_inputs` reads whether the user accepted the email.
- Python's `1 == True` equality between JSON integers and booleans is not modelled.
- The moderator's evaluator score is modelled as a string. The evaluator chain (network_of_assistants/moderator/evaluator.py:100) has no output parser, so it returns a message object rather than a string. The `"NA"` and `"0"` membership tests in network_of_assistants/moderator/main.py:94-98 are then always false, and the verdict printed is always "best-fitting". The model judges the score as the code evidently intends.
- Concurrency: the run store's background `process_run` is an atomic step between operations or during the poll's sleeps. The 30 attempts and one-second sleeps are counted, not timed.
- Validation of the schema records is strict. Pydantic's lax coercion (a string "true" for a boolean, say) is not modelled, and configuration values are strings.
- RestClient.RestUpdate takes the failure class as already decided. Whether a body that is not JSON counts as invalid JSON or as a request error depends on the version of `requests`.
- The API client addresses a REST-style server over the gateway (`/api/v1/runs`). That server is not part of this model, and only the refusal by the AGP app's validator is proved.
- Moderator.Moderator.OnMessageReceived: the decision model's reply is taken as typed envelopes or a parse failure. `JsonOutputParser(pydantic_object=ModelAnswer)` (network_of_assistants/moderator/agent.py:147) checks only that the reply is JSON, and network_of_assistants/moderator/main.py:78-80 indexes the raw dicts. A reply without "messages", an answer without "type" or an invite without "target" raises KeyError in the middle of the loop, after the earlier answers were recorded and published, and no fallback follows. An answer of an unknown type is recorded and published as it is. The model does not capture these paths.
- Moderator.Moderator.PublishAnswers: the evaluator is given the catalog read once at the start of the cycle. The code reads the directory again for every answer (network_of_assistants/moderator/main.py:88), and that read can itself fail or see changed files.
- The requirements upgrader:
  - A failure to write the file is not modelled.
  - The extras are kept in the order the parser's set yields them.
  - `subprocess` (whether pip can be launched, and whether the install succeeds), `importlib.metadata` and the requirement parser are parameters.
- Opening and parsing an agent spec file are not modelled. Each file reaches the catalog reader already classified: parsed content, a caught open or parse failure, or text that is not UTF-8 (which escapes the handler). Directory listing order is an input.
