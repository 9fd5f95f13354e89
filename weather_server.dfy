/**
 * The Weather Vibes ACP server's run store
 * (testing/weather_vibes_agent/weather_vibes/main.py): runs are created
 * pending, completed by a background task with the agent's response, read,
 * and waited on by a bounded poll. The background task is the `ProcessRun`
 * step, which may happen between any two operations and during any sleep of
 * the poll.
 */
module WeatherServer {
  import opened Json
  import opened Wrappers

  datatype RunStatus = Pending | Success | Failed

  function StatusName(s: RunStatus): string
  {
    match s
    case Pending => "pending"
    case Success => "success"
    case Failed => "error"
  }

  /** A stored run, keyed by its id in the store. */
  datatype Run = Run(agentId: Json, status: RunStatus, request: Json, response: Json)

  /** What the agent's request handler did: returned a response dict, or raised. */
  datatype AgentOutcome = Returned(response: map<string, Json>) | Raised(message: string)

  /** The HTTPExceptions the endpoints raise, and an exception FastAPI answers with 500. */
  datatype HttpError =
    | AgentNotFound(agentId: Json)
    | RunNotFound(runId: string)
    | RequestTimeout
    | Internal(message: string)

  function StatusCode(e: HttpError): int
  {
    match e
    case AgentNotFound(_) => 404
    case RunNotFound(_) => 404
    case RequestTimeout => 408
    case Internal(_) => 500
  }

  /** How many times wait_for_run looks at the run's status before giving up. */
  const MaxAttempts: nat := 30

  /** process_run's update of one run: status from the response's "error" key, or the internal-error record. */
  function Processed(run: Run, outcome: AgentOutcome): (r: Run)
    ensures r.agentId == run.agentId && r.request == run.request
    ensures r.status != Pending
    ensures r.status == Failed <==> outcome.Raised? || "error" in outcome.response
    ensures outcome.Returned? ==> r.response == JObj(outcome.response)
    ensures outcome.Raised? ==>
      r.response == JObj(map["error" := JInt(500), "message" := JStr("Internal server error: " + outcome.message)])
  {
    match outcome
    case Returned(response) =>
      run.(status := if "error" in response then Failed else Success, response := JObj(response))
    case Raised(message) =>
      run.(status := Failed,
           response := JObj(map["error" := JInt(500), "message" := JStr("Internal server error: " + message)]))
  }

  /**
   * The run after a poll that sleeps once per entry of `during` while the run
   * is pending; entry `k` is the background task finishing during sleep `k`,
   * or nothing.
   */
  function Settle(run: Run, during: seq<Option<AgentOutcome>>): Run
    decreases |during|
  {
    if during == [] || run.status != Pending then run
    else Settle(if during[0].Some? then Processed(run, during[0].value) else run, during[1..])
  }

  /** A finished run is left as it is by a poll. */
  lemma SettleFinished(run: Run, during: seq<Option<AgentOutcome>>)
    requires run.status != Pending
    ensures Settle(run, during) == run
  {
  }

  /** One more sleep at the end of a poll. */
  lemma {:induction false} SettleSnoc(run: Run, during: seq<Option<AgentOutcome>>, next: Option<AgentOutcome>)
    ensures Settle(run, during + [next]) ==
      var s := Settle(run, during);
      if s.status == Pending && next.Some? then Processed(s, next.value) else s
    decreases |during|
  {
    if during == [] {
    } else if run.status != Pending {
      SettleFinished(run, during);
    } else {
      var run' := if during[0].Some? then Processed(run, during[0].value) else run;
      assert (during + [next])[1..] == during[1..] + [next];
      SettleSnoc(run', during[1..], next);
    }
  }

  /** A pending run is still pending after the poll exactly when the background task finished during none of its sleeps. */
  lemma {:induction false} SettlePending(run: Run, during: seq<Option<AgentOutcome>>)
    requires run.status == Pending
    ensures Settle(run, during).status == Pending <==> forall k :: 0 <= k < |during| ==> during[k].None?
    ensures (exists k :: 0 <= k < |during| && during[k].Some?) ==>
      exists k :: 0 <= k < |during| && during[k].Some? && Settle(run, during) == Processed(run, during[k].value)
        && forall j :: 0 <= j < k ==> during[j].None?
    decreases |during|
  {
    if during != [] {
      if during[0].Some? {
        SettleFinished(Processed(run, during[0].value), during[1..]);
      } else {
        SettlePending(run, during[1..]);
        if exists k :: 0 <= k < |during| && during[k].Some? {
          var k :| 0 <= k < |during| && during[k].Some?;
          assert during[1..][k - 1].Some?;
          var k' :| 0 <= k' < |during[1..]| && during[1..][k'].Some? && Settle(run, during[1..]) == Processed(run, during[1..][k'].value)
            && forall j :: 0 <= j < k' ==> during[1..][j].None?;
          assert during[k' + 1] == during[1..][k'];
          forall j | 0 <= j < k' + 1 ensures during[j].None? {
            if j > 0 { assert during[j] == during[1..][j - 1]; }
          }
        }
      }
    }
  }

  /** What wait_for_run answers once its poll is over. */
  function WaitAnswer(run: Run): (r: Result<Json, HttpError>)
    ensures run.status == Pending <==> r == Err(RequestTimeout)
    ensures run.status == Success && run.response.JObj? && "output" in run.response.fields ==>
      r == Ok(JObj(map["type" := JStr("result"), "result" := run.response.fields["output"]]))
    ensures run.status == Failed && run.response.JObj? ==>
      r == Ok(JObj(map[
        "type" := JStr("error"),
        "error" := GetOr(run.response.fields, "error", JInt(500)),
        "message" := GetOr(run.response.fields, "message", JStr("Unknown error"))]))
  {
    if run.status == Pending then Err(RequestTimeout)
    else if run.status == Success then
      if run.response.JObj? && "output" in run.response.fields then
        Ok(JObj(map["type" := JStr("result"), "result" := run.response.fields["output"]]))
      else if run.response.JObj? then Err(Internal("KeyError: 'output'"))
      else Err(Internal("TypeError: '" + TypeName(run.response) + "' object is not subscriptable"))
    else
      if run.response.JObj? then
        Ok(JObj(map[
          "type" := JStr("error"),
          "error" := GetOr(run.response.fields, "error", JInt(500)),
          "message" := GetOr(run.response.fields, "message", JStr("Unknown error"))]))
      else Err(Internal("AttributeError: " + NoGetText(run.response)))
  }

  class AcpServer {
    /** The id of the one agent this server serves. */
    const agentId: string
    /** The agent's ACP descriptor. */
    const descriptor: Json
    var runs: map<string, Run>

    /** A run is pending exactly while it has no response; every finished run holds a response dict. */
    ghost predicate Valid()
      reads this
    {
      forall id :: id in runs ==>
        (runs[id].status == Pending <==> runs[id].response == JNull)
        && (runs[id].status != Pending ==> runs[id].response.JObj?)
    }

    constructor (agentId: string, descriptor: Json)
      ensures this.agentId == agentId && this.descriptor == descriptor
      ensures runs == map[]
      ensures Valid()
    {
      this.agentId := agentId;
      this.descriptor := descriptor;
      runs := map[];
    }

    /** search_agents: whatever the request, the one served agent with its descriptor's metadata. */
    function SearchAgents(request: Json): (r: Result<Json, HttpError>)
      ensures descriptor.JObj? && "metadata" in descriptor.fields ==>
        r == Ok(JObj(map["agents" := JList([JObj(map["id" := JStr(agentId), "metadata" := descriptor.fields["metadata"]])])]))
      ensures r.Err? <==> !(descriptor.JObj? && "metadata" in descriptor.fields)
    {
      if descriptor.JObj? && "metadata" in descriptor.fields then
        Ok(JObj(map["agents" := JList([JObj(map["id" := JStr(agentId), "metadata" := descriptor.fields["metadata"]])])]))
      else Err(Internal("KeyError: 'metadata'"))
    }

    /** get_agent_descriptor: the descriptor of the served agent, 404 for any other id. */
    function GetAgentDescriptor(id: string): (r: Result<Json, HttpError>)
      ensures r.Ok? <==> id == agentId
      ensures r.Ok? ==> r.value == descriptor
      ensures r.Err? ==> StatusCode(r.error) == 404
    {
      if id != agentId then Err(AgentNotFound(JStr(id))) else Ok(descriptor)
    }

    /**
     * create_run: a payload for another agent is refused with 404 and nothing
     * is stored; otherwise a pending run with no response is stored under
     * `runId` (the fresh uuid) and its id, agent and status are returned.
     */
    method CreateRun(payload: Json, runId: string) returns (r: Result<Json, HttpError>)
      requires Valid()
      modifies this
      ensures Valid()
      ensures !payload.JObj? ==> r.Err? && StatusCode(r.error) == 500 && runs == old(runs)
      ensures payload.JObj? && Get(payload.fields, "agent_id") != JStr(agentId) ==>
        r == Err(AgentNotFound(Get(payload.fields, "agent_id"))) && runs == old(runs)
      ensures payload.JObj? && Get(payload.fields, "agent_id") == JStr(agentId) ==>
        && runs == old(runs)[runId := Run(JStr(agentId), Pending, payload, JNull)]
        && r == Ok(JObj(map["id" := JStr(runId), "agent_id" := JStr(agentId), "status" := JStr("pending")]))
    {
      if !payload.JObj? {
        return Err(Internal("AttributeError: " + NoGetText(payload)));
      }
      var id := Get(payload.fields, "agent_id");
      if id != JStr(agentId) {
        return Err(AgentNotFound(id));
      }
      runs := runs[runId := Run(id, Pending, payload, JNull)];
      r := Ok(JObj(map["id" := JStr(runId), "agent_id" := id, "status" := JStr(StatusName(Pending))]));
    }

    /** process_run: the background task records the agent's outcome on the run. */
    method ProcessRun(runId: string, outcome: AgentOutcome)
      requires Valid()
      requires runId in runs
      modifies this
      ensures Valid()
      ensures runs == old(runs)[runId := Processed(old(runs)[runId], outcome)]
    {
      runs := runs[runId := Processed(runs[runId], outcome)];
    }

    /** get_run: id, agent and status of a stored run; 404 for an unknown id. */
    function GetRun(runId: string): (r: Result<Json, HttpError>)
      reads this
      ensures runId !in runs <==> r == Err(RunNotFound(runId))
      ensures runId in runs ==> r.Ok? && r.value.JObj? && r.value.fields.Keys == {"id", "agent_id", "status"}
      ensures runId in runs ==> r.value.fields["id"] == JStr(runId) && r.value.fields["agent_id"] == runs[runId].agentId
      ensures runId in runs ==> r.value.fields["status"] == JStr(StatusName(runs[runId].status))
    {
      if runId !in runs then Err(RunNotFound(runId))
      else Ok(JObj(map[
        "id" := JStr(runId),
        "agent_id" := runs[runId].agentId,
        "status" := JStr(StatusName(runs[runId].status))]))
    }

    /**
     * wait_for_run: 404 for an unknown id; otherwise look at the status at
     * most MaxAttempts times, sleeping in between, then answer from the run.
     * `during[k]` is the background task finishing during the k-th sleep.
     */
    method WaitForRun(runId: string, during: seq<Option<AgentOutcome>>) returns (r: Result<Json, HttpError>)
      requires Valid()
      requires |during| == MaxAttempts
      modifies this
      ensures Valid()
      ensures runId !in old(runs) ==> r == Err(RunNotFound(runId)) && runs == old(runs)
      ensures runId in old(runs) ==>
        && runs == old(runs)[runId := Settle(old(runs)[runId], during)]
        && r == WaitAnswer(Settle(old(runs)[runId], during))
    {
      if runId !in runs {
        return Err(RunNotFound(runId));
      }
      ghost var run0 := runs[runId];
      var attempt := 0;
      while attempt < MaxAttempts
        invariant 0 <= attempt <= MaxAttempts
        invariant Valid()
        invariant runId in runs
        invariant runs == old(runs)[runId := Settle(run0, during[..attempt])]
      {
        if runs[runId].status != Pending {
          SettleFinished(runs[runId], during[attempt..]);
          assert Settle(run0, during[..attempt] + during[attempt..]) == Settle(run0, during) by {
            assert during[..attempt] + during[attempt..] == during;
          }
          SettleAppend(run0, during[..attempt], during[attempt..]);
          break;
        }
        if during[attempt].Some? {
          ProcessRun(runId, during[attempt].value);
        }
        SettleSnoc(run0, during[..attempt], during[attempt]);
        assert during[..attempt + 1] == during[..attempt] + [during[attempt]];
        attempt := attempt + 1;
      }
      if attempt == MaxAttempts {
        assert during[..attempt] == during;
      }
      r := WaitAnswer(runs[runId]);
    }
  }

  /** A poll split in two is the same poll. */
  lemma {:induction false} SettleAppend(run: Run, a: seq<Option<AgentOutcome>>, b: seq<Option<AgentOutcome>>)
    ensures Settle(run, a + b) == Settle(Settle(run, a), b)
    decreases |a|
  {
    if a != [] && run.status == Pending {
      var run' := if a[0].Some? then Processed(run, a[0].value) else run;
      assert (a + b)[1..] == a[1..] + b;
      SettleAppend(run', a[1..], b);
    } else if a != [] {
      SettleFinished(run, a);
      SettleFinished(run, a + b);
      SettleFinished(run, b);
    } else {
      assert a + b == b;
    }
  }

  /** Waiting on a pending run times out with 408 exactly when the background task finished during none of the sleeps. */
  lemma WaitTimesOut(run: Run, during: seq<Option<AgentOutcome>>)
    requires run.status == Pending
    ensures WaitAnswer(Settle(run, during)) == Err(RequestTimeout) <==> forall k :: 0 <= k < |during| ==> during[k].None?
  {
    SettlePending(run, during);
  }

  /**
   * A run whose agent returned a response without "error" is waited on with
   * the response's output as the result; one whose agent raised is waited on
   * with error 500 and the internal-error message.
   */
  lemma WaitAfterProcessing(run: Run, outcome: AgentOutcome)
    ensures outcome.Returned? && "error" !in outcome.response && "output" in outcome.response ==>
      WaitAnswer(Processed(run, outcome)) == Ok(JObj(map["type" := JStr("result"), "result" := outcome.response["output"]]))
    ensures outcome.Raised? ==>
      WaitAnswer(Processed(run, outcome)) == Ok(JObj(map[
        "type" := JStr("error"),
        "error" := JInt(500),
        "message" := JStr("Internal server error: " + outcome.message)]))
  {
  }
}
