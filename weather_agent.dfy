/**
 * The Weather Vibes agent's ACP request handler
 * (weather_vibes_agp/testing/weather_vibes_agent/weather_vibes/agent/weather_vibes_agent.py):
 * reading the request, the bounded search history, the three tool calls
 * (abstract functions here), and the assembly of the response. Every
 * exception inside the handler is caught and becomes a 500 response.
 */
module WeatherAgent {
  import opened Json
  import opened Wrappers
  import WeatherServer

  /** The search history never holds more than this many locations. */
  const HistoryLimit: nat := 5

  const LocationRequired: string := "Invalid input: 'location' field is required"

  /** The weather fields kept when the request is not verbose. */
  const SummaryKeys: seq<string> := ["location", "temperature", "condition", "humidity", "wind_speed"]

  /** The three tools; an `Err` is the exception the tool raised. */
  datatype Tools = Tools(
    weather: (Json, Json) -> Result<map<string, Json>, string>,   // location, units
    recommend: (map<string, Json>, Json) -> Result<Json, string>,  // weather, max_items
    video: (Json, Json) -> Result<Json, string>)                   // weather_condition, mood_override

  /** The request fields the handler reads, with their defaults. */
  datatype Params = Params(location: Json, units: Json, verbose: Json, maxRecommendations: Json, videoMood: Json, metadata: Json)

  function ErrorResponse(code: int, message: string): (response: map<string, Json>)
    ensures response.Keys == {"error", "message"} && response["error"] == JInt(code)
  {
    map["error" := JInt(code), "message" := JStr(message)]
  }

  /** The response for an exception caught by the handler. */
  function Failure(exception: string): map<string, Json>
  {
    ErrorResponse(500, "Error processing request: " + exception)
  }

  /** Python's `str()`: the text of a string; `show` gives it for any other value. */
  function Str(j: Json, show: Json -> string): string
  {
    if j.JStr? then j.s else show(j)
  }

  /** Reading input, config and metadata: `.get` on an input or config that is not a dict raises. */
  function ReadParams(request: map<string, Json>): (r: Result<Params, string>)
    ensures r.Ok? <==> GetOr(request, "input", JObj(map[])).JObj? && GetOr(request, "config", JObj(map[])).JObj?
    ensures r.Ok? ==>
      var input := GetOr(request, "input", JObj(map[])).fields;
      var config := GetOr(request, "config", JObj(map[])).fields;
      && r.value.location == Get(input, "location")
      && r.value.units == GetOr(input, "units", JStr("metric"))
      && r.value.verbose == GetOr(config, "verbose", JBool(false))
      && r.value.maxRecommendations == GetOr(config, "max_recommendations", JInt(5))
      && r.value.videoMood == Get(config, "video_mood")
      && r.value.metadata == GetOr(request, "metadata", JObj(map[]))
  {
    var input := GetOr(request, "input", JObj(map[]));
    var config := GetOr(request, "config", JObj(map[]));
    var metadata := GetOr(request, "metadata", JObj(map[]));
    if !input.JObj? then Err(NoGetText(input))
    else if !config.JObj? then Err(NoGetText(config))
    else Ok(Params(
      Get(input.fields, "location"),
      GetOr(input.fields, "units", JStr("metric")),
      GetOr(config.fields, "verbose", JBool(false)),
      GetOr(config.fields, "max_recommendations", JInt(5)),
      Get(config.fields, "video_mood"),
      metadata))
  }

  predicate Distinct(h: seq<Json>)
  {
    forall i, j :: 0 <= i < j < |h| ==> h[i] != h[j]
  }

  /** The history after searching `location`: appended when new, then cut to the last HistoryLimit entries. */
  function RecordSearch(h: seq<Json>, location: Json): (r: seq<Json>)
    ensures location in r
    ensures location in h ==> r == h
    ensures location !in h ==> r[|r| - 1] == location && |r| <= |h| + 1
    ensures location !in h && |h| < HistoryLimit ==> r == h + [location]
    ensures Distinct(h) ==> Distinct(r)
    ensures |h| <= HistoryLimit ==> |r| <= HistoryLimit
    ensures forall x :: x in r ==> x in h || x == location
  {
    if location in h then h
    else
      var longer := h + [location];
      var start := if |longer| > HistoryLimit then |longer| - HistoryLimit else 0;
      SuffixFacts(h, location, start);
      longer[start..]
  }

  lemma SuffixFacts(h: seq<Json>, location: Json, start: nat)
    requires location !in h && start <= |h|
    ensures var r := (h + [location])[start..];
      && |r| > 0 && r[|r| - 1] == location
      && (Distinct(h) ==> Distinct(r))
      && forall x :: x in r ==> x in h || x == location
  {
    var longer := h + [location];
    var r := longer[start..];
    assert forall i :: 0 <= i < |r| ==> r[i] == longer[start + i];
    if Distinct(h) {
      forall i, j | 0 <= i < j < |r| ensures r[i] != r[j] {
        if j == |r| - 1 {
          assert r[i] == h[start + i];
        } else {
          assert r[i] == h[start + i] && r[j] == h[start + j];
        }
      }
    }
    forall x | x in r ensures x in h || x == location {
      var i :| 0 <= i < |r| && r[i] == x;
      if start + i < |h| { assert x == h[start + i]; }
    }
  }

  /** The entries that survive a new search are the most recent ones, in their order. */
  lemma RecordSearchKeepsNewest(h: seq<Json>, location: Json)
    requires location !in h && |h| == HistoryLimit
    ensures RecordSearch(h, location) == h[1..] + [location]
  {
  }

  /** The history after the request: unchanged unless the request reaches the tools. */
  function HistoryAfter(request: map<string, Json>, h: seq<Json>): seq<Json>
  {
    match ReadParams(request)
    case Ok(p) => if Truthy(p.location) then RecordSearch(h, p.location) else h
    case Err(_) => h
  }

  /** The weather kept when not verbose, or the first summary key the weather lacks. */
  function Summary(w: map<string, Json>): (r: Result<Json, string>)
    ensures r.Ok? <==> forall k :: k in SummaryKeys ==> k in w
    ensures r.Ok? ==> r.value.JObj?
    ensures r.Ok? ==> r.value.fields.Keys == {"location", "temperature", "condition", "humidity", "wind_speed"}
    ensures r.Ok? ==> forall k :: k in r.value.fields ==> k in w && r.value.fields[k] == w[k]
  {
    if "location" !in w then Err("location")
    else if "temperature" !in w then Err("temperature")
    else if "condition" !in w then Err("condition")
    else if "humidity" !in w then Err("humidity")
    else if "wind_speed" !in w then Err("wind_speed")
    else Ok(JObj(map[
      "location" := w["location"],
      "temperature" := w["temperature"],
      "condition" := w["condition"],
      "humidity" := w["humidity"],
      "wind_speed" := w["wind_speed"]]))
  }

  /** The envelope around a successful result: agent_id echoed when present, metadata when truthy. */
  function Envelope(result: Json, request: map<string, Json>, metadata: Json): (response: map<string, Json>)
    ensures "output" in response && response["output"] == result && "error" !in response
    ensures "agent_id" in response <==> "agent_id" in request
    ensures "agent_id" in request ==> response["agent_id"] == request["agent_id"]
    ensures "metadata" in response <==> Truthy(metadata)
    ensures Truthy(metadata) ==> response["metadata"] == metadata
  {
    var response := map["output" := result];
    var response := if "agent_id" in request then response["agent_id" := request["agent_id"]] else response;
    if Truthy(metadata) then response["metadata" := metadata] else response
  }

  /** What the handler does once the location is known to be given: the tools, in order, then the response. */
  function Produce(p: Params, request: map<string, Json>, tools: Tools, show: Json -> string): (response: map<string, Json>)
    ensures "output" in response <==> "error" !in response
    ensures "error" in response ==> response.Keys == {"error", "message"} && response["error"] == JInt(500)
  {
    match tools.weather(p.location, p.units)
    case Err(e) => Failure(e)
    case Ok(w) =>
      if "error" in w then
        if "message" in w then ErrorResponse(500, "Weather API error: " + Str(w["message"], show))
        else Failure(KeyErrorText("message"))
      else
        match tools.recommend(w, p.maxRecommendations)
        case Err(e) => Failure(e)
        case Ok(recs) =>
          if "condition" !in w then Failure(KeyErrorText("condition"))
          else
            match tools.video(w["condition"], p.videoMood)
            case Err(e) => Failure(e)
            case Ok(video) =>
              var weather := if Truthy(p.verbose) then Ok(JObj(w)) else Summary(w);
              match weather
              case Err(k) => Failure(KeyErrorText(k))
              case Ok(shown) =>
                Envelope(JObj(map["weather" := shown, "recommendations" := recs, "video" := video]), request, p.metadata)
  }

  /** process_acp_request's response for a request and the tools' behaviour. */
  function Respond(request: map<string, Json>, tools: Tools, show: Json -> string): (response: map<string, Json>)
    ensures "output" in response <==> "error" !in response
    ensures "error" in response ==> response.Keys == {"error", "message"} && response["error"] in {JInt(400), JInt(500)}
  {
    match ReadParams(request)
    case Err(e) => Failure(e)
    case Ok(p) =>
      if !Truthy(p.location) then ErrorResponse(400, LocationRequired)
      else Produce(p, request, tools, show)
  }

  /** A request without a location is answered with 400 and leaves the history as it was. */
  lemma MissingLocation(request: map<string, Json>, h: seq<Json>, tools: Tools, show: Json -> string)
    requires ReadParams(request).Ok? && !Truthy(ReadParams(request).value.location)
    ensures Respond(request, tools, show) == ErrorResponse(400, LocationRequired)
    ensures HistoryAfter(request, h) == h
  {
  }

  /** A weather-tool error is answered with 500 and its message, after the location was recorded. */
  lemma WeatherToolError(request: map<string, Json>, h: seq<Json>, tools: Tools, show: Json -> string)
    requires ReadParams(request).Ok?
    requires var p := ReadParams(request).value;
      Truthy(p.location) && tools.weather(p.location, p.units).Ok?
      && "error" in tools.weather(p.location, p.units).value && "message" in tools.weather(p.location, p.units).value
    ensures
      var p := ReadParams(request).value;
      var w := tools.weather(p.location, p.units).value;
      Respond(request, tools, show) == ErrorResponse(500, "Weather API error: " + Str(w["message"], show))
      && HistoryAfter(request, h) == RecordSearch(h, p.location)
  {
  }

  /**
   * A successful response carries weather, recommendations and video under
   * "output"; its weather is the tool's result when verbose and the five
   * summary fields otherwise.
   */
  lemma SuccessShape(request: map<string, Json>, tools: Tools, show: Json -> string)
    requires "output" in Respond(request, tools, show)
    ensures ReadParams(request).Ok?
    ensures
      var p := ReadParams(request).value;
      var out := Respond(request, tools, show)["output"];
      && Truthy(p.location)
      && tools.weather(p.location, p.units).Ok?
      && var w := tools.weather(p.location, p.units).value;
      && "error" !in w
      && out.JObj? && out.fields.Keys == {"weather", "recommendations", "video"}
      && (Truthy(p.verbose) ==> out.fields["weather"] == JObj(w))
      && (!Truthy(p.verbose) ==>
            out.fields["weather"].JObj?
            && out.fields["weather"].fields.Keys == {"location", "temperature", "condition", "humidity", "wind_speed"})
  {
    var p := ReadParams(request).value;
    var w := tools.weather(p.location, p.units).value;
    if !Truthy(p.verbose) {
      assert Summary(w).Ok?;
    }
  }

  /** A successful response echoes the request's agent_id when it has one, and its metadata when that is truthy. */
  lemma SuccessEchoesRequest(request: map<string, Json>, tools: Tools, show: Json -> string)
    requires "output" in Respond(request, tools, show)
    ensures
      var response := Respond(request, tools, show);
      var metadata := GetOr(request, "metadata", JObj(map[]));
      && ("agent_id" in response <==> "agent_id" in request)
      && ("agent_id" in request ==> response["agent_id"] == request["agent_id"])
      && ("metadata" in response <==> Truthy(metadata))
      && (Truthy(metadata) ==> response["metadata"] == metadata)
  {
    var p := ReadParams(request).value;
    var w := tools.weather(p.location, p.units).value;
    if !Truthy(p.verbose) {
      assert Summary(w).Ok?;
    }
  }

  /**
   * Handed to the run store, a successful response completes the run with
   * success, and waiting on it yields the output with weather,
   * recommendations and video.
   */
  lemma SuccessThroughRunStore(request: map<string, Json>, tools: Tools, show: Json -> string, run: WeatherServer.Run)
    requires "output" in Respond(request, tools, show)
    ensures
      var response := Respond(request, tools, show);
      var done := WeatherServer.Processed(run, WeatherServer.Returned(response));
      && done.status == WeatherServer.Success
      && WeatherServer.WaitAnswer(done) == Ok(JObj(map["type" := JStr("result"), "result" := response["output"]]))
      && response["output"].JObj? && response["output"].fields.Keys == {"weather", "recommendations", "video"}
  {
    SuccessShape(request, tools, show);
  }

  class WeatherVibesAgent {
    var searchHistory: seq<Json>

    ghost predicate Valid()
      reads this
    {
      |searchHistory| <= HistoryLimit && Distinct(searchHistory)
    }

    constructor ()
      ensures Valid() && searchHistory == []
    {
      searchHistory := [];
    }

    /**
     * process_acp_request: the response is the one `Respond` describes, and
     * the history is updated in place before any tool runs.
     */
    method ProcessAcpRequest(request: map<string, Json>, tools: Tools, show: Json -> string)
      returns (response: map<string, Json>)
      requires Valid()
      modifies this
      ensures Valid()
      ensures response == Respond(request, tools, show)
      ensures searchHistory == HistoryAfter(request, old(searchHistory))
    {
      var params := ReadParams(request);
      if params.Err? {
        return Failure(params.error);
      }
      var p := params.value;
      if !Truthy(p.location) {
        return ErrorResponse(400, LocationRequired);
      }
      Remember(p.location);
      response := RunTools(p, request, tools, show);
    }

    /** The in-place history update: append when new, then keep only the newest entries. */
    method Remember(location: Json)
      requires Valid()
      modifies this
      ensures Valid()
      ensures searchHistory == RecordSearch(old(searchHistory), location)
    {
      if location !in searchHistory {
        searchHistory := searchHistory + [location];
        if |searchHistory| > HistoryLimit {
          searchHistory := searchHistory[|searchHistory| - HistoryLimit..];
        }
      }
    }
  }

  /** The tool calls and the response assembly, as the handler runs them once the location is recorded. */
  method RunTools(p: Params, request: map<string, Json>, tools: Tools, show: Json -> string) returns (response: map<string, Json>)
    ensures response == Produce(p, request, tools, show)
  {
    var weather := tools.weather(p.location, p.units);
    if weather.Err? {
      return Failure(weather.error);
    }
    var w := weather.value;
    if "error" in w {
      if "message" !in w {
        return Failure(KeyErrorText("message"));
      }
      return ErrorResponse(500, "Weather API error: " + Str(w["message"], show));
    }
    var recs := tools.recommend(w, p.maxRecommendations);
    if recs.Err? {
      return Failure(recs.error);
    }
    if "condition" !in w {
      return Failure(KeyErrorText("condition"));
    }
    var video := tools.video(w["condition"], p.videoMood);
    if video.Err? {
      return Failure(video.error);
    }
    var result := map["weather" := JObj(w), "recommendations" := recs.value, "video" := video.value];
    if !Truthy(p.verbose) {
      var summary := Summary(w);
      if summary.Err? {
        return Failure(KeyErrorText(summary.error));
      }
      result := result["weather" := summary.value];
      assert result == map["weather" := summary.value, "recommendations" := recs.value, "video" := video.value];
    }
    assert Produce(p, request, tools, show) == Envelope(JObj(result), request, p.metadata);
    response := Wrap(JObj(result), request, p.metadata);
  }

  /** The response dict built step by step around a successful result. */
  method Wrap(result: Json, request: map<string, Json>, metadata: Json) returns (response: map<string, Json>)
    ensures response == Envelope(result, request, metadata)
  {
    response := map["output" := result];
    if "agent_id" in request {
      response := response["agent_id" := request["agent_id"]];
    }
    if Truthy(metadata) {
      response := response["metadata" := metadata];
    }
  }

  /**
   * What `_format_result` can observe of its argument, test by test:
   * its contents when it is a dict, what `model_dump()` returns when it has
   * that method, its `__dict__` when it has one, and its `str()`.
   */
  datatype PyObject = PyObject(
    asDict: Option<map<string, Json>>,
    modelDump: Option<map<string, Json>>,
    attrs: Option<map<string, Json>>,
    text: string)

  /** The first of `views`, from index `k` on, that applies; `fallback` when none does. */
  function FirstApplicable(views: seq<Option<map<string, Json>>>, k: nat, fallback: map<string, Json>): (r: map<string, Json>)
    requires k <= |views|
    ensures (forall i :: k <= i < |views| ==> views[i].None?) ==> r == fallback
    ensures forall i :: k <= i < |views| && views[i].Some? && (forall j :: k <= j < i ==> views[j].None?) ==> r == views[i].value
    decreases |views| - k
  {
    if k == |views| then fallback
    else if views[k].Some? then views[k].value
    else FirstApplicable(views, k + 1, fallback)
  }

  /**
   * _format_result: the answer of the first test that applies, in the order
   * dict, `model_dump`, `__dict__`; `{"result": str(result)}` when none does.
   */
  function FormatResult(x: PyObject): (r: map<string, Json>)
    ensures r == FirstApplicable([x.asDict, x.modelDump, x.attrs], 0, map["result" := JStr(x.text)])
  {
    var views, fallback := [x.asDict, x.modelDump, x.attrs], map["result" := JStr(x.text)];
    assert x.asDict.None? && x.modelDump.None? ==> FirstApplicable(views, 0, fallback) == FirstApplicable(views, 2, fallback);
    if x.asDict.Some? then x.asDict.value
    else if x.modelDump.Some? then x.modelDump.value
    else if x.attrs.Some? then x.attrs.value
    else fallback
  }

  /** A dict comes back as it is, whatever else it offers. */
  lemma DictWins(d: map<string, Json>, dump: Option<map<string, Json>>, attrs: Option<map<string, Json>>, text: string)
    ensures FormatResult(PyObject(Some(d), dump, attrs, text)) == d
  {
    var views := [Some(d), dump, attrs];
    assert views[0] == Some(d);
  }

  /** A model is dumped even when it also has a `__dict__`. */
  lemma ModelDumpBeforeAttributes(dump: map<string, Json>, attrs: Option<map<string, Json>>, text: string)
    ensures FormatResult(PyObject(None, Some(dump), attrs, text)) == dump
  {
    var views := [None, Some(dump), attrs];
    assert views[0].None? && views[1] == Some(dump);
  }

  /** The `str()` record is the answer only when none of the three tests applies. */
  lemma TextOnlyWhenNothingApplies(x: PyObject)
    requires x.asDict.None? && x.modelDump.None? && x.attrs.None?
    ensures FormatResult(x) == map["result" := JStr(x.text)]
  {
    var views := [x.asDict, x.modelDump, x.attrs];
    assert forall i :: 0 <= i < |views| ==> views[i].None?;
  }

  /** Formatting a formatted result again changes nothing: it is a dict. */
  lemma FormatResultIdempotent(x: PyObject, dump: Option<map<string, Json>>, attrs: Option<map<string, Json>>, text: string)
    ensures FormatResult(PyObject(Some(FormatResult(x)), dump, attrs, text)) == FormatResult(x)
  {
    DictWins(FormatResult(x), dump, attrs, text);
  }
}
