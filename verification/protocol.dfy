/** The pieces of the single-round tool-calling protocol that the three
    scripts under 03.tool_use share: dispatching on the first tool call's
    name, reading its `city` argument, the pass-through weather tool, the
    `"error"` short-circuit, the five-field weather summary, and the fixed
    four-message second round. */
module Protocol {

  import opened Wrappers
  import opened Errors
  import opened Oracles

  const WeatherFailurePrefix := "申し訳ありません。天気情報の取得に失敗しました: "
  const FoodFailurePrefix := "申し訳ありません。料理情報の取得に失敗しました: "

  /** System prompts of the second round. */
  const WeatherFormatPrompt := "あなたは天気情報を自然な日本語の文章に変換するアシスタントです。"
  const FoodFormatPrompt := "あなたは料理情報を自然な日本語の文章に変換するアシスタントです。"

  /** The two tools a first tool call can be dispatched to. */
  datatype Domain = WeatherDomain | FoodDomain {
    function ToolName(): string {
      if WeatherDomain? then WeatherToolName else FoodToolName
    }
    function FailurePrefix(): string {
      if WeatherDomain? then WeatherFailurePrefix else FoodFailurePrefix
    }
    function FormatPrompt(): string {
      if WeatherDomain? then WeatherFormatPrompt else FoodFormatPrompt
    }
  }

  /** The tool a first call's name dispatches to; any other name is not
      handled. */
  function DomainOf(name: string): (r: Option<Domain>)
    ensures r.Some? <==> name == WeatherToolName || name == FoodToolName
    ensures r.Some? ==> r.value.ToolName() == name
  {
    if name == WeatherToolName then Some(WeatherDomain)
    else if name == FoodToolName then Some(FoodDomain)
    else None
  }

  // ---------------------------------------------------------------------
  // Arguments
  // ---------------------------------------------------------------------

  /** Python's message for `"..."[key]` with a string key. */
  const StringIndexMsg := "string indices must be integers, not 'str'"

  /** Python's message for `json.loads` given a dict. */
  const LoadsTypeMsg := "the JSON object must be str, bytes or bytearray, not dict"

  /** LangChain's `tool_call["args"]`, indexed by name afterwards. */
  function LangChainArgs(a: Args): Result<map<string, string>, Exc> {
    match a
    case Decoded(fields) => Ok(fields)
    case Encoded(_) => Err(OtherError(StringIndexMsg))
  }

  /** The raw client's `json.loads(tool_call.function.arguments)`. */
  function RawClientArgs(env: Env, a: Args): Result<map<string, string>, Exc> {
    match a
    case Encoded(text) => env.jsonLoads(text)
    case Decoded(_) => Err(OtherError(LoadsTypeMsg))
  }

  /** `function_args["city"]`, raising KeyError('city') when absent. */
  function CityArg(args: map<string, string>): (r: Result<string, Exc>)
    ensures r.Ok? <==> "city" in args
    ensures r.Ok? ==> r.value == args["city"]
  {
    if "city" in args then Ok(args["city"]) else Err(OtherError("'city'"))
  }

  // ---------------------------------------------------------------------
  // Weather
  // ---------------------------------------------------------------------

  /** `get_weather(city)` of the scripts that pass the name through: one
      provider request with the name as given; a request failure becomes an
      error dict, any other exception propagates. */
  function RequestWeather(env: Env, city: string): (r: Traced<Result<JsonObject, Exc>>)
    ensures r.trace == [WeatherRequest(city)]
    ensures r.value.Err? ==> env.weather(city) == r.value && !r.value.error.RequestError?
    ensures env.weather(city).Ok? ==> r.value == env.weather(city)
    ensures env.weather(city).Err? && env.weather(city).error.RequestError? ==>
      r.value == Ok(ErrorObject(Str(env.weather(city).error)))
  {
    match env.weather(city)
    case Ok(data) => Traced(Ok(data), [WeatherRequest(city)])
    case Err(e) => Traced(if e.RequestError? then Ok(ErrorObject(Str(e))) else Err(e), [WeatherRequest(city)])
  }

  // ---------------------------------------------------------------------
  // Weather summary
  // ---------------------------------------------------------------------

  /** Python's message for subscripting a value that is not a container of
      the right kind (the exact TypeError text varies with the value). */
  const NotSubscriptableMsg := "object is not subscriptable"

  /** `j[key]` for a JSON value. */
  function Key(j: Json, key: string): (r: Result<Json, Exc>)
    ensures r.Ok? <==> j.JObj? && key in j.fields
    ensures r.Ok? ==> r.value == j.fields[key]
  {
    match j
    case JObj(fields) => if key in fields then Ok(fields[key]) else Err(OtherError("'" + key + "'"))
    case _ => Err(OtherError(NotSubscriptableMsg))
  }

  /** `j[0]` for a JSON value. */
  function First(j: Json): (r: Result<Json, Exc>)
    ensures r.Ok? <==> j.JArr? && |j.items| > 0
    ensures r.Ok? ==> r.value == j.items[0]
  {
    match j
    case JArr(items) => if |items| > 0 then Ok(items[0]) else Err(OtherError(IndexErrorMsg))
    case JObj(_) => Err(OtherError("0"))
    case _ => Err(OtherError(NotSubscriptableMsg))
  }

  /** The provider payload has every field the summary reads. */
  predicate HasWeatherFields(data: JsonObject) {
    && "main" in data && data["main"].JObj?
    && "temp" in data["main"].fields && "humidity" in data["main"].fields
    && "weather" in data && data["weather"].JArr? && |data["weather"].items| > 0
    && data["weather"].items[0].JObj? && "description" in data["weather"].items[0].fields
    && "wind" in data && data["wind"].JObj? && "speed" in data["wind"].fields
  }

  /** The `weather_info` dict: the tool-call city (not the provider's or a
      translated one) and four provider values copied unchanged; a payload
      without one of them raises. */
  function Summarize(city: string, data: JsonObject): (r: Result<JsonObject, Exc>)
    ensures r.Ok? <==> HasWeatherFields(data)
    ensures r.Ok? ==> r.value.Keys == {"city", "temperature", "description", "humidity", "wind_speed"}
    ensures r.Ok? ==> && r.value["city"] == JStr(city)
                      && r.value["temperature"] == data["main"].fields["temp"]
                      && r.value["description"] == data["weather"].items[0].fields["description"]
                      && r.value["humidity"] == data["main"].fields["humidity"]
                      && r.value["wind_speed"] == data["wind"].fields["speed"]
  {
    var root := JObj(data);
    var main :- Key(root, "main");
    var temp :- Key(main, "temp");
    var weather :- Key(root, "weather");
    var current :- First(weather);
    var description :- Key(current, "description");
    var humidity :- Key(main, "humidity");
    var wind :- Key(root, "wind");
    var speed :- Key(wind, "speed");
    Ok(map["city" := JStr(city), "temperature" := temp, "description" := description,
           "humidity" := humidity, "wind_speed" := speed])
  }

  // ---------------------------------------------------------------------
  // The second round
  // ---------------------------------------------------------------------

  /** A second-round request answers the first tool call of `reply`: four
      messages — a system prompt, the original question, the first response
      unchanged, and a tool message whose `tool_call_id` and name are those of
      the first call. */
  predicate AnswersFirstCall(ev: Event, question: string, reply: Reply) {
    && ev.Complete?
    && |ev.messages| == 4
    && ev.messages[0].SystemMsg?
    && ev.messages[1] == UserMsg(question)
    && ev.messages[2] == AssistantMsg(reply)
    && |reply.toolCalls| > 0
    && ev.messages[3].ToolMsg?
    && ev.messages[3].toolCallId == reply.toolCalls[0].id
    && ev.messages[3].name == reply.toolCalls[0].name
  }

  /** The tool message of a second-round request carries the tool's answer
      `data` for `city`: the weather summary, or the food dict unchanged;
      either way the answer held no `"error"` key. */
  predicate Carries(ev: Event, d: Domain, city: string, data: JsonObject) {
    && ev.Complete? && |ev.messages| == 4 && ev.messages[3].ToolMsg?
    && "error" !in data
    && if d.WeatherDomain? then HasWeatherFields(data) && ev.messages[3].payload == Summarize(city, data).value
       else ev.messages[3].payload == data
  }

  /** The tool's answer goes on to the second round: it holds no `"error"`
      key and, for weather, has every field the summary copies. */
  predicate Proceeds(d: Domain, data: JsonObject) {
    && "error" !in data
    && (d.WeatherDomain? ==> HasWeatherFields(data))
  }

  /** What the dispatched tool's result turns into: the failure text when it
      holds an `"error"` key, else the tool message's payload (or the
      exception building it raised). */
  datatype Step = Failed(text: string) | Proceed(payload: JsonObject) | Raise(e: Exc)

  function Examine(env: Env, d: Domain, city: string, data: JsonObject): Step {
    if "error" in data then Failed(d.FailurePrefix() + Display(env, data["error"]))
    else if d.WeatherDomain? then
      match Summarize(city, data)
      case Ok(summary) => Proceed(summary)
      case Err(e) => Raise(e)
    else Proceed(data)
  }

  /** The tool result's step, then (when it proceeds) the second model call
      with the four-message conversation; `tools` are the tool names bound
      to that call. */
  function Finish(env: Env, d: Domain, question: string, reply: Reply, city: string,
                  data: JsonObject, tools: seq<string>): (r: Traced<Result<string, Exc>>)
    requires |reply.toolCalls| > 0 && reply.toolCalls[0].name == d.ToolName()
    ensures |r.trace| <= 1
    ensures |r.trace| == 1 <==> Proceeds(d, data)
    ensures "error" in data ==> r == Traced(Ok(d.FailurePrefix() + Display(env, data["error"])), [])
    ensures "error" !in data && d.WeatherDomain? && !HasWeatherFields(data) ==>
      r == Traced(Err(Summarize(city, data).error), [])
    ensures |r.trace| == 1 ==> AnswersFirstCall(r.trace[0], question, reply) && r.trace[0].tools == tools
    ensures |r.trace| == 1 ==> r.trace[0].messages[0] == SystemMsg(d.FormatPrompt())
    ensures |r.trace| == 1 ==> Carries(r.trace[0], d, city, data)
    ensures |r.trace| == 1 ==> var c := env.complete(r.trace[0].messages, tools);
      && (c.Ok? ==> r.value == Ok(c.value.content))
      && (c.Err? ==> r.value == Err(c.error))
  {
    match Examine(env, d, city, data)
    case Failed(text) => Traced(Ok(text), [])
    case Raise(e) => Traced(Err(e), [])
    case Proceed(payload) =>
      var call := reply.toolCalls[0];
      var messages := [SystemMsg(d.FormatPrompt()), UserMsg(question), AssistantMsg(reply),
                       ToolMsg(call.id, d.ToolName(), payload)];
      var answer := match env.complete(messages, tools)
        case Ok(second) => Ok(second.content)
        case Err(e) => Err(e);
      Traced(answer, [Complete(messages, tools)])
  }

  /** Runs the dispatched tool on `city` and finishes the round: a raising
      tool is raised, otherwise its answer goes through `Finish`. */
  function RunAndFinish(env: Env, d: Domain, question: string, reply: Reply, city: string,
                        runTool: string -> Traced<Result<JsonObject, Exc>>, tools: seq<string>): (r: Traced<Result<string, Exc>>)
    requires |reply.toolCalls| > 0 && reply.toolCalls[0].name == d.ToolName()
    requires Completions(runTool(city).trace) == []
    ensures |Completions(r.trace)| <= 1
    ensures ToolSideCalls(r.trace) == runTool(city).trace
    ensures |Completions(r.trace)| == 1 ==>
      && AnswersFirstCall(Completions(r.trace)[0], question, reply)
      && Completions(r.trace)[0].tools == tools
      && Completions(r.trace)[0].messages[0] == SystemMsg(d.FormatPrompt())
      && runTool(city).value.Ok?
      && Carries(Completions(r.trace)[0], d, city, runTool(city).value.value)
    ensures |Completions(r.trace)| == 1 ==>
      var c := env.complete(Completions(r.trace)[0].messages, tools);
      && (c.Ok? ==> r.value == Ok(c.value.content))
      && (c.Err? ==> r.value == Err(c.error))
    ensures runTool(city).value.Err? ==> r.value == Err(runTool(city).value.error) && Completions(r.trace) == []
    ensures runTool(city).value.Ok? ==> (|Completions(r.trace)| == 1 <==> Proceeds(d, runTool(city).value.value))
    ensures var answer := runTool(city).value;
      answer.Ok? && "error" in answer.value ==>
        r.value == Ok(d.FailurePrefix() + Display(env, answer.value["error"])) && Completions(r.trace) == []
    ensures var answer := runTool(city).value;
      answer.Ok? && "error" !in answer.value && d.WeatherDomain? && !HasWeatherFields(answer.value) ==>
        r.value == Err(Summarize(city, answer.value).error) && Completions(r.trace) == []
  {
    var tool := runTool(city);
    ToolSideOnly(tool.trace);
    if tool.value.Err? then
      Traced(Err(tool.value.error), tool.trace)
    else
      var fin := Finish(env, d, question, reply, city, tool.value.value, tools);
      CompletionsAppend(tool.trace, fin.trace);
      ToolSideAppend(tool.trace, fin.trace);
      assert |fin.trace| == 1 ==> Completions(fin.trace) == fin.trace && ToolSideCalls(fin.trace) == [];
      Traced(fin.value, tool.trace + fin.trace)
  }

  /** Runs the dispatched tool on the first call's `city` argument and
      finishes the round. `args` is the first call's decoded arguments;
      `runTool` is the tool, which never calls the completion service. */
  function Dispatch(env: Env, d: Domain, question: string, reply: Reply, args: Result<map<string, string>, Exc>,
                    runTool: string -> Traced<Result<JsonObject, Exc>>, tools: seq<string>): (r: Traced<Result<string, Exc>>)
    requires |reply.toolCalls| > 0 && reply.toolCalls[0].name == d.ToolName()
    requires forall c :: Completions(runTool(c).trace) == []
    ensures |Completions(r.trace)| <= 1
    ensures |Completions(r.trace)| == 1 ==>
      && AnswersFirstCall(Completions(r.trace)[0], question, reply)
      && Completions(r.trace)[0].tools == tools
      && Completions(r.trace)[0].messages[0] == SystemMsg(d.FormatPrompt())
      && args.Ok? && CityArg(args.value).Ok? && runTool(CityArg(args.value).value).value.Ok?
      && Carries(Completions(r.trace)[0], d, CityArg(args.value).value, runTool(CityArg(args.value).value).value.value)
    ensures args.Ok? && CityArg(args.value).Ok? ==>
      var answer := runTool(CityArg(args.value).value).value;
      answer.Ok? && "error" in answer.value ==>
        r.value == Ok(d.FailurePrefix() + Display(env, answer.value["error"])) && Completions(r.trace) == []
    ensures ToolSideCalls(r.trace) == if args.Ok? && CityArg(args.value).Ok? then runTool(CityArg(args.value).value).trace else []
    ensures |Completions(r.trace)| == 1 ==>
      var c := env.complete(Completions(r.trace)[0].messages, tools);
      && (c.Ok? ==> r.value == Ok(c.value.content))
      && (c.Err? ==> r.value == Err(c.error))
    ensures args.Ok? && CityArg(args.value).Ok? && runTool(CityArg(args.value).value).value.Ok? ==>
      (|Completions(r.trace)| == 1 <==> Proceeds(d, runTool(CityArg(args.value).value).value.value))
    ensures args.Ok? && CityArg(args.value).Ok? ==>
      var city := CityArg(args.value).value;
      var answer := runTool(city).value;
      answer.Ok? && "error" !in answer.value && d.WeatherDomain? && !HasWeatherFields(answer.value) ==>
        r.value == Err(Summarize(city, answer.value).error) && Completions(r.trace) == []
    ensures args.Err? ==> r == Traced(Err(args.error), [])
    ensures args.Ok? && CityArg(args.value).Err? ==> r == Traced(Err(CityArg(args.value).error), [])
    ensures args.Ok? && CityArg(args.value).Ok? && runTool(CityArg(args.value).value).value.Err? ==>
      r.value == Err(runTool(CityArg(args.value).value).value.error) && Completions(r.trace) == []
  {
    if args.Err? then Traced(Err(args.error), [])
    else
      match CityArg(args.value)
      case Err(e) => Traced(Err(e), [])
      case Ok(city) => RunAndFinish(env, d, question, reply, city, runTool, tools)
  }

  /** Decoded arguments with a `city`, and a tool answer that proceeds, make
      exactly one second-round call, which carries that answer. */
  lemma DispatchProceeds(env: Env, d: Domain, question: string, reply: Reply, args: map<string, string>,
                         runTool: string -> Traced<Result<JsonObject, Exc>>, tools: seq<string>, data: JsonObject)
    requires |reply.toolCalls| > 0 && reply.toolCalls[0].name == d.ToolName()
    requires forall c :: Completions(runTool(c).trace) == []
    requires "city" in args && runTool(args["city"]).value == Ok(data) && Proceeds(d, data)
    ensures var rest := Dispatch(env, d, question, reply, Ok(args), runTool, tools);
      && |Completions(rest.trace)| == 1
      && AnswersFirstCall(Completions(rest.trace)[0], question, reply)
      && Carries(Completions(rest.trace)[0], d, args["city"], data)
      && var second := env.complete(Completions(rest.trace)[0].messages, tools);
         && (second.Ok? ==> rest.value == Ok(second.value.content))
         && (second.Err? ==> rest.value == Err(second.error))
  {
    assert CityArg(args) == Ok(args["city"]);
  }
}
