/** The LangChain weather-only script (03.tool_use/
    05.weather_function_langchain.py): one model call with the weather tool
    bound, the pass-through weather tool on the first call's `city`, and a
    second model call that phrases the five-field summary. */
module WeatherLangChain {

  import opened Wrappers
  import opened Errors
  import opened Oracles
  import opened Protocol

  const FirstPrompt := "あなたは天気情報を取得するアシスタントです。ユーザーの質問から都市名(英名)を抽出し、その都市の天気情報を取得してください。"

  /** The weather tool is bound to both model calls. */
  const BoundTools: seq<string> := [WeatherToolName]

  const NoWeatherMsg := "申し訳ありません。天気情報を取得できませんでした。"

  function FirstMessages(question: string): seq<Message> {
    [SystemMsg(FirstPrompt), UserMsg(question)]
  }

  lemma WeatherNeverCompletes(env: Env)
    ensures forall c :: Completions(RequestWeather(env, c).trace) == []
  {
    forall c ensures Completions(RequestWeather(env, c).trace) == [] {
      CompletionsNone(RequestWeather(env, c).trace);
    }
  }

  /** `get_weather_info(question)`: any first response other than a
      `get_weather` call is answered with the weather apology. */
  function GetWeatherInfo(env: Env, question: string): (r: Traced<Result<string, Exc>>)
    ensures 1 <= |Completions(r.trace)| <= 2
    ensures r.trace[0] == Complete(FirstMessages(question), BoundTools)
    ensures |Completions(r.trace)| == 2 ==>
      var first := env.complete(FirstMessages(question), BoundTools);
      && first.Ok?
      && AnswersFirstCall(Completions(r.trace)[1], question, first.value)
      && first.value.toolCalls[0].name == WeatherToolName
      && Completions(r.trace)[1].tools == BoundTools
    ensures |Completions(r.trace)| == 2 ==>
      var second := env.complete(Completions(r.trace)[1].messages, BoundTools);
      && (second.Ok? ==> r.value == Ok(second.value.content))
      && (second.Err? ==> r.value == Err(second.error))
    ensures env.complete(FirstMessages(question), BoundTools).Err? ==>
      r == Traced(Err(env.complete(FirstMessages(question), BoundTools).error), [Complete(FirstMessages(question), BoundTools)])
    ensures |ToolSideCalls(r.trace)| <= 1
    ensures forall e :: e in ToolSideCalls(r.trace) ==> e.WeatherRequest?
  {
    var messages := FirstMessages(question);
    var ev := Complete(messages, BoundTools);
    match env.complete(messages, BoundTools)
    case Err(e) => Traced(Err(e), [ev])
    case Ok(reply) =>
      if |reply.toolCalls| == 0 || reply.toolCalls[0].name != WeatherToolName then Traced(Ok(NoWeatherMsg), [ev])
      else
        WeatherNeverCompletes(env);
        var rest := Dispatch(env, WeatherDomain, question, reply, LangChainArgs(reply.toolCalls[0].args),
                             c => RequestWeather(env, c), BoundTools);
        CompletionsAppend([ev], rest.trace);
        ToolSideAppend([ev], rest.trace);
        assert ToolSideCalls([ev]) == [];
        Traced(rest.value, [ev] + rest.trace)
  }

  /** A first response that is not a `get_weather` call is answered with the
      weather apology after one model call. */
  lemma OtherReplyFallsBack(env: Env, question: string, reply: Reply)
    requires env.complete(FirstMessages(question), BoundTools) == Ok(reply)
    requires |reply.toolCalls| == 0 || reply.toolCalls[0].name != WeatherToolName
    ensures GetWeatherInfo(env, question) == Traced(Ok(NoWeatherMsg), [Complete(FirstMessages(question), BoundTools)])
  {
  }

  /** The provider is asked once, for the call's `city` exactly as the model
      wrote it. */
  lemma RequestsCallCity(env: Env, question: string, reply: Reply, args: map<string, string>)
    requires env.complete(FirstMessages(question), BoundTools) == Ok(reply)
    requires |reply.toolCalls| > 0 && reply.toolCalls[0].name == WeatherToolName
    requires reply.toolCalls[0].args == Decoded(args) && "city" in args
    ensures ToolSideCalls(GetWeatherInfo(env, question).trace) == [WeatherRequest(args["city"])]
  {
    var ev := Complete(FirstMessages(question), BoundTools);
    WeatherNeverCompletes(env);
    var rest := Dispatch(env, WeatherDomain, question, reply, LangChainArgs(reply.toolCalls[0].args),
                         c => RequestWeather(env, c), BoundTools);
    ToolSideAppend([ev], rest.trace);
  }
  /** `GetWeatherInfo` once the first response is a `get_weather` call. */
  lemma GetWeatherInfoDispatches(env: Env, question: string, reply: Reply)
    requires env.complete(FirstMessages(question), BoundTools) == Ok(reply)
    requires |reply.toolCalls| > 0 && reply.toolCalls[0].name == WeatherToolName
    ensures forall c :: Completions(RequestWeather(env, c).trace) == []
    ensures var rest := Dispatch(env, WeatherDomain, question, reply, LangChainArgs(reply.toolCalls[0].args),
                                 c => RequestWeather(env, c), BoundTools);
      && GetWeatherInfo(env, question) == Traced(rest.value, [Complete(FirstMessages(question), BoundTools)] + rest.trace)
      && Completions(GetWeatherInfo(env, question).trace) == [Complete(FirstMessages(question), BoundTools)] + Completions(rest.trace)
  {
    WeatherNeverCompletes(env);
    var ev := Complete(FirstMessages(question), BoundTools);
    var rest := Dispatch(env, WeatherDomain, question, reply, LangChainArgs(reply.toolCalls[0].args),
                         c => RequestWeather(env, c), BoundTools);
    CompletionsAppend([ev], rest.trace);
  }

  /** A provider answer holding `"error"` ends the question with the weather
      apology and that value, without a second model call. */
  lemma ErrorAnswerShortCircuits(env: Env, question: string, reply: Reply, args: map<string, string>)
    requires env.complete(FirstMessages(question), BoundTools) == Ok(reply)
    requires |reply.toolCalls| > 0 && reply.toolCalls[0].name == WeatherToolName
    requires reply.toolCalls[0].args == Decoded(args) && "city" in args
    requires var answer := RequestWeather(env, args["city"]).value; answer.Ok? && "error" in answer.value
    ensures var r := GetWeatherInfo(env, question);
      && r.value == Ok(WeatherFailurePrefix + Display(env, RequestWeather(env, args["city"]).value.value["error"]))
      && |Completions(r.trace)| == 1
  {
    GetWeatherInfoDispatches(env, question, reply);
  }

  /** A provider answer without `"error"` and with the summary's fields goes
      on to the second model call, which carries its summary, and the answer
      is that reply's content or its error. */
  lemma CleanAnswerMakesSecondCall(env: Env, question: string, reply: Reply,
                                   args: map<string, string>, data: JsonObject)
    requires env.complete(FirstMessages(question), BoundTools) == Ok(reply)
    requires |reply.toolCalls| > 0 && reply.toolCalls[0].name == WeatherToolName
    requires reply.toolCalls[0].args == Decoded(args) && "city" in args
    requires RequestWeather(env, args["city"]).value == Ok(data) && Proceeds(WeatherDomain, data)
    ensures var r := GetWeatherInfo(env, question);
      && |Completions(r.trace)| == 2
      && AnswersFirstCall(Completions(r.trace)[1], question, reply)
      && Carries(Completions(r.trace)[1], WeatherDomain, args["city"], data)
      && var second := env.complete(Completions(r.trace)[1].messages, BoundTools);
         && (second.Ok? ==> r.value == Ok(second.value.content))
         && (second.Err? ==> r.value == Err(second.error))
  {
    GetWeatherInfoDispatches(env, question, reply);
  }

  /** A provider answer without `"error"` but missing a summary field raises
      while `weather_info` is built, after the first model call only. */
  lemma MissingWeatherFieldsRaise(env: Env, question: string, reply: Reply,
                                  args: map<string, string>, data: JsonObject)
    requires env.complete(FirstMessages(question), BoundTools) == Ok(reply)
    requires |reply.toolCalls| > 0 && reply.toolCalls[0].name == WeatherToolName
    requires reply.toolCalls[0].args == Decoded(args) && "city" in args
    requires RequestWeather(env, args["city"]).value == Ok(data) && "error" !in data && !HasWeatherFields(data)
    ensures var r := GetWeatherInfo(env, question);
      && r.value == Err(Summarize(args["city"], data).error)
      && |Completions(r.trace)| == 1
  {
    GetWeatherInfoDispatches(env, question, reply);
  }

  /** The tool message carries the five-field summary of the provider's
      payload, whose city is the call's own `city` argument. */
  lemma WeatherSummaryKeepsCallCity(env: Env, question: string, reply: Reply, args: map<string, string>)
    requires env.complete(FirstMessages(question), BoundTools) == Ok(reply)
    requires |reply.toolCalls| > 0 && reply.toolCalls[0].name == WeatherToolName
    requires reply.toolCalls[0].args == Decoded(args) && "city" in args
    ensures var r := GetWeatherInfo(env, question);
      |Completions(r.trace)| == 2 ==>
        var data := env.weather(args["city"]);
        && data.Ok? && "error" !in data.value && HasWeatherFields(data.value)
        && Completions(r.trace)[1].messages[3].payload == Summarize(args["city"], data.value).value
        && Completions(r.trace)[1].messages[3].payload["city"] == JStr(args["city"])
  {
    GetWeatherInfoDispatches(env, question, reply);
  }
}
