/** The LangChain weather-and-food script (03.tool_use/
    06_weather_food_function_langchain.py): one model call with both tools
    bound, the first requested tool run on the call's `city`, and a second
    model call that phrases the tool's result. Both tools answer failures
    with an `{"error": ...}` dict rather than raising. */
module WeatherFoodLangChain {

  import opened Wrappers
  import opened Errors
  import opened Text
  import opened Oracles
  import opened FoodSelection
  import opened Protocol

  const FirstPrompt := "あなたは天気情報と料理情報を取得するアシスタントです。ユーザーの質問から適切な情報を取得してください。天気情報を取得する場合は、日本語の都市名をそのまま渡してください。内部で英語に変換されます。"

  /** Both tools are bound to both model calls. */
  const BoundTools: seq<string> := [WeatherToolName, FoodToolName]

  const NoInfoMsg := "申し訳ありません。情報を取得できませんでした。"


  /** Characters of a page kept before extraction, and of a disambiguation
      option's page. */
  const ContentLimit: nat := 500
  const OptionContentLimit: nat := 1000

  const SearchLimit: nat := 3

  // ---------------------------------------------------------------------
  // get_weather
  // ---------------------------------------------------------------------

  /** `get_weather(city)`: localise the name (outside the `try`, so a failed
      localisation raises), request the provider with the stripped answer,
      and turn a request failure into an error dict. */
  function GetWeather(env: Env, city: string): (r: Traced<Result<JsonObject, Exc>>)
    ensures 1 <= |r.trace| <= 2 && r.trace[0] == Translate(city)
    ensures |r.trace| == 2 <==> env.translate(city).Ok?
    ensures |r.trace| == 2 ==> r.trace[1] == WeatherRequest(Strip(env.translate(city).value))
    ensures r.value.Err? ==> env.translate(city).Err? || !r.value.error.RequestError?
    ensures env.translate(city).Err? ==> r.value == Err(env.translate(city).error)
    ensures env.translate(city).Ok? && env.weather(Strip(env.translate(city).value)).Ok? ==>
      r.value == env.weather(Strip(env.translate(city).value))
  {
    match env.translate(city)
    case Err(e) => Traced(Err(e), [Translate(city)])
    case Ok(text) =>
      var english := Strip(text);
      var t := [Translate(city), WeatherRequest(english)];
      match env.weather(english)
      case Ok(data) => Traced(Ok(data), t)
      case Err(e) => Traced(if e.RequestError? then Ok(ErrorObject(Str(e))) else Err(e), t)
  }

  /** A failed provider request yields `{"error": str(e)}`. */
  lemma RequestFailureIsErrorObject(env: Env, city: string, answer: string, m: string)
    requires env.translate(city) == Ok(answer)
    requires env.weather(Strip(answer)) == Err(RequestError(m))
    ensures GetWeather(env, city) == Traced(Ok(ErrorObject(m)), [Translate(city), WeatherRequest(Strip(answer))])
  {
  }

  // ---------------------------------------------------------------------
  // get_food_info
  // ---------------------------------------------------------------------

  /** The four Japanese search queries, in the order they are issued. */
  function JapaneseQueries(city: string): seq<string> {
    [city + " 料理", city + " 名物", city + " 郷土料理", city + " 発祥 料理"]
  }

  /** The body of the `try` block. No hits at all is answered with an error
      dict from inside the block; anything raised is returned as `Err`. */
  function FoodBody(env: Env, city: string): (r: Traced<Result<JsonObject, Exc>>)
    ensures KnowledgeBaseCalls(r.trace)
    ensures r.value.Ok? ==> IsFoodAnswer(r.value.value)
  {
    var hits := SearchAll(env, JapaneseQueries(city), SearchLimit);
    if hits.value.Err? then Traced(Err(hits.value.error), hits.trace)
    else
      var candidates := env.listing(hits.value.value);
      if |candidates| == 0 then Traced(Ok(ErrorObject(NotFoundMsg)), hits.trace)
      else
        var selected := SelectTitle(candidates, PageKeywords);
        var t := hits.trace + [Fetch(selected)];
        match env.fetch(selected)
        case Err(e) => Traced(Err(e), t)
        case Ok(p) => Traced(Ok(PageRecord(p.title, ExtractFoodSection(Take(p.content, ContentLimit)), p.url)), t)
  }

  /** The three `except` clauses. The option index is taken before the inner
      `try`, so a disambiguation without options raises IndexError out of the
      tool; every other path answers with a dict. */
  function Handle(env: Env, e: Exc): (r: Traced<Result<JsonObject, Exc>>)
    ensures r.value.Ok? ==> IsFoodAnswer(r.value.value)
    ensures r.value.Err? <==> e.DisambiguationError? && |e.options| == 0
    ensures r.value.Err? ==> r.value.error == OtherError(IndexErrorMsg)
    ensures r.trace == [] || (e.DisambiguationError? && |e.options| > 0
                              && r.trace == [Fetch(SelectTitle(e.options, PageKeywords))])
  {
    match e
    case DisambiguationError(_, options) =>
      if |options| == 0 then Traced(Err(OtherError(IndexErrorMsg)), [])
      else
        var selected := SelectTitle(options, PageKeywords);
        (match env.fetch(selected)
         case Ok(p) => Traced(Ok(PageRecord(p.title, Take(p.content, OptionContentLimit), p.url)), [Fetch(selected)])
         case Err(sub) => Traced(Ok(ErrorObject(FetchFailedPrefix + Str(sub))), [Fetch(selected)]))
    case PageError(m) => Traced(Ok(ErrorObject(PageMissingPrefix + m)), [])
    case _ => Traced(Ok(ErrorObject(GenericPrefix + Str(e))), [])
  }

  /** `get_food_info(city)`: a page record or an error dict; the IndexError
      of an option-less disambiguation is the only exception that leaves. */
  function GetFoodInfo(env: Env, city: string): (r: Traced<Result<JsonObject, Exc>>)
    ensures r.value.Ok? ==> IsFoodAnswer(r.value.value)
    ensures r.value.Err? ==> r.value.error == OtherError(IndexErrorMsg)
    ensures KnowledgeBaseCalls(r.trace)
  {
    var body := FoodBody(env, city);
    if body.value.Ok? then body
    else
      var h := Handle(env, body.value.error);
      Traced(h.value, body.trace + h.trace)
  }

  /** No hits: the not-found error dict, and no page is fetched. */
  lemma NoHitsIsErrorObject(env: Env, city: string)
    requires ListsSets(env)
    requires SearchAll(env, JapaneseQueries(city), SearchLimit).value == Ok([])
    ensures GetFoodInfo(env, city).value == Ok(ErrorObject(NotFoundMsg))
    ensures forall e :: e in GetFoodInfo(env, city).trace ==> e.Search?
  {
    var hits := SearchAll(env, JapaneseQueries(city), SearchLimit);
    ListingEmpty(env, []);
    assert forall e :: e in hits.trace ==> e.Search?;
  }

  /** The page fetched is a duplicate-free listing member of all hits,
      preferring a title that holds a title keyword, and a fetched page yields
      its title, URL and extracted food section. */
  lemma FetchesSelectedCandidate(env: Env, city: string)
    requires ListsSets(env)
    requires SearchAll(env, JapaneseQueries(city), SearchLimit).value.Ok?
    ensures var hits := SearchAll(env, JapaneseQueries(city), SearchLimit);
      var candidates := env.listing(hits.value.value);
      && NoDuplicates(candidates)
      && (forall x :: x in candidates <==> HitBy(env, JapaneseQueries(city), SearchLimit, x))
      && (|candidates| > 0 ==>
            var selected := SelectTitle(candidates, PageKeywords);
            && GetFoodInfo(env, city).trace[..|hits.trace| + 1] == hits.trace + [Fetch(selected)]
            && selected in candidates
            && ((exists c :: c in candidates && ContainsAny(c, PageKeywords)) ==> ContainsAny(selected, PageKeywords))
            && (env.fetch(selected).Ok? ==>
                  var p := env.fetch(selected).value;
                  GetFoodInfo(env, city).value == Ok(PageRecord(p.title, ExtractFoodSection(Take(p.content, ContentLimit)), p.url))))
  {
    var hits := SearchAll(env, JapaneseQueries(city), SearchLimit);
    var candidates := env.listing(hits.value.value);
    if |candidates| > 0 {
      var b := FoodBody(env, city).trace;
      var t := GetFoodInfo(env, city).trace;
      assert b == hits.trace + [Fetch(SelectTitle(candidates, PageKeywords))];
      assert t[..|b|] == b;
    }
  }

  /** A disambiguation takes the preferred option and keeps the raw first 1000
      characters; a failed fetch of it is an error dict with the fetch prefix. */
  lemma DisambiguationPath(env: Env, city: string, m: string, options: seq<string>)
    requires FoodBody(env, city).value == Err(DisambiguationError(m, options))
    ensures |options| == 0 ==> GetFoodInfo(env, city).value == Err(OtherError(IndexErrorMsg))
    ensures |options| > 0 ==>
      var selected := SelectTitle(options, PageKeywords);
      var r := GetFoodInfo(env, city);
      && r.trace == FoodBody(env, city).trace + [Fetch(selected)]
      && (env.fetch(selected).Ok? ==>
            var p := env.fetch(selected).value;
            r.value == Ok(PageRecord(p.title, Take(p.content, 1000), p.url)))
      && (env.fetch(selected).Err? ==>
            r.value == Ok(ErrorObject(FetchFailedPrefix + Str(env.fetch(selected).error))))
  {
  }

  /** A missing page, and every other exception, become error dicts. */
  lemma OtherFailuresAreErrorObjects(env: Env, city: string, e: Exc)
    requires FoodBody(env, city).value == Err(e) && !e.DisambiguationError?
    ensures GetFoodInfo(env, city).value == Ok(ErrorObject(
      if e.PageError? then PageMissingPrefix + e.msg else GenericPrefix + Str(e)))
  {
  }

  // ---------------------------------------------------------------------
  // process_query
  // ---------------------------------------------------------------------

  function FirstMessages(question: string): seq<Message> {
    [SystemMsg(FirstPrompt), UserMsg(question)]
  }

  /** The tool a domain names. */
  function RunTool(env: Env, d: Domain, city: string): Traced<Result<JsonObject, Exc>> {
    if d.WeatherDomain? then GetWeather(env, city) else GetFoodInfo(env, city)
  }

  /** Neither tool calls the completion service. */
  lemma ToolsNeverComplete(env: Env, d: Domain)
    ensures forall c :: Completions(RunTool(env, d, c).trace) == []
  {
    forall c ensures Completions(RunTool(env, d, c).trace) == [] {
      if d.WeatherDomain? {
        WeatherNeverCompletes(env, c);
      } else {
        FoodNeverCompletes(env, c);
      }
    }
  }

  lemma WeatherNeverCompletes(env: Env, city: string)
    ensures Completions(GetWeather(env, city).trace) == []
  {
    var t := GetWeather(env, city).trace;
    CompletionsNoneShort(t);
  }

  lemma FoodNeverCompletes(env: Env, city: string)
    ensures Completions(GetFoodInfo(env, city).trace) == []
  {
    var t := GetFoodInfo(env, city).trace;
    assert KnowledgeBaseCalls(t);
    CompletionsNone(t);
  }

  /** `process_query(question)`. At most two model calls: the first with the
      system prompt and the question, the second answering the first tool
      call of the first response; both with both tools bound. */
  function ProcessQuery(env: Env, question: string): (r: Traced<Result<string, Exc>>)
    ensures 1 <= |Completions(r.trace)| <= 2
    ensures r.trace[0] == Complete(FirstMessages(question), BoundTools)
    ensures |Completions(r.trace)| == 2 ==>
      var first := env.complete(FirstMessages(question), BoundTools);
      && first.Ok?
      && AnswersFirstCall(Completions(r.trace)[1], question, first.value)
      && Completions(r.trace)[1].tools == BoundTools
    ensures |Completions(r.trace)| == 2 ==>
      var second := env.complete(Completions(r.trace)[1].messages, BoundTools);
      && (second.Ok? ==> r.value == Ok(second.value.content))
      && (second.Err? ==> r.value == Err(second.error))
    ensures env.complete(FirstMessages(question), BoundTools).Err? ==>
      r == Traced(Err(env.complete(FirstMessages(question), BoundTools).error), [Complete(FirstMessages(question), BoundTools)])
  {
    var messages := FirstMessages(question);
    var ev := Complete(messages, BoundTools);
    match env.complete(messages, BoundTools)
    case Err(e) => Traced(Err(e), [ev])
    case Ok(reply) =>
      if |reply.toolCalls| == 0 then Traced(Ok(NoInfoMsg), [ev])
      else
        var call := reply.toolCalls[0];
        var d := DomainOf(call.name);
        if d.None? then Traced(Ok(NoInfoMsg), [ev])
        else
          ToolsNeverComplete(env, d.value);
          var rest := Dispatch(env, d.value, question, reply, LangChainArgs(call.args),
                               c => RunTool(env, d.value, c), BoundTools);
          CompletionsAppend([ev], rest.trace);
          Traced(rest.value, [ev] + rest.trace)
  }

  /** A first response without tool calls, or whose first call names neither
      tool, is answered with the fixed apology after one model call. */
  lemma UnhandledReplyFallsBack(env: Env, question: string, reply: Reply)
    requires env.complete(FirstMessages(question), BoundTools) == Ok(reply)
    requires |reply.toolCalls| == 0 || DomainOf(reply.toolCalls[0].name).None?
    ensures ProcessQuery(env, question) == Traced(Ok(NoInfoMsg), [Complete(FirstMessages(question), BoundTools)])
  {
  }

  /** `ProcessQuery` once the first response names a tool. */
  lemma ProcessQueryDispatches(env: Env, question: string, reply: Reply, d: Domain)
    requires env.complete(FirstMessages(question), BoundTools) == Ok(reply)
    requires |reply.toolCalls| > 0 && reply.toolCalls[0].name == d.ToolName()
    ensures forall c :: Completions(RunTool(env, d, c).trace) == []
    ensures var rest := Dispatch(env, d, question, reply, LangChainArgs(reply.toolCalls[0].args),
                                 c => RunTool(env, d, c), BoundTools);
      && ProcessQuery(env, question) == Traced(rest.value, [Complete(FirstMessages(question), BoundTools)] + rest.trace)
      && Completions(ProcessQuery(env, question).trace) == [Complete(FirstMessages(question), BoundTools)] + Completions(rest.trace)
      && ToolSideCalls(ProcessQuery(env, question).trace) == ToolSideCalls(rest.trace)
  {
    ToolsNeverComplete(env, d);
    var ev := Complete(FirstMessages(question), BoundTools);
    var rest := Dispatch(env, d, question, reply, LangChainArgs(reply.toolCalls[0].args),
                         c => RunTool(env, d, c), BoundTools);
    assert DomainOf(reply.toolCalls[0].name) == Some(d);
    CompletionsAppend([ev], rest.trace);
    ToolSideAppend([ev], rest.trace);
  }

  /** Only the first tool call is acted on: the calls made besides the model
      calls are exactly those of the tool it names, run on its `city`. */
  lemma RunsFirstCallOnly(env: Env, question: string, reply: Reply, d: Domain, args: map<string, string>)
    requires env.complete(FirstMessages(question), BoundTools) == Ok(reply)
    requires |reply.toolCalls| > 0 && reply.toolCalls[0].name == d.ToolName()
    requires reply.toolCalls[0].args == Decoded(args) && "city" in args
    ensures ToolSideCalls(ProcessQuery(env, question).trace) == RunTool(env, d, args["city"]).trace
  {
    ProcessQueryDispatches(env, question, reply, d);
  }

  /** A tool answer holding `"error"` ends the query with the domain's
      apology and that value, without a second model call. */
  lemma ErrorAnswerShortCircuits(env: Env, question: string, reply: Reply, d: Domain, args: map<string, string>)
    requires env.complete(FirstMessages(question), BoundTools) == Ok(reply)
    requires |reply.toolCalls| > 0 && reply.toolCalls[0].name == d.ToolName()
    requires reply.toolCalls[0].args == Decoded(args) && "city" in args
    requires var answer := RunTool(env, d, args["city"]).value; answer.Ok? && "error" in answer.value
    ensures var r := ProcessQuery(env, question);
      && r.value == Ok(d.FailurePrefix() + Display(env, RunTool(env, d, args["city"]).value.value["error"]))
      && |Completions(r.trace)| == 1
  {
    ProcessQueryDispatches(env, question, reply, d);
  }

  /** A tool answer without `"error"` (and, for weather, with the summary's
      fields) goes on to the second model call, which carries it, and the
      answer is that reply's content or its error. */
  lemma CleanAnswerMakesSecondCall(env: Env, question: string, reply: Reply, d: Domain,
                                   args: map<string, string>, data: JsonObject)
    requires env.complete(FirstMessages(question), BoundTools) == Ok(reply)
    requires |reply.toolCalls| > 0 && reply.toolCalls[0].name == d.ToolName()
    requires reply.toolCalls[0].args == Decoded(args) && "city" in args
    requires RunTool(env, d, args["city"]).value == Ok(data) && Proceeds(d, data)
    ensures var r := ProcessQuery(env, question);
      && |Completions(r.trace)| == 2
      && AnswersFirstCall(Completions(r.trace)[1], question, reply)
      && Carries(Completions(r.trace)[1], d, args["city"], data)
      && var second := env.complete(Completions(r.trace)[1].messages, BoundTools);
         && (second.Ok? ==> r.value == Ok(second.value.content))
         && (second.Err? ==> r.value == Err(second.error))
  {
    ProcessQueryDispatches(env, question, reply, d);
    assert LangChainArgs(reply.toolCalls[0].args) == Ok(args);
    DispatchProceeds(env, d, question, reply, args, c => RunTool(env, d, c), BoundTools, data);
  }

  /** A weather answer without `"error"` but missing a summary field raises
      while the summary is built, after the first model call only. */
  lemma MissingWeatherFieldsRaise(env: Env, question: string, reply: Reply,
                                  args: map<string, string>, data: JsonObject)
    requires env.complete(FirstMessages(question), BoundTools) == Ok(reply)
    requires |reply.toolCalls| > 0 && reply.toolCalls[0].name == WeatherToolName
    requires reply.toolCalls[0].args == Decoded(args) && "city" in args
    requires GetWeather(env, args["city"]).value == Ok(data) && "error" !in data && !HasWeatherFields(data)
    ensures var r := ProcessQuery(env, question);
      && r.value == Err(Summarize(args["city"], data).error)
      && |Completions(r.trace)| == 1
  {
    ProcessQueryDispatches(env, question, reply, WeatherDomain);
  }

  /** The weather tool message carries the five-field summary whose city is
      the tool call's own `city` argument, not the localised name. */
  lemma WeatherSummaryKeepsCallCity(env: Env, question: string, reply: Reply, args: map<string, string>)
    requires env.complete(FirstMessages(question), BoundTools) == Ok(reply)
    requires |reply.toolCalls| > 0 && reply.toolCalls[0].name == WeatherToolName
    requires reply.toolCalls[0].args == Decoded(args) && "city" in args
    ensures var r := ProcessQuery(env, question);
      |Completions(r.trace)| == 2 ==>
        var data := GetWeather(env, args["city"]).value;
        && data.Ok? && "error" !in data.value && HasWeatherFields(data.value)
        && env.translate(args["city"]).Ok? && data == env.weather(Strip(env.translate(args["city"]).value))
        && Completions(r.trace)[1].messages[3].payload == Summarize(args["city"], data.value).value
        && Completions(r.trace)[1].messages[3].payload["city"] == JStr(args["city"])
  {
    ProcessQueryDispatches(env, question, reply, WeatherDomain);
  }
}
