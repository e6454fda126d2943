/** The raw-client weather-and-food script (03.tool_use/
    03_weather_food_function_vanilla.py): the question alone goes to the
    model with both tool schemas, the arguments of the first tool call are
    JSON-decoded, the named tool runs, and a second model call (without
    tools) phrases the result. The weather tool is `RequestWeather`; neither
    tool localises the city. */
module WeatherFoodVanilla {

  import opened Wrappers
  import opened Errors
  import opened Text
  import opened Oracles
  import opened FoodSelection
  import opened Protocol

  /** Both tool schemas go with the first call; the second has none. */
  const FirstTools: seq<string> := [WeatherToolName, FoodToolName]
  const SecondTools: seq<string> := []

  const NoInfoMsg := "申し訳ありません。情報を取得できませんでした。"

  /** Characters of a page kept. */
  const ContentLimit: nat := 500

  /** Hits requested by the single search. */
  const SearchLimit: nat := 5

  /** The only title keyword. */
  const TitleKeywords: seq<string> := ["料理"]

  // ---------------------------------------------------------------------
  // get_food_info
  // ---------------------------------------------------------------------

  function FoodQuery(city: string): string {
    city + " 発祥 料理"
  }

  /** The body of the `try` block: one search, hits in the order returned
      (no de-duplication), the first title holding "料理" or else the first
      hit, and the page's first 500 characters with no extraction. */
  function FoodBody(env: Env, city: string): (r: Traced<Result<JsonObject, Exc>>)
    ensures 1 <= |r.trace| <= 2 && r.trace[0] == Search(FoodQuery(city), SearchLimit)
    ensures |r.trace| == 2 ==> && env.search(FoodQuery(city), SearchLimit).Ok?
                               && |env.search(FoodQuery(city), SearchLimit).value| > 0
                               && r.trace[1] == Fetch(SelectTitle(env.search(FoodQuery(city), SearchLimit).value, TitleKeywords))
    ensures r.value.Ok? ==> IsFoodAnswer(r.value.value)
    ensures env.search(FoodQuery(city), SearchLimit).Err? ==>
      r == Traced(Err(env.search(FoodQuery(city), SearchLimit).error), [Search(FoodQuery(city), SearchLimit)])
    ensures env.search(FoodQuery(city), SearchLimit) == Ok([]) ==>
      r == Traced(Ok(ErrorObject(NotFoundMsg)), [Search(FoodQuery(city), SearchLimit)])
    ensures |r.trace| == 2 && env.fetch(r.trace[1].title).Err? ==> r.value == Err(env.fetch(r.trace[1].title).error)
  {
    var t := [Search(FoodQuery(city), SearchLimit)];
    match env.search(FoodQuery(city), SearchLimit)
    case Err(e) => Traced(Err(e), t)
    case Ok(hits) =>
      if |hits| == 0 then Traced(Ok(ErrorObject(NotFoundMsg)), t)
      else
        var selected := SelectTitle(hits, TitleKeywords);
        (match env.fetch(selected)
         case Err(e) => Traced(Err(e), t + [Fetch(selected)])
         case Ok(p) => Traced(Ok(PageRecord(p.title, Take(p.content, ContentLimit), p.url)), t + [Fetch(selected)]))
  }

  /** The three `except` clauses. The first option is taken inside the inner
      `try`, so a disambiguation without options becomes an error dict too. */
  function Handle(env: Env, e: Exc): (r: Traced<Result<JsonObject, Exc>>)
    ensures r.value.Ok? && IsFoodAnswer(r.value.value)
    ensures r.trace == [] || (e.DisambiguationError? && |e.options| > 0 && r.trace == [Fetch(e.options[0])])
    ensures e.DisambiguationError? && |e.options| == 0 ==>
      r == Traced(Ok(ErrorObject(FetchFailedPrefix + IndexErrorMsg)), [])
    ensures e.DisambiguationError? && |e.options| > 0 ==>
      && r.trace == [Fetch(e.options[0])]
      && (env.fetch(e.options[0]).Ok? ==>
            var p := env.fetch(e.options[0]).value;
            r.value == Ok(PageRecord(p.title, Take(p.content, 500), p.url)))
      && (env.fetch(e.options[0]).Err? ==>
            r.value == Ok(ErrorObject(FetchFailedPrefix + Str(env.fetch(e.options[0]).error))))
    ensures e.PageError? ==> r == Traced(Ok(ErrorObject(PageMissingPrefix + e.msg)), [])
    ensures !e.DisambiguationError? && !e.PageError? ==> r == Traced(Ok(ErrorObject(GenericPrefix + Str(e))), [])
  {
    match e
    case DisambiguationError(_, options) =>
      if |options| == 0 then Traced(Ok(ErrorObject(FetchFailedPrefix + IndexErrorMsg)), [])
      else
        (match env.fetch(options[0])
         case Ok(p) => Traced(Ok(PageRecord(p.title, Take(p.content, ContentLimit), p.url)), [Fetch(options[0])])
         case Err(sub) => Traced(Ok(ErrorObject(FetchFailedPrefix + Str(sub))), [Fetch(options[0])]))
    case PageError(m) => Traced(Ok(ErrorObject(PageMissingPrefix + m)), [])
    case _ => Traced(Ok(ErrorObject(GenericPrefix + Str(e))), [])
  }

  /** `get_food_info(city)` never raises: a page record or an error dict. */
  function GetFoodInfo(env: Env, city: string): (r: Traced<Result<JsonObject, Exc>>)
    ensures r.value.Ok? && IsFoodAnswer(r.value.value)
    ensures KnowledgeBaseCalls(r.trace) && 1 <= |r.trace| <= 3
  {
    var body := FoodBody(env, city);
    if body.value.Ok? then body
    else
      var h := Handle(env, body.value.error);
      Traced(h.value, body.trace + h.trace)
  }

  /** The page fetched first is the first hit whose title holds "料理", or
      the first hit; its record keeps the first 500 characters verbatim. */
  lemma FetchesPreferredHit(env: Env, city: string, hits: seq<string>)
    requires env.search(FoodQuery(city), SearchLimit) == Ok(hits) && |hits| > 0
    ensures var selected := SelectTitle(hits, TitleKeywords);
      && selected in hits
      && ((exists h :: h in hits && Contains(h, "料理")) ==> Contains(selected, "料理"))
      && GetFoodInfo(env, city).trace[..2] == [Search(FoodQuery(city), SearchLimit), Fetch(selected)]
      && (env.fetch(selected).Ok? ==>
            var p := env.fetch(selected).value;
            GetFoodInfo(env, city).value == Ok(PageRecord(p.title, Take(p.content, 500), p.url)))
  {
    var selected := SelectTitle(hits, TitleKeywords);
    if exists h :: h in hits && Contains(h, "料理") {
      var h :| h in hits && Contains(h, "料理");
      assert "料理" in TitleKeywords;
      assert ContainsAny(h, TitleKeywords);
      assert ContainsAny(selected, TitleKeywords);
    }
    var body := FoodBody(env, city);
    assert body.trace == [Search(FoodQuery(city), SearchLimit), Fetch(selected)];
  }

  /** A disambiguation without options is answered with the fetch-failure
      dict carrying IndexError's message, and no page is fetched. */
  lemma EmptyDisambiguationIsErrorObject(env: Env, city: string, m: string)
    requires FoodBody(env, city).value == Err(DisambiguationError(m, []))
    ensures GetFoodInfo(env, city).value == Ok(ErrorObject(FetchFailedPrefix + IndexErrorMsg))
    ensures GetFoodInfo(env, city).trace == FoodBody(env, city).trace
  {
  }

  /** No hits: the not-found error dict, answered from inside the `try`
      after the single search and with no page fetched. */
  lemma NoHitsIsErrorObject(env: Env, city: string)
    requires env.search(FoodQuery(city), SearchLimit) == Ok([])
    ensures GetFoodInfo(env, city) == Traced(Ok(ErrorObject(NotFoundMsg)), [Search(FoodQuery(city), SearchLimit)])
  {
  }

  /** A disambiguation fetches its first option inside the inner `try`: the
      page's record with its first 500 characters, or the fetch-failure dict
      carrying the sub-failure's text. */
  lemma DisambiguationPath(env: Env, city: string, m: string, options: seq<string>)
    requires FoodBody(env, city).value == Err(DisambiguationError(m, options)) && |options| > 0
    ensures var r := GetFoodInfo(env, city);
      && r.trace == FoodBody(env, city).trace + [Fetch(options[0])]
      && (env.fetch(options[0]).Ok? ==>
            var p := env.fetch(options[0]).value;
            r.value == Ok(PageRecord(p.title, Take(p.content, 500), p.url)))
      && (env.fetch(options[0]).Err? ==>
            r.value == Ok(ErrorObject(FetchFailedPrefix + Str(env.fetch(options[0]).error))))
  {
  }

  /** A missing page, and every other exception, become error dicts with the
      page-missing or the generic prefix, with no further call. */
  lemma OtherFailuresAreErrorObjects(env: Env, city: string, e: Exc)
    requires FoodBody(env, city).value == Err(e) && !e.DisambiguationError?
    ensures GetFoodInfo(env, city).value == Ok(ErrorObject(
      if e.PageError? then PageMissingPrefix + e.msg else GenericPrefix + Str(e)))
    ensures GetFoodInfo(env, city).trace == FoodBody(env, city).trace
  {
    assert FoodBody(env, city).trace + [] == FoodBody(env, city).trace;
  }

  // ---------------------------------------------------------------------
  // process_query
  // ---------------------------------------------------------------------

  function FirstMessages(question: string): seq<Message> {
    [UserMsg(question)]
  }

  function RunTool(env: Env, d: Domain, city: string): Traced<Result<JsonObject, Exc>> {
    if d.WeatherDomain? then RequestWeather(env, city) else GetFoodInfo(env, city)
  }

  lemma ToolsNeverComplete(env: Env, d: Domain)
    ensures forall c :: Completions(RunTool(env, d, c).trace) == []
  {
    forall c ensures Completions(RunTool(env, d, c).trace) == [] {
      var t := RunTool(env, d, c).trace;
      if d.FoodDomain? {
        assert KnowledgeBaseCalls(t);
      }
      CompletionsNone(t);
    }
  }

  /** `process_query(question)`, whose result is `None` when the first call
      names neither tool. The arguments are decoded before the name is
      looked at, so undecodable arguments raise whatever the name. */
  function ProcessQuery(env: Env, question: string): (r: Traced<Result<Option<string>, Exc>>)
    ensures 1 <= |Completions(r.trace)| <= 2
    ensures r.trace[0] == Complete(FirstMessages(question), FirstTools)
    ensures |Completions(r.trace)| == 2 ==>
      var first := env.complete(FirstMessages(question), FirstTools);
      && first.Ok?
      && AnswersFirstCall(Completions(r.trace)[1], question, first.value)
      && Completions(r.trace)[1].tools == SecondTools
    ensures |Completions(r.trace)| == 2 ==>
      var second := env.complete(Completions(r.trace)[1].messages, SecondTools);
      && (second.Ok? ==> r.value == Ok(Some(second.value.content)))
      && (second.Err? ==> r.value == Err(second.error))
    ensures env.complete(FirstMessages(question), FirstTools).Err? ==>
      r == Traced(Err(env.complete(FirstMessages(question), FirstTools).error), [Complete(FirstMessages(question), FirstTools)])
    ensures var first := env.complete(FirstMessages(question), FirstTools);
      first.Ok? && |first.value.toolCalls| > 0 && RawClientArgs(env, first.value.toolCalls[0].args).Err? ==>
        r == Traced(Err(RawClientArgs(env, first.value.toolCalls[0].args).error), [Complete(FirstMessages(question), FirstTools)])
    ensures r.value == Ok(None) <==>
      var first := env.complete(FirstMessages(question), FirstTools);
      && first.Ok? && |first.value.toolCalls| > 0
      && RawClientArgs(env, first.value.toolCalls[0].args).Ok?
      && DomainOf(first.value.toolCalls[0].name).None?
  {
    var messages := FirstMessages(question);
    var ev := Complete(messages, FirstTools);
    match env.complete(messages, FirstTools)
    case Err(e) => Traced(Err(e), [ev])
    case Ok(reply) =>
      if |reply.toolCalls| == 0 then Traced(Ok(Some(NoInfoMsg)), [ev])
      else
        var call := reply.toolCalls[0];
        var args := RawClientArgs(env, call.args);
        if args.Err? then Traced(Err(args.error), [ev])
        else
          var d := DomainOf(call.name);
          if d.None? then Traced(Ok(None), [ev])
          else
            ToolsNeverComplete(env, d.value);
            var rest := Dispatch(env, d.value, question, reply, args, c => RunTool(env, d.value, c), SecondTools);
            CompletionsAppend([ev], rest.trace);
            Traced(if rest.value.Ok? then Ok(Some(rest.value.value)) else Err(rest.value.error), [ev] + rest.trace)
  }

  /** A first response without tool calls is answered with the fixed apology
      after one model call. */
  lemma NoToolCallFallsBack(env: Env, question: string, reply: Reply)
    requires env.complete(FirstMessages(question), FirstTools) == Ok(reply) && |reply.toolCalls| == 0
    ensures ProcessQuery(env, question) == Traced(Ok(Some(NoInfoMsg)), [Complete(FirstMessages(question), FirstTools)])
  {
  }

  /** `ProcessQuery` once the first response names a tool whose arguments
      decode. */
  lemma ProcessQueryDispatches(env: Env, question: string, reply: Reply, d: Domain)
    requires env.complete(FirstMessages(question), FirstTools) == Ok(reply)
    requires |reply.toolCalls| > 0 && reply.toolCalls[0].name == d.ToolName()
    requires RawClientArgs(env, reply.toolCalls[0].args).Ok?
    ensures forall c :: Completions(RunTool(env, d, c).trace) == []
    ensures var rest := Dispatch(env, d, question, reply, RawClientArgs(env, reply.toolCalls[0].args),
                                 c => RunTool(env, d, c), SecondTools);
      && ProcessQuery(env, question).trace == [Complete(FirstMessages(question), FirstTools)] + rest.trace
      && (rest.value.Ok? ==> ProcessQuery(env, question).value == Ok(Some(rest.value.value)))
      && (rest.value.Err? ==> ProcessQuery(env, question).value == Err(rest.value.error))
      && Completions(ProcessQuery(env, question).trace) == [Complete(FirstMessages(question), FirstTools)] + Completions(rest.trace)
      && ToolSideCalls(ProcessQuery(env, question).trace) == ToolSideCalls(rest.trace)
  {
    ToolsNeverComplete(env, d);
    var ev := Complete(FirstMessages(question), FirstTools);
    var rest := Dispatch(env, d, question, reply, RawClientArgs(env, reply.toolCalls[0].args),
                         c => RunTool(env, d, c), SecondTools);
    assert DomainOf(reply.toolCalls[0].name) == Some(d);
    CompletionsAppend([ev], rest.trace);
    ToolSideAppend([ev], rest.trace);
  }

  /** The tool runs on the decoded `city` of the first call, and its calls
      are the only ones besides the model calls. */
  lemma RunsFirstCallOnly(env: Env, question: string, reply: Reply, d: Domain, args: map<string, string>)
    requires env.complete(FirstMessages(question), FirstTools) == Ok(reply)
    requires |reply.toolCalls| > 0 && reply.toolCalls[0].name == d.ToolName()
    requires RawClientArgs(env, reply.toolCalls[0].args) == Ok(args) && "city" in args
    ensures ToolSideCalls(ProcessQuery(env, question).trace) == RunTool(env, d, args["city"]).trace
  {
    ProcessQueryDispatches(env, question, reply, d);
  }

  /** A tool answer holding `"error"` ends the query with the domain's
      apology and that value, without a second model call. */
  lemma ErrorAnswerShortCircuits(env: Env, question: string, reply: Reply, d: Domain, args: map<string, string>)
    requires env.complete(FirstMessages(question), FirstTools) == Ok(reply)
    requires |reply.toolCalls| > 0 && reply.toolCalls[0].name == d.ToolName()
    requires RawClientArgs(env, reply.toolCalls[0].args) == Ok(args) && "city" in args
    requires var answer := RunTool(env, d, args["city"]).value; answer.Ok? && "error" in answer.value
    ensures var r := ProcessQuery(env, question);
      && r.value == Ok(Some(d.FailurePrefix() + Display(env, RunTool(env, d, args["city"]).value.value["error"])))
      && |Completions(r.trace)| == 1
  {
    ProcessQueryDispatches(env, question, reply, d);
  }

  /** A tool answer without `"error"` (and, for weather, with the summary's
      fields) goes on to the second model call, which carries it, and the
      answer is that reply's content or its error. */
  lemma CleanAnswerMakesSecondCall(env: Env, question: string, reply: Reply, d: Domain,
                                   args: map<string, string>, data: JsonObject)
    requires env.complete(FirstMessages(question), FirstTools) == Ok(reply)
    requires |reply.toolCalls| > 0 && reply.toolCalls[0].name == d.ToolName()
    requires RawClientArgs(env, reply.toolCalls[0].args) == Ok(args) && "city" in args
    requires RunTool(env, d, args["city"]).value == Ok(data) && Proceeds(d, data)
    ensures var r := ProcessQuery(env, question);
      && |Completions(r.trace)| == 2
      && AnswersFirstCall(Completions(r.trace)[1], question, reply)
      && Carries(Completions(r.trace)[1], d, args["city"], data)
      && var second := env.complete(Completions(r.trace)[1].messages, SecondTools);
         && (second.Ok? ==> r.value == Ok(Some(second.value.content)))
         && (second.Err? ==> r.value == Err(second.error))
  {
    ProcessQueryDispatches(env, question, reply, d);
    DispatchProceeds(env, d, question, reply, args, c => RunTool(env, d, c), SecondTools, data);
  }

  /** A weather answer without `"error"` but missing a summary field raises
      while the summary is built, after the first model call only. */
  lemma MissingWeatherFieldsRaise(env: Env, question: string, reply: Reply,
                                  args: map<string, string>, data: JsonObject)
    requires env.complete(FirstMessages(question), FirstTools) == Ok(reply)
    requires |reply.toolCalls| > 0 && reply.toolCalls[0].name == WeatherToolName
    requires RawClientArgs(env, reply.toolCalls[0].args) == Ok(args) && "city" in args
    requires RequestWeather(env, args["city"]).value == Ok(data) && "error" !in data && !HasWeatherFields(data)
    ensures var r := ProcessQuery(env, question);
      && r.value == Err(Summarize(args["city"], data).error)
      && |Completions(r.trace)| == 1
  {
    ProcessQueryDispatches(env, question, reply, WeatherDomain);
  }
}
