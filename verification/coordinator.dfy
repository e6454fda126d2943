/** The coordinator of the agent package (src/agents/coordinator_agent.py):
    extract one city from the question, route by keywords to the weather
    agent and then the food agent, and join their answers into labelled
    sections. It never raises: any failure becomes an apology text. */
module Coordinator {

  import opened Wrappers
  import opened Errors
  import opened Text
  import opened Oracles
  import opened Agents

  /** The city used when extraction fails. */
  const DefaultCity := "東京"

  const WeatherKeywords: seq<string> := ["天気", "気温", "温度", "降水", "雨", "晴れ"]
  const FoodKeywords: seq<string> := ["料理", "食べ物", "名物", "郷土料理", "食"]

  const WeatherLabel := "天気情報:\n"
  const FoodLabel := "料理情報:\n"
  const SectionSeparator := "\n\n"

  const UnspecifiedMsg := "申し訳ありません。具体的な情報の種類を指定してください。"
  const ErrorPrefix := "申し訳ありません。エラーが発生しました: "

  // ---------------------------------------------------------------------
  // City extraction
  // ---------------------------------------------------------------------

  /** `_extract_city(query)`: the extraction model's answer, stripped, or the
      default city when the call raises. An answer of only white space gives
      the empty name. */
  function ExtractedCity(env: Env, query: string): (r: Traced<string>)
    ensures r.trace == [ExtractCity(query)]
    ensures Trimmed(r.value)
    ensures env.extractCity(query).Err? ==> r.value == DefaultCity
    ensures env.extractCity(query).Ok? ==> exists i: nat :: StrippedAt(env.extractCity(query).value, r.value, i)
  {
    match env.extractCity(query)
    case Ok(text) => Traced(Strip(text), [ExtractCity(query)])
    case Err(_) => Traced(DefaultCity, [ExtractCity(query)])
  }

  /** Stripping can leave nothing: a white-space answer yields the empty
      city name, not the default. */
  lemma BlankAnswerGivesEmptyCity(env: Env, query: string, a: string)
    requires env.extractCity(query) == Ok(a)
    requires AllSpace(a)
    ensures ExtractedCity(env, query).value == ""
  {
    var r := ExtractedCity(env, query).value;
    var i: nat :| StrippedAt(a, r, i);
    BlankSlice(a, r, i);
  }

  // ---------------------------------------------------------------------
  // Routing keywords
  // ---------------------------------------------------------------------

  /** The weather agent is wanted. */
  predicate WantsWeather(query: string) {
    ContainsAny(query, WeatherKeywords)
  }

  /** The food agent is wanted. */
  predicate WantsFood(query: string) {
    ContainsAny(query, FoodKeywords)
  }

  /** "食べ物" and "郷土料理" are redundant among the food keywords: each
      contains a shorter keyword. */
  lemma {:induction false} FoodKeywordsReduce(q: string)
    ensures WantsFood(q) <==> Contains(q, "料理") || Contains(q, "名物") || Contains(q, "食")
  {
    if Contains(q, "郷土料理") {
      assert OccursAt("郷土料理", "料理", 2);
      ContainsIffOccurs("郷土料理", "料理");
      ContainsTransitive(q, "郷土料理", "料理");
    }
    if Contains(q, "食べ物") {
      assert OccursAt("食べ物", "食", 0);
      ContainsIffOccurs("食べ物", "食");
      ContainsTransitive(q, "食べ物", "食");
    }
    if Contains(q, "料理") {
      assert "料理" in FoodKeywords;
    }
    if Contains(q, "名物") {
      assert "名物" in FoodKeywords;
    }
    if Contains(q, "食") {
      assert "食" in FoodKeywords;
    }
  }

  // ---------------------------------------------------------------------
  // Combining the answers
  // ---------------------------------------------------------------------

  /** The labelled sections, weather first, for the non-empty answers. */
  function Sections(weather: string, food: string): (r: seq<string>)
    ensures |r| == 0 <==> weather == "" && food == ""
  {
    (if weather != "" then [WeatherLabel + weather] else []) + (if food != "" then [FoodLabel + food] else [])
  }

  /** The sections joined by a blank line, or the request to name a kind of
      information when both answers are empty. */
  function Combine(weather: string, food: string): (r: string)
    ensures r == UnspecifiedMsg <==> weather == "" && food == ""
  {
    var parts := Sections(weather, food);
    if |parts| == 0 then UnspecifiedMsg
    else
      JoinStartsWithFirst(SectionSeparator, parts);
      assert r0: JoinWith(SectionSeparator, parts)[0] == parts[0][0];
      assert UnspecifiedMsg[0] != parts[0][0];
      JoinWith(SectionSeparator, parts)
  }

  /** A join of at least one piece starts with the first piece. */
  lemma JoinStartsWithFirst(sep: string, parts: seq<string>)
    requires |parts| > 0
    ensures parts[0] <= JoinWith(sep, parts)
  {
  }

  /** The layout of a combined answer: each non-empty answer appears once,
      after its label, the weather section first. */
  lemma CombineLayout(weather: string, food: string)
    ensures weather != "" && food == "" ==> Combine(weather, food) == WeatherLabel + weather
    ensures weather == "" && food != "" ==> Combine(weather, food) == FoodLabel + food
    ensures weather != "" && food != "" ==>
      Combine(weather, food) == WeatherLabel + weather + SectionSeparator + FoodLabel + food
  {
    if weather != "" && food != "" {
      var parts := Sections(weather, food);
      assert parts == [WeatherLabel + weather, FoodLabel + food];
      assert parts[1..] == [FoodLabel + food];
      assert JoinWith(SectionSeparator, parts[1..]) == FoodLabel + food;
      assert JoinWith(SectionSeparator, parts) == parts[0] + SectionSeparator + JoinWith(SectionSeparator, parts[1..]);
      assert Combine(weather, food) == (WeatherLabel + weather) + SectionSeparator + (FoodLabel + food);
    }
  }

  // ---------------------------------------------------------------------
  // process_query
  // ---------------------------------------------------------------------

  /** The city both agents are asked about. */
  function City(env: Env, query: string): string {
    ExtractedCity(env, query).value
  }

  /** The weather agent is wanted and its run raises. */
  predicate WeatherFails(env: Env, query: string) {
    WantsWeather(query) && env.runAgent(WeatherAgentConfig, WeatherQuery(City(env, query))).Err?
  }

  /** `CoordinatorAgent.process_query(query)`. After the extraction call it
      runs the weather agent exactly when a weather keyword occurs, then the
      food agent exactly when a food keyword occurs and the weather agent did
      not raise, both for the one extracted city. */
  function ProcessQuery(env: Env, query: string): (r: Traced<string>)
    ensures 1 <= |r.trace| <= 3 && r.trace[0] == ExtractCity(query)
    ensures forall i :: 1 <= i < |r.trace| ==>
      r.trace[i] == RunAgent(WeatherAgentConfig, WeatherQuery(City(env, query)))
      || r.trace[i] == RunAgent(FoodAgentConfig, FoodQuery(City(env, query)))
    ensures RunAgent(WeatherAgentConfig, WeatherQuery(City(env, query))) in r.trace <==> WantsWeather(query)
    ensures RunAgent(FoodAgentConfig, FoodQuery(City(env, query))) in r.trace <==>
      WantsFood(query) && !WeatherFails(env, query)
    ensures |r.trace| == 3 ==> r.trace[1].config == WeatherAgentConfig && r.trace[2].config == FoodAgentConfig
    ensures WeatherFails(env, query) ==>
      r.value == ErrorPrefix + ProcessingErrorPrefix
                 + Str(env.runAgent(WeatherAgentConfig, WeatherQuery(City(env, query))).error)
  {
    var city := ExtractedCity(env, query);
    var weather := if WantsWeather(query) then GetWeatherInfo(env, city.value) else Traced(Ok(""), []);
    match weather.value
    case Err(e) => Traced(ErrorPrefix + Str(e), city.trace + weather.trace)
    case Ok(w) =>
      var food := if WantsFood(query) then Agents.GetFoodInfo(env, city.value) else Traced("", []);
      Traced(Combine(w, food.value), city.trace + weather.trace + food.trace)
  }

  /** The answer when the weather agent does not raise: the combination of
      the two agents' answers, empty for an agent that was not wanted. */
  lemma AnswerCombinesAgents(env: Env, query: string)
    requires !WeatherFails(env, query)
    ensures var c := City(env, query);
      var w := if WantsWeather(query) then env.runAgent(WeatherAgentConfig, WeatherQuery(c)).value else "";
      var f := if WantsFood(query) then Agents.GetFoodInfo(env, c).value else "";
      ProcessQuery(env, query).value == Combine(w, f)
  {
  }

  /** A question with no routing keyword runs no agent and asks for a kind
      of information. */
  lemma NoKeywordAsksForKind(env: Env, query: string)
    requires !WantsWeather(query) && !WantsFood(query)
    ensures ProcessQuery(env, query) == Traced(UnspecifiedMsg, [ExtractCity(query)])
  {
  }
}
