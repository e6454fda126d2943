/** The agent package's specialised agents (src/agents/weather_agent.py and
    src/agents/food_agent.py) over the shared base agent: each is a fixed
    configuration plus a query it synthesises from a city name. The agent
    executor run itself is an external call. */
module Agents {

  import opened Wrappers
  import opened Errors
  import opened Oracles

  /** The constructors' model and temperature defaults. */
  const ModelName := "gpt-4"
  const Temperature: real := 0.7

  const WeatherAgentConfig := AgentConfig([WeatherToolName], WeatherSystemPrompt, ModelName, Temperature)
  const FoodAgentConfig := AgentConfig([FoodToolName], FoodSystemPrompt, ModelName, Temperature)

  /** Prefix of the AgentError the base agent raises. */
  const ProcessingErrorPrefix := "Error processing query: "

  /** Prefix of the text the food agent returns instead of raising. */
  const FoodFailurePrefix := "料理情報の取得に失敗しました: "

  /** `BaseAgent.process_query(query)` (with no chat history): the
      executor's output, or an AgentError carrying the executor's message. */
  function RunQuery(env: Env, config: AgentConfig, query: string): (r: Traced<Result<string, Exc>>)
    ensures r.trace == [RunAgent(config, query)]
    ensures r.value.Ok? <==> env.runAgent(config, query).Ok?
    ensures r.value.Ok? ==> r.value.value == env.runAgent(config, query).value
    ensures r.value.Err? ==> && IsInstance(r.value.error, AgentError)
                             && r.value.error.msg == ProcessingErrorPrefix + Str(env.runAgent(config, query).error)
  {
    match env.runAgent(config, query)
    case Ok(output) => Traced(Ok(output), [RunAgent(config, query)])
    case Err(e) => Traced(Err(Raised(AgentError, ProcessingErrorPrefix + Str(e))), [RunAgent(config, query)])
  }

  function WeatherQuery(city: string): string {
    city + "の天気を教えてください"
  }

  function FoodQuery(city: string): string {
    city + "の料理情報を教えてください"
  }

  /** `WeatherAgent.get_weather_info(city)`: one run of the weather-only
      agent; its failure is re-raised unchanged. */
  function GetWeatherInfo(env: Env, city: string): (r: Traced<Result<string, Exc>>)
    ensures r.trace == [RunAgent(WeatherAgentConfig, WeatherQuery(city))]
    ensures r.value.Err? ==> IsInstance(r.value.error, AgentError)
  {
    RunQuery(env, WeatherAgentConfig, WeatherQuery(city))
  }

  /** `FoodAgent.get_food_info(city)`: one run of the food-only agent; it
      never raises, a failure becomes text. */
  function GetFoodInfo(env: Env, city: string): (r: Traced<string>)
    ensures r.trace == [RunAgent(FoodAgentConfig, FoodQuery(city))]
  {
    var run := RunQuery(env, FoodAgentConfig, FoodQuery(city));
    match run.value
    case Ok(output) => Traced(output, run.trace)
    case Err(e) => Traced(FoodFailurePrefix + Str(e), run.trace)
  }

  /** Each agent binds exactly its own tool, under its own prompt. */
  lemma ToolSubsets()
    ensures WeatherAgentConfig.tools == [WeatherToolName] && WeatherAgentConfig.prompt == WeatherSystemPrompt
    ensures FoodAgentConfig.tools == [FoodToolName] && FoodAgentConfig.prompt == FoodSystemPrompt
    ensures WeatherToolName !in FoodAgentConfig.tools && FoodToolName !in WeatherAgentConfig.tools
  {
  }

  /** The weather agent passes the executor's output through, and on failure
      raises the base agent's AgentError, whose text keeps the executor's
      message. */
  lemma WeatherAgentOutcome(env: Env, city: string)
    ensures var run := env.runAgent(WeatherAgentConfig, WeatherQuery(city));
      && (run.Ok? ==> GetWeatherInfo(env, city).value == Ok(run.value))
      && (run.Err? ==> GetWeatherInfo(env, city).value == Err(Raised(AgentError, ProcessingErrorPrefix + Str(run.error))))
  {
  }

  /** The food agent passes the executor's output through, and on failure
      returns the failure prefix, the base agent's prefix, and the message. */
  lemma FoodAgentOutcome(env: Env, city: string)
    ensures var run := env.runAgent(FoodAgentConfig, FoodQuery(city));
      && (run.Ok? ==> GetFoodInfo(env, city).value == run.value)
      && (run.Err? ==> GetFoodInfo(env, city).value == FoodFailurePrefix + ProcessingErrorPrefix + Str(run.error))
  {
  }
}
