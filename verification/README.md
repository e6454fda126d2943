# Weather and food agents: a Dafny model

This project models the orchestration core of a small question-answering system. The system answers Japanese questions about the weather and about local cuisine. It does this by calling a language-model completion service together with two tools:

- `get_weather` reads a weather provider;
- `get_food_info` searches a knowledge base and fetches a page.

The model covers these parts of the repository:

- **The agent package** (`04.tool_use_generic_configration/src`):
  - the exception classes;
  - the knowledge-base food tool `get_food_info`;
  - the weather and food agents, which are a fixed configuration plus a synthesized query around the shared base agent;
  - the coordinator. It extracts one city name, routes by keyword to the weather agent and then the food agent, and joins their answers into labelled sections.
- **Three single-round tool-calling scripts** (`03.tool_use`):
  - `06_weather_food_function_langchain.py` and `05.weather_function_langchain.py` use LangChain;
  - `03_weather_food_function_vanilla.py` uses the raw client.

  Each script does the same round:
  1. One model call.
  2. Dispatch on the first tool call.
  3. Run the tool on the call's `city`.
  4. An `"error"` short-circuit.
  5. A second model call whose four-message conversation answers that tool call.

Everything outside the program is a parameter: the completion service, the city-extraction and localisation model calls, the weather provider, the knowledge base, JSON decoding and the agent executor. All of it is one record `Oracles.Env` of total functions. Each call through the record is also appended to a trace of `Oracles.Event`s, which the model returns next to its value (`Traced`). "Called once", "never called", "called before" and "called with this argument" are therefore statements about that trace.

A raised Python exception is an `Err` of `Wrappers.Result`, carrying an `Errors.Exc`. That type holds:

- the project's own classes (`Raised`), over the class lattice `Errors.IsA`;
- the library exceptions the source catches by type;
- every other exception, as `OtherError`.

The order in which Python enumerates `set(xs)` is left open. It is the `listing` field of the environment. Lemmas that depend on it assume `FoodSelection.ListsSets`: every listing is duplicate-free and holds exactly the listed elements.

Modules, one per source file or shared component:

| module | file | models |
|---|---|---|
| `Wrappers` | wrappers.dfy | `Option`, `Result` |
| `Text` | text.dfy | substring test, `split('\n')`, `join`, `strip()`, slicing |
| `Errors` | errors.dfy | the exception classes and the exceptions the tools catch |
| `Oracles` | oracles.dfy | JSON values, pages, tool calls, messages, events, the environment |
| `FoodSelection` | food_selection.dfy | search loop, set listing, title selection, food-section extraction |
| `FoodTools` | food_tools.dfy | the agent package's `get_food_info` |
| `Agents` | agents.dfy | base, weather and food agents |
| `Coordinator` | coordinator.dfy | the coordinator agent |
| `Protocol` | protocol.dfy | the pieces the three scripts share |
| `WeatherFoodLangChain` | weather_food_langchain.dfy | the LangChain weather-and-food script |
| `WeatherFoodVanilla` | weather_food_vanilla.dfy | the raw-client weather-and-food script |
| `WeatherLangChain` | weather_langchain.dfy | the LangChain weather-only script |

## Behaviour notes

A few behaviours of the code are easy to miss when reading it. The model follows the code.

- **Extracted city.** The coordinator's extracted city is the model's answer with white space stripped. When the answer is blank, the extracted city is the empty name, not 東京 (`coordinator_agent.py:39-42`, `Coordinator.BlankAnswerGivesEmptyCity`).
- **Weather failure.** The weather agent re-raises. A weather-agent failure therefore reaches the coordinator's outer handler, so the answer becomes the generic apology and the food agent is not run (`weather_agent.py:49-51`, `coordinator_agent.py:86`, `Coordinator.ProcessQuery`).
- **Disambiguation with no options.** In the agent package's food tool and in the LangChain script's food tool, a disambiguation without options raises `IndexError` out of the handler. This is because `e.options[0]` is evaluated outside the inner `try`. The raw-client script evaluates it inside the inner `try`, and answers with an error dict instead.
- **No hits.** In the agent package's food tool, the "no hits" FoodToolError is raised inside the `try`. The generic handler then wraps it a second time. `FoodToolError` defines no `__str__`, so its text is the generic handler's prefix followed by the not-found message (`FoodTools.NoCandidates`).
- **Unrecognised tool name.** In the raw-client script, a tool call naming neither tool falls through and returns `None`. Its arguments are JSON-decoded before the name is examined, so undecodable arguments raise whatever the name is (`WeatherFoodVanilla.ProcessQuery`).

## Model

| member | source | states |
|---|---|---|
| Errors.SubclassTable | 04.tool_use_generic_configration/src/utils/exceptions.py:1-23 | `issubclass` over the six classes: each class is a subclass of itself; WeatherToolError and FoodToolError derive from ToolError; AgentExecutionError and AgentInitializationError derive from AgentError |
| Errors.RootsIndependent | 04.tool_use_generic_configration/src/utils/exceptions.py:1-7 | no class is both an AgentError and a ToolError |
| Errors.ToolErrorsDisjoint | 04.tool_use_generic_configration/src/utils/exceptions.py:9-15 | the two tool error classes are ToolErrors and neither is a subclass of the other |
| Text.Strip | 04.tool_use_generic_configration/src/agents/coordinator_agent.py:40 | `strip()` returns the text between leading and trailing white space: a slice of the input with no white space at either end, and only white space around it |
| Text.JoinSplitLines | 04.tool_use_generic_configration/src/tools/food_tools.py:67 | joining the pieces of `content.split('\n')` with newlines gives `content` back |
| Text.SplitJoinLines | 04.tool_use_generic_configration/src/tools/food_tools.py:79 | the other round trip of `"\n".join`: splitting a newline-join of newline-free pieces gives the pieces back |
| FoodSelection.PageKeywordsReduce | 04.tool_use_generic_configration/src/tools/food_tools.py:48 | a title matches one of 料理/名物/郷土料理 iff it contains 料理 or 名物 |
| FoodSelection.SearchAll | 04.tool_use_generic_configration/src/tools/food_tools.py:34-37 | the searches run in query order with the given limit; all of them run unless one raises, which is then the last call; on success, an item is collected iff some query's search returned it |
| FoodSelection.Dedup | 04.tool_use_generic_configration/src/tools/food_tools.py:40 | an admissible value of `list(set(xs))` exists: it is duplicate-free and has exactly the elements of `xs` |
| FoodSelection.ListingEmpty | 04.tool_use_generic_configration/src/tools/food_tools.py:40-45 | the de-duplicated candidates are empty iff the collected hits are |
| FoodSelection.SelectTitle | 04.tool_use_generic_configration/src/tools/food_tools.py:48-54 | the selected title is one of the candidates, and it holds a keyword whenever some candidate does |
| FoodSelection.SelectFirstMatch | 04.tool_use_generic_configration/src/tools/food_tools.py:48-52 | when the candidate at position i is the first to hold a keyword, it is the one selected |
| FoodSelection.SelectNoMatch | 04.tool_use_generic_configration/src/tools/food_tools.py:53-54 | when no candidate matches, the first candidate is selected |
| FoodSelection.ExtractFromFirstFoodLine | 04.tool_use_generic_configration/src/tools/food_tools.py:64-80 | the section-grouping loop returns the lines from the first keyword line on, rejoined with newlines, or the whole text if no line holds a keyword |
| FoodSelection.ExtractIsSuffix | 04.tool_use_generic_configration/src/tools/food_tools.py:62-80 | the extracted content is a suffix of the text it was extracted from |
| FoodTools.EnglishCity | 04.tool_use_generic_configration/src/tools/food_tools.py:15-20 | the localisation call happens iff the name holds a code point in U+3040–U+30FF or U+4E00–U+9FFF; otherwise the name is used verbatim; a localised name is the model's answer stripped |
| FoodTools.TranslateIffJapanese | 04.tool_use_generic_configration/src/tools/food_tools.py:17-20 | the whole tool makes the localisation call iff the name holds kana or kanji, and then as its first call |
| FoodTools.FoodBody | 04.tool_use_generic_configration/src/tools/food_tools.py:12-89 | after the localisation call, the `try` body only searches and fetches |
| FoodTools.AfterSearch | 04.tool_use_generic_configration/src/tools/food_tools.py:40-89 | after the searches, at most one page is fetched: the selection among the non-empty listed candidates |
| FoodTools.SearchesInOrder | 04.tool_use_generic_configration/src/tools/food_tools.py:27-37 | the searches follow the localisation call: "<c> cuisine", "<c> food", "<c> specialty", "<c> local food" in this order, with 3 results each; all four run unless one raises |
| FoodTools.NoCandidates | 04.tool_use_generic_configration/src/tools/food_tools.py:40-45 | no hits gives FoodToolError "予期せぬエラーが発生しました: 料理情報が見つかりませんでした。" (the generic handler re-wraps the inner raise); the only calls are the localisation (when made) and the searches, so no page is fetched |
| FoodTools.FetchesSelectedCandidate | 04.tool_use_generic_configration/src/tools/food_tools.py:34-59 | candidates are duplicate-free and hold exactly the union of all hits; the fetched page is the selected candidate, which holds a title keyword whenever one does |
| FoodTools.MainPathContent | 04.tool_use_generic_configration/src/tools/food_tools.py:59-89 | a fetched page gives its title and URL, and content that starts at the first keyword line of the page's first 500 characters and is a suffix of them (so at most 500 characters) |
| FoodTools.Handle | 04.tool_use_generic_configration/src/tools/food_tools.py:91-115 | every handled exception becomes a FoodToolError, except the IndexError of a disambiguation with no options; a missing page gives the page-missing prefix and its message with no call; any other non-disambiguation failure gives the generic prefix and `str(e)` with no call; a handler fetches at most the preferred option |
| FoodTools.OtherFailuresAreUnexpected | 04.tool_use_generic_configration/src/tools/food_tools.py:113-115 | a failure of the lookup that is neither a disambiguation nor a missing page is raised as a FoodToolError carrying the generic prefix and `str(e)`, after exactly the calls the lookup made |
| FoodTools.DisambiguationPath | 04.tool_use_generic_configration/src/tools/food_tools.py:91-107 | a disambiguation applies the title preference to its options and keeps the raw first 500 characters; a failed fetch raises FoodToolError with "ページの取得に失敗しました: "; no options gives IndexError |
| FoodTools.PageErrorPath | 04.tool_use_generic_configration/src/tools/food_tools.py:109-111 | a missing page raises FoodToolError "ページが見つかりませんでした: " followed by the message |
| FoodTools.GetFoodInfo | 04.tool_use_generic_configration/src/tools/food_tools.py:10-115 | a result has exactly the keys title/content/url; every failure is a FoodToolError, except the option-less IndexError; after the body only knowledge-base calls are made |
| Agents.RunQuery | 04.tool_use_generic_configration/src/agents/base_agent.py:68-94 | one executor run; its output is passed through; a failure is an AgentError "Error processing query: " followed by the message |
| Agents.GetWeatherInfo | 04.tool_use_generic_configration/src/agents/weather_agent.py:35-51 | one run of the weather configuration on "<city>の天気を教えてください"; a failure is raised as an AgentError |
| Agents.WeatherAgentOutcome | 04.tool_use_generic_configration/src/agents/weather_agent.py:45-51 | the output is returned unchanged, and the base agent's AgentError is re-raised unchanged |
| Agents.GetFoodInfo | 04.tool_use_generic_configration/src/agents/food_agent.py:19-28 | one run of the food configuration on "<city>の料理情報を教えてください"; it never raises |
| Agents.FoodAgentOutcome | 04.tool_use_generic_configration/src/agents/food_agent.py:20-28 | the output is returned unchanged; a failure gives "料理情報の取得に失敗しました: Error processing query: " followed by the message |
| Agents.ToolSubsets | 04.tool_use_generic_configration/src/agents/weather_agent.py:21-31 | the weather agent binds only get_weather under the weather prompt, and the food agent binds only get_food_info under the food prompt |
| Coordinator.ExtractedCity | 04.tool_use_generic_configration/src/agents/coordinator_agent.py:27-45 | one extraction call; the city is the stripped answer, or 東京 when the call raises; it is always trimmed |
| Coordinator.BlankAnswerGivesEmptyCity | 04.tool_use_generic_configration/src/agents/coordinator_agent.py:39-42 | an answer made only of white space (any length, including none) gives the empty city, not the default |
| Coordinator.FoodKeywordsReduce | 04.tool_use_generic_configration/src/agents/coordinator_agent.py:65 | a question matches the food keywords iff it contains 料理, 名物 or 食 |
| Coordinator.Sections | 04.tool_use_generic_configration/src/agents/coordinator_agent.py:70-74 | there are no sections iff both answers are empty |
| Coordinator.Combine | 04.tool_use_generic_configration/src/agents/coordinator_agent.py:69-84 | the answer is the request to name a kind of information iff both agent answers are empty |
| Coordinator.CombineLayout | 04.tool_use_generic_configration/src/agents/coordinator_agent.py:70-81 | each non-empty answer appears once, after its label "天気情報:\n" or "料理情報:\n"; weather comes first, separated by a blank line |
| Coordinator.ProcessQuery | 04.tool_use_generic_configration/src/agents/coordinator_agent.py:47-88 | extraction comes first; the weather agent runs iff a weather keyword occurs; the food agent runs iff a food keyword occurs and the weather agent did not raise; both get the same city, weather before food; a weather failure gives "申し訳ありません。エラーが発生しました: " followed by the AgentError text |
| Coordinator.AnswerCombinesAgents | 04.tool_use_generic_configration/src/agents/coordinator_agent.py:55-84 | when the weather agent does not raise, the answer combines the outputs of the agents that were wanted, with "" for an agent that was not |
| Coordinator.NoKeywordAsksForKind | 04.tool_use_generic_configration/src/agents/coordinator_agent.py:59-78 | with no keyword, no agent runs and the answer asks for a kind of information |
| Protocol.DomainOf | 03.tool_use/06_weather_food_function_langchain.py:161-188 | a name is dispatched iff it is get_weather or get_food_info, and it is dispatched to the tool of that name |
| Protocol.CityArg | 03.tool_use/06_weather_food_function_langchain.py:162 | reading `city` succeeds iff the key is present; otherwise KeyError |
| Protocol.Key | 03.tool_use/06_weather_food_function_langchain.py:170 | subscripting succeeds iff the value is an object holding the key, and gives that field |
| Protocol.First | 03.tool_use/06_weather_food_function_langchain.py:171 | `[0]` succeeds iff the value is a non-empty array, and gives its first item |
| Protocol.Summarize | 03.tool_use/06_weather_food_function_langchain.py:168-174 | the summary exists iff the provider payload has every field read; it has exactly city/temperature/description/humidity/wind_speed; city is the call's argument and the other four values are copied |
| Protocol.RequestWeather | 03.tool_use/03_weather_food_function_vanilla.py:13-28 | one provider request with the name as given; a request failure becomes `{"error": str(e)}` and no RequestException escapes |
| Protocol.Finish | 03.tool_use/06_weather_food_function_langchain.py:164-204 | a second model call is made iff the tool answer has no `"error"` and, for weather, has every field the summary copies; an `"error"` answer returns the domain apology without a model call; a weather answer missing a field raises the summary's error without a model call. The second call has four messages (format prompt, question, first response, tool message with the first call's id and name) and carries the summary or the food dict; its reply content is returned, or its error raised |
| Protocol.RunAndFinish | 03.tool_use/06_weather_food_function_langchain.py:162-204 | the tool runs on the given city and its calls come first; a raising tool is raised with no model call; otherwise a second call is made iff the answer has no `"error"` and, for weather, the summary's fields, and the answer is that call's reply content or its error; an `"error"` answer gives the domain apology |
| Protocol.Dispatch | 03.tool_use/06_weather_food_function_langchain.py:157-204 | when the tool answers, a second-round call is made iff the answer has no `"error"` and, for weather, has the summary's fields; that call answers the first tool call, and the answer is its reply's content, or its error raised; the only other calls are the tool's, run on the call's `city`; an `"error"` answer makes no model call; a weather answer missing a field, undecodable arguments, a missing `city` and a raising tool are raised with no model call |
| Protocol.DispatchProceeds | 03.tool_use/06_weather_food_function_langchain.py:157-204 | decoded arguments with a `city` and a tool answer without `"error"` (with the summary's fields, for weather) give exactly one second-round call, which answers the first tool call and carries that answer; the result is its reply content or its error |
| WeatherFoodLangChain.GetWeather | 03.tool_use/06_weather_food_function_langchain.py:14-49 | localisation first, and its failure is raised because it is outside the `try`; then one request with the stripped English name, whose success is returned unchanged; no RequestException escapes |
| WeatherFoodLangChain.RequestFailureIsErrorObject | 03.tool_use/06_weather_food_function_langchain.py:44-49 | after the localisation call and one provider request for the stripped answer, a request failure gives `{"error": str(e)}` instead of raising |
| WeatherFoodLangChain.FoodBody | 03.tool_use/06_weather_food_function_langchain.py:54-112 | the `try` body only searches and fetches, and answers with a page record or an error dict |
| WeatherFoodLangChain.Handle | 03.tool_use/06_weather_food_function_langchain.py:113-131 | every handler answers with a dict, except that a disambiguation without options raises IndexError; at most the preferred option is fetched |
| WeatherFoodLangChain.GetFoodInfo | 03.tool_use/06_weather_food_function_langchain.py:51-131 | the tool answers with a page record or an error dict; only the option-less IndexError escapes; it makes only knowledge-base calls |
| WeatherFoodLangChain.NoHitsIsErrorObject | 03.tool_use/06_weather_food_function_langchain.py:63-72 | no hits gives `{"error": "料理情報が見つかりませんでした。"}` and no page is fetched |
| WeatherFoodLangChain.FetchesSelectedCandidate | 03.tool_use/06_weather_food_function_langchain.py:56-112 | the four Japanese queries run in order; candidates are the duplicate-free union; the preferred candidate is fetched, and its record holds the extracted food section of the first 500 characters |
| WeatherFoodLangChain.DisambiguationPath | 03.tool_use/06_weather_food_function_langchain.py:113-127 | the preferred option's first 1000 characters, unextracted; a failed fetch gives the fetch-failure error dict; no options gives IndexError |
| WeatherFoodLangChain.OtherFailuresAreErrorObjects | 03.tool_use/06_weather_food_function_langchain.py:128-131 | a missing page gives "ページが見つかりませんでした: " and any other exception gives "エラーが発生しました: ", each as an error dict |
| WeatherFoodLangChain.ProcessQuery | 03.tool_use/06_weather_food_function_langchain.py:133-206 | one or two completion-service calls, plus the weather tool's localisation call; the first completion sends the system prompt and the question with both tools bound, and its failure is raised; a second one answers the first tool call of the first response, and the answer is that second reply's content, or its error raised |
| WeatherFoodLangChain.UnhandledReplyFallsBack | 03.tool_use/06_weather_food_function_langchain.py:156-206 | no tool call, or a first call naming neither tool, gives "申し訳ありません。情報を取得できませんでした。" after one model call |
| WeatherFoodLangChain.RunsFirstCallOnly | 03.tool_use/06_weather_food_function_langchain.py:156-189 | apart from model calls, exactly the tool named by the first call runs, on that call's `city`; later tool calls are ignored |
| WeatherFoodLangChain.ErrorAnswerShortCircuits | 03.tool_use/06_weather_food_function_langchain.py:161-192 | an `"error"` answer gives the domain apology with the error value, and there is no second model call |
| WeatherFoodLangChain.CleanAnswerMakesSecondCall | 03.tool_use/06_weather_food_function_langchain.py:161-204 | a tool answer without `"error"` (with the summary's fields, for weather) leads to exactly two model calls; the second answers the first tool call, carries that answer, and its reply content (or error) is the result |
| WeatherFoodLangChain.MissingWeatherFieldsRaise | 03.tool_use/06_weather_food_function_langchain.py:161-174 | a weather answer without `"error"` but missing a field raises the summary's error after the first model call only |
| WeatherFoodLangChain.WeatherSummaryKeepsCallCity | 03.tool_use/06_weather_food_function_langchain.py:161-183 | the weather tool message carries the five-field summary of the provider's answer for the localised name, and that summary's city is the call's argument, not the localised name |
| WeatherFoodVanilla.FoodBody | 03.tool_use/03_weather_food_function_vanilla.py:32-59 | one search for "<city> 発祥 料理" with 5 results; no hits gives `{"error": "料理情報が見つかりませんでした。"}` after the search alone; a failing search or fetch raises into the handlers; at most one fetch, of the selection among non-empty hits; a dict is a record or an error dict |
| WeatherFoodVanilla.Handle | 03.tool_use/03_weather_food_function_vanilla.py:60-75 | every handler answers with a dict and never raises: a disambiguation fetches options[0] inside the inner `try` and gives its record with 500 characters, or "ページの取得に失敗しました: " and `str(sub_e)` (the IndexError text when there are no options); a missing page gives "ページが見つかりませんでした: " and its message; anything else gives "エラーが発生しました: " and `str(e)` |
| WeatherFoodVanilla.GetFoodInfo | 03.tool_use/03_weather_food_function_vanilla.py:30-75 | the tool never raises and answers with a page record or an error dict, using at most three knowledge-base calls; its paths are pinned by the lemmas below |
| WeatherFoodVanilla.FetchesPreferredHit | 03.tool_use/03_weather_food_function_vanilla.py:34-59 | the first hit containing 料理 is fetched, otherwise the first hit; the record keeps the first 500 characters verbatim |
| WeatherFoodVanilla.EmptyDisambiguationIsErrorObject | 03.tool_use/03_weather_food_function_vanilla.py:60-71 | a disambiguation without options gives "ページの取得に失敗しました: list index out of range" as an error dict, and nothing is fetched |
| WeatherFoodVanilla.NoHitsIsErrorObject | 03.tool_use/03_weather_food_function_vanilla.py:34-38 | no hits gives `{"error": "料理情報が見つかりませんでした。"}` after the single search, with no fetch |
| WeatherFoodVanilla.DisambiguationPath | 03.tool_use/03_weather_food_function_vanilla.py:60-71 | a disambiguation with options fetches options[0] after the body's calls; a fetched page gives its record with the first 500 characters, a failed fetch gives "ページの取得に失敗しました: " and the sub-failure's text |
| WeatherFoodVanilla.OtherFailuresAreErrorObjects | 03.tool_use/03_weather_food_function_vanilla.py:72-75 | a missing page gives "ページが見つかりませんでした: " and its message, anything else "エラーが発生しました: " and `str(e)`, with no call beyond the body's |
| WeatherFoodVanilla.ProcessQuery | 03.tool_use/03_weather_food_function_vanilla.py:119-180 | the first call sends only the question, with both schemas, and its failure is raised; arguments that do not decode raise after that call alone, whatever the tool name; a second call has no tools and answers the first tool call, and the answer is that second reply's content, or its error raised; the result is `None` iff the decoded first call names neither tool |
| WeatherFoodVanilla.NoToolCallFallsBack | 03.tool_use/03_weather_food_function_vanilla.py:179-180 | a first reply without tool calls is answered with "申し訳ありません。情報を取得できませんでした。" after that single model call |
| WeatherFoodVanilla.RunsFirstCallOnly | 03.tool_use/03_weather_food_function_vanilla.py:131-163 | apart from model calls, exactly the named tool runs, on the JSON-decoded `city` of the first call |
| WeatherFoodVanilla.ErrorAnswerShortCircuits | 03.tool_use/03_weather_food_function_vanilla.py:136-166 | an `"error"` answer gives the domain apology with the error value, and there is no second model call |
| WeatherFoodVanilla.CleanAnswerMakesSecondCall | 03.tool_use/03_weather_food_function_vanilla.py:131-178 | a tool answer without `"error"` (with the summary's fields, for weather) leads to exactly two model calls; the second answers the first tool call, carries that answer, and its reply content (or error) is the result |
| WeatherFoodVanilla.MissingWeatherFieldsRaise | 03.tool_use/03_weather_food_function_vanilla.py:136-148 | a weather answer without `"error"` but missing a field raises the summary's error after the first model call only |
| WeatherLangChain.GetWeatherInfo | 03.tool_use/05.weather_function_langchain.py:31-86 | one or two model calls; the first sends the system prompt and the question with get_weather bound, and its failure is raised; a second one answers a get_weather first call, and the answer is that second reply's content, or its error raised; besides model calls, at most one call is made, and it is a weather request |
| WeatherLangChain.ErrorAnswerShortCircuits | 03.tool_use/05.weather_function_langchain.py:59-63 | when the provider answer for a get_weather call holds `"error"`, the answer is "申し訳ありません。天気情報の取得に失敗しました: " followed by that error, after one model call only |
| WeatherLangChain.CleanAnswerMakesSecondCall | 03.tool_use/05.weather_function_langchain.py:59-84 | a provider answer without `"error"` and with the summary's fields leads to exactly two model calls; the second answers the get_weather call, carries the summary, and its reply content (or error) is the result |
| WeatherLangChain.MissingWeatherFieldsRaise | 03.tool_use/05.weather_function_langchain.py:59-72 | a provider answer without `"error"` but missing a field raises the summary's error after the first model call only |
| WeatherLangChain.WeatherSummaryKeepsCallCity | 03.tool_use/05.weather_function_langchain.py:59-84 | when a second model call is made, the provider answered without `"error"` and with the needed fields, and the tool message is the five-field summary of that answer, whose city is the call's own `city` argument |
| WeatherLangChain.OtherReplyFallsBack | 03.tool_use/05.weather_function_langchain.py:54-86 | any first response other than a get_weather call gives "申し訳ありません。天気情報を取得できませんでした。" after one model call |
| WeatherLangChain.RequestsCallCity | 03.tool_use/05.weather_function_langchain.py:13-60 | exactly one provider request, for the call's `city` as written |

## Left out

- Logging, `.env` loading, API keys, and the model names and temperatures of the scripts' own model clients are left out. They do not affect control flow.
- Prompt wording is left out except where the code returns or sends a fixed text. The agent prompts appear only as names (`Oracles.PromptId`).
- The agent executor is a single external call (`Env.runAgent`). The tool calls it makes internally are not connected to the tool models.
- The coordinator's own executor is built by its constructor but never run by `process_query`, so it is not modelled.
- The package's `weather_tools.get_weather` is reached only through the weather agent's executor, so it is not modelled. Its localisation helper is the `translate` call followed by `Strip`.
- `json.dumps` of the tool message is not modelled: the message carries the JSON object itself.
- Python's `str()` of a non-string JSON value in the apology texts is an external function (`Env.render`).
- The exact `TypeError` texts for subscripting a value of the wrong kind are left out. The model uses one fixed text.
- `wikipedia.set_lang('en')` is a global setting of the knowledge-base client and is not modelled.
- A model reply's content is always a string. A missing (`None`) content is not modelled.
- LangChain's `tool.invoke(city)` is modelled as calling the tool on the string.
- Decoded tool arguments are assumed to be a JSON object whose values are all strings, as both tool schemas declare for `city` (`Oracles.Args`, `Env.jsonLoads`). A `json.loads` result that is not an object, or a non-string `city` passed on to a tool and into the weather summary's `"city"` field, is not modelled.
- The `chat_history` parameter of the base agent is not modelled. It is always empty in the modelled calls.
- The `__main__` blocks, `main.py`, `config.py`, the examples, and the scripts numbered 01, 02 and 04 are outside this model.
- The order of `list(set(...))` is not fixed in the model. `Env.listing` is an external function, and lemmas about the candidates assume only that it behaves like `list(set(...))`. Properties that depend on it hold for every duplicate-free listing of the hits (`FoodSelection.ListsSets`), not for CPython's hash order.
