/** The boundary of the model: the values exchanged with the completion
    service, the weather provider and the knowledge base, and the external
    calls themselves, passed in as one record of functions. Every call the
    model makes through this record is also written to a trace, so that
    "called once", "never called" and "called in this order" are statements
    about a returned sequence of events. */
module Oracles {

  import opened Wrappers
  import opened Errors

  /** A decoded JSON value; numbers keep their literal text because the
      model only ever copies them. */
  datatype Json =
    | JStr(s: string)
    | JNum(literal: string)
    | JBool(b: bool)
    | JNull
    | JArr(items: seq<Json>)
    | JObj(fields: map<string, Json>)

  /** A Python dict of JSON values, as tools return and `json.dumps` sends. */
  type JsonObject = map<string, Json>

  /** A knowledge-base page as `wikipedia.page` returns it. */
  datatype Page = Page(title: string, content: string, url: string)

  /** The arguments of a tool call: already a dict (LangChain's
      `tool_call["args"]`) or a JSON text still to be decoded (the raw
      client's `tool_call.function.arguments`). */
  datatype Args = Decoded(fields: map<string, string>) | Encoded(json: string)

  datatype ToolCall = ToolCall(id: string, name: string, args: Args)

  /** One completion response: final text, or requested tool calls. */
  datatype Reply = Reply(content: string, toolCalls: seq<ToolCall>)

  /** A conversation message. Only a tool message has a `tool_call_id`. */
  datatype Message =
    | SystemMsg(text: string)
    | UserMsg(text: string)
    | AssistantMsg(reply: Reply)
    | ToolMsg(toolCallId: string, name: string, payload: JsonObject)

  /** The prompt constants of the agent package, by name (their wording is
      not behaviour). */
  datatype PromptId = WeatherSystemPrompt | FoodSystemPrompt | CoordinatorSystemPrompt

  /** What an agent is constructed with: its tool subset (by tool name),
      system prompt, model name and sampling temperature. */
  datatype AgentConfig = AgentConfig(tools: seq<string>, prompt: PromptId, model: string, temperature: real)

  /** The names under which the two tools are bound to a model. */
  const WeatherToolName := "get_weather"
  const FoodToolName := "get_food_info"

  /** One external call, with the input it was given. */
  datatype Event =
    | Complete(messages: seq<Message>, tools: seq<string>)  // completion service, with bound tool names
    | ExtractCity(query: string)                            // the city-extraction model call
    | Translate(city: string)                               // the city-name localisation model call
    | WeatherRequest(city: string)                          // HTTP GET to the weather provider
    | Search(query: string, limit: nat)                     // knowledge-base search
    | Fetch(title: string)                                  // knowledge-base page fetch
    | RunAgent(config: AgentConfig, query: string)          // an agent executor run

  /** The external world. Each field answers one kind of call, returning a
      value or the exception the call raises. `listing` is the order in which
      the runtime enumerates `set(xs)`; `render` is Python's `str()` of a
      non-string JSON value. */
  datatype Env = Env(
    complete: (seq<Message>, seq<string>) -> Result<Reply, Exc>,
    extractCity: string -> Result<string, Exc>,
    translate: string -> Result<string, Exc>,
    weather: string -> Result<JsonObject, Exc>,
    search: (string, nat) -> Result<seq<string>, Exc>,
    fetch: string -> Result<Page, Exc>,
    listing: seq<string> -> seq<string>,
    jsonLoads: string -> Result<map<string, string>, Exc>,
    render: Json -> string,
    runAgent: (AgentConfig, string) -> Result<string, Exc>)

  /** A value together with the external calls made to compute it. */
  datatype Traced<T> = Traced(value: T, trace: seq<Event>)

  /** The completion-service calls of a trace, in order. */
  function Completions(t: seq<Event>): (r: seq<Event>)
    ensures |r| <= |t|
    ensures forall e :: e in r <==> e in t && e.Complete?
    decreases |t|
  {
    if |t| == 0 then []
    else (if t[0].Complete? then [t[0]] else []) + Completions(t[1..])
  }

  lemma {:induction false} CompletionsAppend(a: seq<Event>, b: seq<Event>)
    ensures Completions(a + b) == Completions(a) + Completions(b)
    decreases |a|
  {
    if |a| > 0 {
      assert (a + b)[1..] == a[1..] + b;
      CompletionsAppend(a[1..], b);
    } else {
      assert a + b == b;
    }
  }

  /** A trace with no completion-service call has no completions. */
  lemma CompletionsNone(t: seq<Event>)
    requires forall i :: 0 <= i < |t| ==> !t[i].Complete?
    ensures Completions(t) == []
  {
    if Completions(t) != [] {
      assert Completions(t)[0] in Completions(t);
    }
  }

  /** A trace of at most two non-completion calls has no completions. */
  lemma CompletionsNoneShort(t: seq<Event>)
    requires |t| <= 2
    requires |t| > 0 ==> !t[0].Complete?
    requires |t| > 1 ==> !t[1].Complete?
    ensures Completions(t) == []
  {
    CompletionsNone(t);
  }

  /** Python's f-string rendering of a JSON value. */
  function Display(env: Env, j: Json): string {
    if j.JStr? then j.s else env.render(j)
  }

  /** The dict `{"error": msg}` the tools return instead of raising. */
  function ErrorObject(msg: string): (o: JsonObject)
    ensures o.Keys == {"error"}
  {
    map["error" := JStr(msg)]
  }

  /** The dict `{"title": ..., "content": ..., "url": ...}` of a page. */
  function PageRecord(title: string, content: string, url: string): (o: JsonObject)
    ensures o.Keys == {"title", "content", "url"}
    ensures "error" !in o
  {
    map["title" := JStr(title), "content" := JStr(content), "url" := JStr(url)]
  }

  /** The calls of a trace other than completion-service calls, in order:
      localisation, provider, search and fetch calls. */
  function ToolSideCalls(t: seq<Event>): (r: seq<Event>)
    ensures |r| <= |t|
    decreases |t|
  {
    if |t| == 0 then []
    else (if t[0].Complete? then [] else [t[0]]) + ToolSideCalls(t[1..])
  }

  lemma {:induction false} ToolSideAppend(a: seq<Event>, b: seq<Event>)
    ensures ToolSideCalls(a + b) == ToolSideCalls(a) + ToolSideCalls(b)
    decreases |a|
  {
    if |a| > 0 {
      assert (a + b)[1..] == a[1..] + b;
      ToolSideAppend(a[1..], b);
    } else {
      assert a + b == b;
    }
  }

  /** A trace without completion-service calls is all tool side. */
  lemma {:induction false} ToolSideOnly(t: seq<Event>)
    requires Completions(t) == []
    ensures ToolSideCalls(t) == t
    decreases |t|
  {
    if |t| > 0 {
      ToolSideOnly(t[1..]);
      assert [t[0]] + t[1..] == t;
    }
  }
}
