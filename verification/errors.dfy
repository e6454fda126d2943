/** The exception taxonomy of the agent package, and the exceptions the model
    lets oracles and tools raise. */
module Errors {

  import opened Wrappers

  /** The project's own exception classes. */
  datatype ErrorKind =
    | AgentError
    | ToolError
    | WeatherToolError
    | FoodToolError
    | AgentExecutionError
    | AgentInitializationError

  /** The direct base class of a project exception class, `None` for the two
      classes that derive directly from Python's `Exception`. */
  function Base(k: ErrorKind): Option<ErrorKind> {
    match k
    case AgentError => None
    case ToolError => None
    case WeatherToolError => Some(ToolError)
    case FoodToolError => Some(ToolError)
    case AgentExecutionError => Some(AgentError)
    case AgentInitializationError => Some(AgentError)
  }

  /** Distance from a class to `Exception`; each class sits one step below its
      base, which is what makes `IsA` well founded. */
  function Depth(k: ErrorKind): nat {
    if Base(k).None? then 1 else 2
  }

  /** Python's `issubclass(k, a)`: `a` is `k` or one of its ancestors. */
  predicate IsA(k: ErrorKind, a: ErrorKind)
    decreases Depth(k)
  {
    k == a || (Base(k).Some? && IsA(Base(k).value, a))
  }

  /** The hierarchy spelled out class by class. */
  lemma SubclassTable(k: ErrorKind, a: ErrorKind)
    ensures IsA(k, a) <==>
      || k == a
      || (k in {WeatherToolError, FoodToolError} && a == ToolError)
      || (k in {AgentExecutionError, AgentInitializationError} && a == AgentError)
  {
  }

  /** No class is both a tool error and an agent error: the two families are
      independent roots. */
  lemma RootsIndependent(k: ErrorKind)
    ensures !(IsA(k, AgentError) && IsA(k, ToolError))
  {
  }

  /** Weather and food tool errors are disjoint subclasses of ToolError. */
  lemma ToolErrorsDisjoint(k: ErrorKind)
    ensures !(IsA(k, WeatherToolError) && IsA(k, FoodToolError))
    ensures IsA(WeatherToolError, ToolError) && IsA(FoodToolError, ToolError)
    ensures !IsA(WeatherToolError, FoodToolError) && !IsA(FoodToolError, WeatherToolError)
  {
  }

  /** A raised exception. `Raised` carries one of the project's classes; the
      other constructors are the library exceptions the source catches by
      type (`wikipedia.exceptions.PageError`, `wikipedia.exceptions.
      DisambiguationError` with its `options`, `requests.exceptions.
      RequestException`); `OtherError` is every other `Exception`. */
  datatype Exc =
    | Raised(kind: ErrorKind, msg: string)
    | PageError(msg: string)
    | DisambiguationError(msg: string, options: seq<string>)
    | RequestError(msg: string)
    | OtherError(msg: string)

  /** Python's `str(e)`. */
  function Str(e: Exc): string {
    e.msg
  }

  /** `isinstance(e, k)` for a project class `k`. */
  predicate IsInstance(e: Exc, k: ErrorKind) {
    e.Raised? && IsA(e.kind, k)
  }

  /** `str(IndexError)` raised by indexing an empty list. */
  const IndexErrorMsg := "list index out of range"
}
