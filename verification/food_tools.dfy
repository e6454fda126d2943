/** The knowledge-base food tool of the agent package (`get_food_info` in
    src/tools/food_tools.py): localise the city name, run four English
    searches, pick a page, extract its food section, and turn every failure
    into a FoodToolError. */
module FoodTools {

  import opened Wrappers
  import opened Errors
  import opened Text
  import opened Oracles
  import opened FoodSelection

  const UnexpectedPrefix := "予期せぬエラーが発生しました: "

  /** Characters of a page kept before extraction. */
  const ContentLimit: nat := 500

  /** Hits requested per search. */
  const SearchLimit: nat := 3

  /** The four English search queries, in the order they are issued. */
  function EnglishQueries(city: string): seq<string> {
    [city + " cuisine", city + " food", city + " specialty", city + " local food"]
  }

  /** `convert_to_english_city_name(city)`: the model's answer, stripped. */
  function Translated(env: Env, city: string): Result<string, Exc> {
    match env.translate(city)
    case Ok(text) => Ok(Strip(text))
    case Err(e) => Err(e)
  }

  /** The city name the searches use: translated when it holds kana or kanji,
      verbatim otherwise. */
  function EnglishCity(env: Env, city: string): (r: Traced<Result<string, Exc>>)
    ensures r.trace == if HasJapaneseScript(city) then [Translate(city)] else []
    ensures !HasJapaneseScript(city) ==> r.value == Ok(city)
    ensures HasJapaneseScript(city) ==> r.value == Translated(env, city)
  {
    if HasJapaneseScript(city) then Traced(Translated(env, city), [Translate(city)])
    else Traced(Ok(city), [])
  }

  /** The body of the `try` block: returns the record, or the exception that
      leaves the block (before any handler sees it). After the localisation
      call it only searches and fetches. */
  function FoodBody(env: Env, city: string): (r: Traced<Result<JsonObject, Exc>>)
    ensures var n := |EnglishCity(env, city).trace|;
      n <= |r.trace| && r.trace[..n] == EnglishCity(env, city).trace && KnowledgeBaseCalls(r.trace[n..])
    ensures r.value.Ok? ==> r.value.value.Keys == {"title", "content", "url"}
  {
    var loc := EnglishCity(env, city);
    if loc.value.Err? then Traced(Err(loc.value.error), loc.trace)
    else
      var hits := SearchAll(env, EnglishQueries(loc.value.value), SearchLimit);
      var r := AfterSearch(env, hits.value);
      assert KnowledgeBaseCalls(hits.trace);
      assert KnowledgeBaseCalls(r.trace);
      KnowledgeBaseAppend(hits.trace, r.trace);
      AppendParts(loc.trace, hits.trace + r.trace);
      Traced(r.value, loc.trace + (hits.trace + r.trace))
  }

  /** The rest of the `try` block once the searches have run: list the
      candidates, select one, fetch it and extract its food section. */
  function AfterSearch(env: Env, hits: Result<seq<string>, Exc>): (r: Traced<Result<JsonObject, Exc>>)
    ensures r.trace == [] || (hits.Ok? && |env.listing(hits.value)| > 0
                              && r.trace == [Fetch(SelectTitle(env.listing(hits.value), PageKeywords))])
    ensures r.value.Ok? ==> r.value.value.Keys == {"title", "content", "url"}
  {
    if hits.Err? then Traced(Err(hits.error), [])
    else
      var candidates := env.listing(hits.value);
      if |candidates| == 0 then Traced(Err(Raised(FoodToolError, NotFoundMsg)), [])
      else
        var selected := SelectTitle(candidates, PageKeywords);
        match env.fetch(selected)
        case Err(e) => Traced(Err(e), [Fetch(selected)])
        case Ok(p) =>
          var content := ExtractFoodSection(Take(p.content, ContentLimit));
          Traced(Ok(PageRecord(p.title, content, p.url)), [Fetch(selected)])
  }

  /** The three `except` clauses applied to the exception `e` that left the
      `try` block. Returns the handler's outcome and its own calls. */
  function Handle(env: Env, e: Exc): (r: Traced<Result<JsonObject, Exc>>)
    ensures r.value.Ok? ==> r.value.value.Keys == {"title", "content", "url"}
    ensures r.value.Err? ==> IsInstance(r.value.error, FoodToolError) || r.value.error == OtherError(IndexErrorMsg)
    ensures r.trace == [] || (e.DisambiguationError? && |e.options| > 0
                              && r.trace == [Fetch(SelectTitle(e.options, PageKeywords))])
    ensures e.PageError? ==> r == Traced(Err(Raised(FoodToolError, PageMissingPrefix + e.msg)), [])
    ensures !e.DisambiguationError? && !e.PageError? ==>
      r == Traced(Err(Raised(FoodToolError, UnexpectedPrefix + Str(e))), [])
  {
    match e
    case DisambiguationError(_, options) =>
      if |options| == 0 then Traced(Err(OtherError(IndexErrorMsg)), [])
      else
        var selected := SelectTitle(options, PageKeywords);
        (match env.fetch(selected)
         case Ok(p) => Traced(Ok(PageRecord(p.title, Take(p.content, ContentLimit), p.url)), [Fetch(selected)])
         case Err(sub) => Traced(Err(Raised(FoodToolError, FetchFailedPrefix + Str(sub))), [Fetch(selected)]))
    case PageError(m) => Traced(Err(Raised(FoodToolError, PageMissingPrefix + m)), [])
    case _ => Traced(Err(Raised(FoodToolError, UnexpectedPrefix + Str(e))), [])
  }

  /** `get_food_info(city)`: the `try` block with its three handlers. A
      disambiguation fetches the preferred option and keeps its raw first 500
      characters; a missing page and every other exception become
      FoodToolError. The only exception that escapes unconverted is the
      IndexError of a disambiguation with no options, because it is raised
      inside the handler. */
  function GetFoodInfo(env: Env, city: string): (r: Traced<Result<JsonObject, Exc>>)
    ensures r.value.Ok? ==> r.value.value.Keys == {"title", "content", "url"}
    ensures r.value.Err? ==> IsInstance(r.value.error, FoodToolError) || r.value.error == OtherError(IndexErrorMsg)
    ensures var b := FoodBody(env, city).trace;
      |b| <= |r.trace| && r.trace[..|b|] == b && KnowledgeBaseCalls(r.trace[|b|..])
  {
    var body := FoodBody(env, city);
    if body.value.Ok? then body
    else
      var h := Handle(env, body.value.error);
      assert KnowledgeBaseCalls(h.trace);
      AppendParts(body.trace, h.trace);
      Traced(h.value, body.trace + h.trace)
  }

  lemma KnowledgeBaseAppend(a: seq<Event>, b: seq<Event>)
    requires KnowledgeBaseCalls(a) && KnowledgeBaseCalls(b)
    ensures KnowledgeBaseCalls(a + b)
  {
    assert forall i :: |a| <= i < |a + b| ==> (a + b)[i] == b[i - |a|];
  }

  /** The two parts of a concatenated trace. */
  lemma AppendParts(a: seq<Event>, b: seq<Event>)
    ensures (a + b)[..|a|] == a && (a + b)[|a|..] == b
  {
  }

  /** The localisation call happens exactly when the city name holds kana or
      kanji, and then before anything else. */
  lemma TranslateIffJapanese(env: Env, city: string)
    ensures var t := GetFoodInfo(env, city).trace;
      (Translate(city) in t <==> HasJapaneseScript(city))
      && (HasJapaneseScript(city) ==> t[0] == Translate(city))
  {
    var t := GetFoodInfo(env, city).trace;
    TraceShape(t, FoodBody(env, city).trace, EnglishCity(env, city).trace);
  }

  /** A trace made of a prefix `pre` followed by knowledge-base calls, inside
      a longer trace followed by more knowledge-base calls. */
  lemma TraceShape(t: seq<Event>, b: seq<Event>, pre: seq<Event>)
    requires |b| <= |t| && t[..|b|] == b && KnowledgeBaseCalls(t[|b|..])
    requires |pre| <= |b| && b[..|pre|] == pre && KnowledgeBaseCalls(b[|pre|..])
    ensures forall e :: e in t ==> e in pre || e.Search? || e.Fetch?
    ensures |pre| > 0 ==> t[0] == pre[0]
  {
    forall e | e in t
      ensures e in pre || e.Search? || e.Fetch?
    {
      var i :| 0 <= i < |t| && t[i] == e;
      if i >= |b| {
        assert t[|b|..][i - |b|] == e;
      } else if i >= |pre| {
        assert b[|pre|..][i - |pre|] == t[..|b|][i];
      } else {
        assert pre[i] == b[..|pre|][i] == t[..|b|][i];
      }
    }
    if |pre| > 0 {
      assert t[0] == t[..|b|][0] == b[..|pre|][0];
    }
  }

  /** `FoodBody` once the localisation has succeeded. */
  lemma FoodBodyAfterLocalisation(env: Env, city: string)
    requires EnglishCity(env, city).value.Ok?
    ensures var loc := EnglishCity(env, city);
      var hits := SearchAll(env, EnglishQueries(loc.value.value), SearchLimit);
      var rest := AfterSearch(env, hits.value);
      FoodBody(env, city) == Traced(rest.value, loc.trace + (hits.trace + rest.trace))
  {
  }

  /** The searches are the four English queries for the localised name, in
      order, each asking for three hits, right after the localisation call;
      all four are issued unless one of them raises. */
  lemma SearchesInOrder(env: Env, city: string, english: string)
    requires EnglishCity(env, city).value == Ok(english)
    ensures var t := GetFoodInfo(env, city).trace;
      var n := |EnglishCity(env, city).trace|;
      var hits := SearchAll(env, EnglishQueries(english), SearchLimit).trace;
      && n + |hits| <= |t|
      && t[n..n + |hits|] == hits
      && (forall i :: 0 <= i < |hits| ==> hits[i] == Search(EnglishQueries(english)[i], 3))
      && (SearchAll(env, EnglishQueries(english), SearchLimit).value.Ok? ==> |hits| == 4)
  {
    var n := |EnglishCity(env, city).trace|;
    var hits := SearchAll(env, EnglishQueries(english), SearchLimit).trace;
    SearchesInBody(env, city, english);
    SliceOfPrefix(GetFoodInfo(env, city).trace, FoodBody(env, city).trace, n, |hits|);
  }

  lemma SearchesInBody(env: Env, city: string, english: string)
    requires EnglishCity(env, city).value == Ok(english)
    ensures var b := FoodBody(env, city).trace;
      var n := |EnglishCity(env, city).trace|;
      var hits := SearchAll(env, EnglishQueries(english), SearchLimit).trace;
      n + |hits| <= |b| && b[n..n + |hits|] == hits
  {
    var loc := EnglishCity(env, city);
    var hits := SearchAll(env, EnglishQueries(english), SearchLimit);
    var rest := AfterSearch(env, hits.value);
    FoodBodyAfterLocalisation(env, city);
    InnerSegment(FoodBody(env, city).trace, loc.trace, hits.trace, rest.trace);
  }

  /** The middle part of a three-part trace sits right after the first. */
  lemma InnerSegment(b: seq<Event>, pre: seq<Event>, mid: seq<Event>, post: seq<Event>)
    requires b == pre + (mid + post)
    ensures |pre| + |mid| <= |b| && b[|pre|..|pre| + |mid|] == mid
  {
  }

  /** A trace that starts with `b` agrees with `b` on every window inside it. */
  lemma SliceOfPrefix(t: seq<Event>, b: seq<Event>, k: nat, m: nat)
    requires |b| <= |t| && t[..|b|] == b && k + m <= |b|
    ensures t[k..k + m] == b[k..k + m]
  {
    var x, y := t[k..k + m], b[k..k + m];
    assert forall j :: 0 <= j < m ==> x[j] == y[j] by {
      assert forall j :: 0 <= j < m ==> x[j] == t[k + j] && y[j] == t[..|b|][k + j];
    }
  }

  /** No hits at all: the inner FoodToolError is caught by the generic
      handler, so the message is that handler's prefix followed by the
      not-found message, and no page is fetched. */
  lemma NoCandidates(env: Env, city: string, english: string)
    requires ListsSets(env)
    requires EnglishCity(env, city).value == Ok(english)
    requires SearchAll(env, EnglishQueries(english), SearchLimit).value == Ok([])
    ensures GetFoodInfo(env, city).value == Err(Raised(FoodToolError, UnexpectedPrefix + NotFoundMsg))
    ensures GetFoodInfo(env, city).trace ==
      EnglishCity(env, city).trace + SearchAll(env, EnglishQueries(english), SearchLimit).trace
  {
    var loc := EnglishCity(env, city);
    var hits := SearchAll(env, EnglishQueries(english), SearchLimit);
    NoCandidatesBody(env, city, english);
    var body := FoodBody(env, city);
    assert body.trace == loc.trace + hits.trace;
    var h := Handle(env, body.value.error);
    assert h == Traced(Err(Raised(FoodToolError, UnexpectedPrefix + NotFoundMsg)), []);
    assert GetFoodInfo(env, city) == Traced(h.value, body.trace + h.trace);
    assert body.trace + h.trace == body.trace;
  }

  lemma NoCandidatesBody(env: Env, city: string, english: string)
    requires ListsSets(env)
    requires EnglishCity(env, city).value == Ok(english)
    requires SearchAll(env, EnglishQueries(english), SearchLimit).value == Ok([])
    ensures FoodBody(env, city) ==
      Traced(Err(Raised(FoodToolError, NotFoundMsg)), EnglishCity(env, city).trace + SearchAll(env, EnglishQueries(english), SearchLimit).trace)
  {
    var loc := EnglishCity(env, city);
    var hits := SearchAll(env, EnglishQueries(english), SearchLimit);
    ListingEmpty(env, hits.value.value);
    assert AfterSearch(env, hits.value) == Traced(Err(Raised(FoodToolError, NotFoundMsg)), []);
    FoodBodyAfterLocalisation(env, city);
  }

  /** The page fetched is a candidate, preferring one whose title holds a
      title keyword; candidates are the duplicate-free union of all hits. */
  lemma FetchesSelectedCandidate(env: Env, city: string, english: string, hits: seq<string>)
    requires ListsSets(env)
    requires EnglishCity(env, city).value == Ok(english)
    requires SearchAll(env, EnglishQueries(english), SearchLimit).value == Ok(hits)
    ensures var candidates := env.listing(hits);
      && NoDuplicates(candidates)
      && (forall x :: x in candidates <==> HitBy(env, EnglishQueries(english), SearchLimit, x))
      && (|candidates| > 0 ==>
            var selected := SelectTitle(candidates, PageKeywords);
            && Fetch(selected) in GetFoodInfo(env, city).trace
            && selected in candidates
            && ((exists c :: c in candidates && ContainsAny(c, PageKeywords)) ==> ContainsAny(selected, PageKeywords)))
  {
    var loc := EnglishCity(env, city);
    var found := SearchAll(env, EnglishQueries(english), SearchLimit);
    var candidates := env.listing(hits);
    if |candidates| > 0 {
      var selected := SelectTitle(candidates, PageKeywords);
      var rest := AfterSearch(env, found.value);
      assert rest.trace == [Fetch(selected)];
      FoodBodyAfterLocalisation(env, city);
      var b := FoodBody(env, city).trace;
      assert b == loc.trace + (found.trace + rest.trace);
      assert b[|b| - 1] == Fetch(selected);
      SliceOfPrefix(GetFoodInfo(env, city).trace, b, |b| - 1, 1);
      assert GetFoodInfo(env, city).trace[|b| - 1..|b|][0] == Fetch(selected);
    }
  }

  /** A page fetched on the first try yields its title and URL, and content
      that is a suffix of the page's first 500 characters starting at the
      first line holding a section keyword (the whole prefix if none does). */
  lemma MainPathContent(env: Env, city: string, english: string, hits: seq<string>, p: Page)
    requires EnglishCity(env, city).value == Ok(english)
    requires SearchAll(env, EnglishQueries(english), SearchLimit).value == Ok(hits)
    requires |env.listing(hits)| > 0 && env.fetch(SelectTitle(env.listing(hits), PageKeywords)) == Ok(p)
    ensures var prefix := Take(p.content, ContentLimit);
      var lines := SplitLines(prefix);
      var f := FirstFoodLine(lines);
      var c := if f < |lines| then JoinWith("\n", lines[f..]) else prefix;
      && GetFoodInfo(env, city).value == Ok(PageRecord(p.title, c, p.url))
      && |c| <= |prefix| <= 500
      && c == prefix[|prefix| - |c|..]
  {
    FoodBodyAfterLocalisation(env, city);
    ExtractFromFirstFoodLine(Take(p.content, ContentLimit));
    ExtractIsSuffix(Take(p.content, ContentLimit));
  }

  /** A disambiguation applies the same title preference to its options and
      keeps the raw first 500 characters; a failed fetch of the option is a
      FoodToolError with the fetch prefix; no options at all raise IndexError. */
  lemma DisambiguationPath(env: Env, city: string, m: string, options: seq<string>)
    requires FoodBody(env, city).value == Err(DisambiguationError(m, options))
    ensures |options| == 0 ==> GetFoodInfo(env, city).value == Err(OtherError(IndexErrorMsg))
    ensures |options| > 0 ==>
      var selected := SelectTitle(options, PageKeywords);
      var r := GetFoodInfo(env, city);
      && r.trace == FoodBody(env, city).trace + [Fetch(selected)]
      && (env.fetch(selected).Ok? ==>
            var p := env.fetch(selected).value;
            r.value == Ok(PageRecord(p.title, Take(p.content, 500), p.url)))
      && (env.fetch(selected).Err? ==>
            r.value == Err(Raised(FoodToolError, FetchFailedPrefix + Str(env.fetch(selected).error))))
  {
  }

  /** A missing page is a FoodToolError with the not-found prefix. */
  lemma PageErrorPath(env: Env, city: string, m: string)
    requires FoodBody(env, city).value == Err(PageError(m))
    ensures GetFoodInfo(env, city).value == Err(Raised(FoodToolError, PageMissingPrefix + m))
  {
  }

  /** Any other exception leaving the `try` block, whether from the
      localisation, a search or the fetch, is re-raised as FoodToolError
      with the unexpected-error prefix, and the handler makes no call. */
  lemma OtherFailuresAreUnexpected(env: Env, city: string, e: Exc)
    requires FoodBody(env, city).value == Err(e)
    requires !e.DisambiguationError? && !e.PageError?
    ensures GetFoodInfo(env, city) == Traced(Err(Raised(FoodToolError, UnexpectedPrefix + Str(e))), FoodBody(env, city).trace)
  {
    assert FoodBody(env, city).trace + [] == FoodBody(env, city).trace;
  }
}
