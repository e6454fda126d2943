/** The deterministic core shared by the knowledge-base food tools: the
    script test on a city name, the search loop, duplicate-free candidate
    lists, "first keyword-matching title, else the first title", and the
    line-grouping loop that extracts the food-related part of a page. */
module FoodSelection {

  import opened Wrappers
  import opened Errors
  import opened Text
  import opened Oracles

  // ---------------------------------------------------------------------
  // Script test
  // ---------------------------------------------------------------------

  /** A code point of the regular-expression class
      `[぀-ヿ一-鿿]`: hiragana, katakana or a CJK ideograph. */
  predicate IsKanaOrKanji(c: char) {
    ('\U{3040}' <= c <= '\U{30ff}') || ('\U{4e00}' <= c <= '\U{9fff}')
  }

  /** `re.search(r'[぀-ヿ一-鿿]', s)` finds a match. */
  predicate HasJapaneseScript(s: string) {
    exists i :: 0 <= i < |s| && IsKanaOrKanji(s[i])
  }

  // ---------------------------------------------------------------------
  // Answers
  // ---------------------------------------------------------------------

  /** Messages the food tools share. */
  const NotFoundMsg := "料理情報が見つかりませんでした。"
  const PageMissingPrefix := "ページが見つかりませんでした: "
  const FetchFailedPrefix := "ページの取得に失敗しました: "

  /** Prefix of the script tools' error dict for any other exception. */
  const GenericPrefix := "エラーが発生しました: "

  /** A dict a food tool returns: a page record or an error dict. */
  predicate IsFoodAnswer(o: JsonObject) {
    o.Keys == {"title", "content", "url"} || o.Keys == {"error"}
  }

  /** Only knowledge-base calls: searches and page fetches. */
  predicate KnowledgeBaseCalls(t: seq<Event>) {
    forall i :: 0 <= i < |t| ==> t[i].Search? || t[i].Fetch?
  }

  // ---------------------------------------------------------------------
  // Keywords
  // ---------------------------------------------------------------------

  /** Title keywords used to prefer a page among search hits. */
  const PageKeywords: seq<string> := ["料理", "名物", "郷土料理"]

  /** Line keywords that open a food-related section of a page. */
  const SectionKeywords: seq<string> := ["料理", "名物", "郷土料理", "特産", "食"]

  /** "郷土料理" is redundant in the title keywords: any title containing it
      also contains "料理". */
  lemma PageKeywordsReduce(s: string)
    ensures ContainsAny(s, PageKeywords) <==> Contains(s, "料理") || Contains(s, "名物")
  {
    if Contains(s, "郷土料理") {
      assert OccursAt("郷土料理", "料理", 2);
      ContainsIffOccurs("郷土料理", "料理");
      ContainsTransitive(s, "郷土料理", "料理");
    }
    if Contains(s, "料理") {
      assert "料理" in PageKeywords;
    }
    if Contains(s, "名物") {
      assert "名物" in PageKeywords;
    }
  }

  // ---------------------------------------------------------------------
  // Searching
  // ---------------------------------------------------------------------

  /** Runs `wikipedia.search(q, results=limit)` for each query in turn and
      collects the hits; the first search that raises ends the loop with
      that exception. */
  function SearchAll(env: Env, queries: seq<string>, limit: nat): (r: Traced<Result<seq<string>, Exc>>)
    ensures 1 <= |r.trace| <= |queries| || (|queries| == 0 && r.trace == [])
    ensures forall i :: 0 <= i < |r.trace| ==> r.trace[i] == Search(queries[i], limit)
    ensures r.value.Ok? ==> |r.trace| == |queries|
    ensures r.value.Ok? ==> forall i :: 0 <= i < |queries| ==> env.search(queries[i], limit).Ok?
    ensures r.value.Ok? ==> forall x :: x in r.value.value <==> HitBy(env, queries, limit, x)
    ensures r.value.Err? ==> |r.trace| >= 1 && env.search(queries[|r.trace| - 1], limit) == Err(r.value.error)
    decreases |queries|
  {
    if |queries| == 0 then Traced(Ok([]), [])
    else
      var ev := Search(queries[0], limit);
      match env.search(queries[0], limit)
      case Err(e) => Traced(Err(e), [ev])
      case Ok(hits) =>
        var rest := SearchAll(env, queries[1..], limit);
        assert forall x :: HitBy(env, queries, limit, x) <==>
          (x in hits || HitBy(env, queries[1..], limit, x)) by {
          forall x ensures HitBy(env, queries, limit, x) ==> (x in hits || HitBy(env, queries[1..], limit, x)) {
            if HitBy(env, queries, limit, x) {
              var i :| 0 <= i < |queries| && HitIn(env, queries[i], limit, x);
              if i > 0 {
                assert queries[1..][i - 1] == queries[i];
              }
            }
          }
          forall x ensures HitBy(env, queries[1..], limit, x) ==> HitBy(env, queries, limit, x) {
            if HitBy(env, queries[1..], limit, x) {
              var i :| 0 <= i < |queries[1..]| && HitIn(env, queries[1..][i], limit, x);
              assert queries[i + 1] == queries[1..][i];
            }
          }
          forall x ensures x in hits ==> HitBy(env, queries, limit, x) {
            if x in hits {
              assert HitIn(env, queries[0], limit, x);
            }
          }
        }
        Traced(if rest.value.Ok? then Ok(hits + rest.value.value) else rest.value, [ev] + rest.trace)
  }

  /** `x` is among the hits of the search for `q`. */
  predicate HitIn(env: Env, q: string, limit: nat, x: string) {
    env.search(q, limit).Ok? && x in env.search(q, limit).value
  }

  /** `x` is among the hits of one of the searches. */
  predicate HitBy(env: Env, queries: seq<string>, limit: nat, x: string) {
    exists i :: 0 <= i < |queries| && HitIn(env, queries[i], limit, x)
  }

  // ---------------------------------------------------------------------
  // Duplicate-free candidate lists
  // ---------------------------------------------------------------------

  predicate NoDuplicates(xs: seq<string>) {
    forall i, j :: 0 <= i < j < |xs| ==> xs[i] != xs[j]
  }

  /** `r` is a possible value of `list(set(xs))`: each element of `xs`
      exactly once, in some order. */
  predicate IsListingOf(r: seq<string>, xs: seq<string>) {
    && NoDuplicates(r)
    && (forall x :: x in r ==> x in xs)
    && (forall x :: x in xs ==> x in r)
  }

  /** The runtime's set enumeration only ever produces such listings; which
      order it picks is left open. */
  ghost predicate ListsSets(env: Env) {
    forall xs :: IsListingOf(env.listing(xs), xs)
  }

  /** A listing is empty exactly when the listed sequence is. */
  lemma ListingEmpty(env: Env, xs: seq<string>)
    requires ListsSets(env)
    ensures |env.listing(xs)| == 0 <==> |xs| == 0
  {
    var r := env.listing(xs);
    assert IsListingOf(r, xs);
    assert |r| > 0 ==> r[0] in r;
    assert |xs| > 0 ==> xs[0] in xs;
  }

  /** One admissible value of `list(set(xs))` (last occurrences kept); it
      shows that environments satisfying `ListsSets` exist. */
  function Dedup(xs: seq<string>): (r: seq<string>)
    ensures IsListingOf(r, xs)
    ensures |r| <= |xs|
    decreases |xs|
  {
    if |xs| == 0 then []
    else
      var rest := Dedup(xs[1..]);
      assert forall x :: x in xs <==> x == xs[0] || x in xs[1..];
      if xs[0] in rest then rest else [xs[0]] + rest
  }

  // ---------------------------------------------------------------------
  // Page selection
  // ---------------------------------------------------------------------

  /** The list comprehension `[t for t in titles if any(k in t for k in keys)]`. */
  function Matching(titles: seq<string>, keys: seq<string>): (r: seq<string>)
    ensures forall x :: x in r <==> x in titles && ContainsAny(x, keys)
    decreases |titles|
  {
    if |titles| == 0 then []
    else
      assert forall x :: x in titles <==> x == titles[0] || x in titles[1..];
      (if ContainsAny(titles[0], keys) then [titles[0]] else []) + Matching(titles[1..], keys)
  }

  /** `matching[0] if matching else titles[0]`. */
  function SelectTitle(titles: seq<string>, keys: seq<string>): (r: string)
    requires |titles| > 0
    ensures r in titles
    ensures (exists t :: t in titles && ContainsAny(t, keys)) ==> ContainsAny(r, keys)
  {
    var m := Matching(titles, keys);
    if |m| > 0 then
      assert m[0] in m;
      m[0]
    else titles[0]
  }

  /** The selected title is the FIRST title that matches a keyword. */
  lemma {:induction false} SelectFirstMatch(titles: seq<string>, keys: seq<string>, i: nat)
    requires i < |titles| && ContainsAny(titles[i], keys)
    requires forall j :: 0 <= j < i ==> !ContainsAny(titles[j], keys)
    ensures SelectTitle(titles, keys) == titles[i]
  {
    MatchingStartsAt(titles, keys, i);
  }

  lemma {:induction false} MatchingStartsAt(titles: seq<string>, keys: seq<string>, i: nat)
    requires i < |titles| && ContainsAny(titles[i], keys)
    requires forall j :: 0 <= j < i ==> !ContainsAny(titles[j], keys)
    ensures |Matching(titles, keys)| > 0 && Matching(titles, keys)[0] == titles[i]
    decreases i
  {
    if i > 0 {
      MatchingStartsAt(titles[1..], keys, i - 1);
    }
  }

  /** With no matching title, the first title is selected. */
  lemma SelectNoMatch(titles: seq<string>, keys: seq<string>)
    requires |titles| > 0
    requires forall j :: 0 <= j < |titles| ==> !ContainsAny(titles[j], keys)
    ensures SelectTitle(titles, keys) == titles[0]
  {
    if |Matching(titles, keys)| > 0 {
      var m := Matching(titles, keys);
      assert m[0] in m;
    }
  }

  // ---------------------------------------------------------------------
  // Section extraction
  // ---------------------------------------------------------------------

  predicate IsFoodLine(line: string) {
    ContainsAny(line, SectionKeywords)
  }

  /** Index of the first line that contains a section keyword, or the
      number of lines when none does. */
  function FirstFoodLine(lines: seq<string>): (f: nat)
    ensures f <= |lines|
    ensures forall j :: 0 <= j < f ==> !IsFoodLine(lines[j])
    ensures f < |lines| ==> IsFoodLine(lines[f])
    decreases |lines|
  {
    if |lines| == 0 || IsFoodLine(lines[0]) then 0
    else 1 + FirstFoodLine(lines[1..])
  }

  /** `if current: sections.append(current)`. */
  function Flush(sections: seq<string>, current: string): seq<string> {
    if current != "" then sections + [current] else sections
  }

  /** The grouping loop over the lines of a page prefix: a line with a
      section keyword starts a new section (closing the open one), any other
      line is appended to the open section, and lines before the first
      section are dropped. Returns the closed sections. */
  function Group(lines: seq<string>, sections: seq<string>, current: string): seq<string>
    decreases |lines|
  {
    if |lines| == 0 then Flush(sections, current)
    else
      var line := lines[0];
      if IsFoodLine(line) then Group(lines[1..], Flush(sections, current), line)
      else if current != "" then Group(lines[1..], sections, current + "\n" + line)
      else Group(lines[1..], sections, current)
  }

  /** `"\n".join(sections) if sections else content`, the food section of a
      page prefix. */
  function ExtractFoodSection(content: string): string {
    var sections := Group(SplitLines(content), [], "");
    if |sections| > 0 then JoinWith("\n", sections) else content
  }

  /** Lines before the first food line leave the loop state untouched. */
  lemma {:induction false} GroupSkips(lines: seq<string>)
    ensures Group(lines, [], "") ==
      if FirstFoodLine(lines) < |lines| then Group(lines[FirstFoodLine(lines) + 1..], [], lines[FirstFoodLine(lines)])
      else []
    decreases |lines|
  {
    if |lines| > 0 && !IsFoodLine(lines[0]) {
      GroupSkips(lines[1..]);
      var g := FirstFoodLine(lines[1..]);
      assert FirstFoodLine(lines) == g + 1;
      if g < |lines[1..]| {
        assert lines[1..][g + 1..] == lines[g + 2..];
        assert lines[1..][g] == lines[g + 1];
      }
    }
  }

  /** `"\n"` followed by the joined lines, or nothing for no lines. */
  function JoinedTail(lines: seq<string>): (t: string)
    ensures |lines| > 0 ==> t == "\n" + JoinWith("\n", lines)
    ensures |lines| == 0 ==> t == ""
  {
    if |lines| == 0 then "" else "\n" + JoinWith("\n", lines)
  }

  /** Once a section is open, joining the final sections yields the joined
      sections so far followed by every remaining line. */
  lemma {:induction false} GroupJoins(lines: seq<string>, sections: seq<string>, current: string)
    requires current != ""
    ensures |Group(lines, sections, current)| > 0
    ensures JoinWith("\n", Group(lines, sections, current)) == JoinWith("\n", sections + [current]) + JoinedTail(lines)
    decreases |lines|
  {
    if |lines| > 0 {
      var line := lines[0];
      var rest := lines[1..];
      if IsFoodLine(line) {
        ContainsAnyNonEmpty(line, SectionKeywords);
        var closed := sections + [current];
        assert Group(lines, sections, current) == Group(rest, closed, line);
        GroupJoins(rest, closed, line);
        JoinsAfterNewSection(lines, closed);
      } else {
        var extended := current + "\n" + line;
        assert Group(lines, sections, current) == Group(rest, sections, extended);
        GroupJoins(rest, sections, extended);
        JoinsAfterExtension(lines, sections, current);
      }
    }
  }

  /** The step of `GroupJoins` for a line that opens a new section. */
  lemma JoinsAfterNewSection(lines: seq<string>, closed: seq<string>)
    requires |lines| > 0 && |closed| > 0
    ensures JoinWith("\n", closed + [lines[0]]) + JoinedTail(lines[1..]) == JoinWith("\n", closed) + JoinedTail(lines)
  {
    var j, x, t := JoinWith("\n", closed), lines[0], JoinedTail(lines[1..]);
    JoinAppend("\n", closed, x);
    JoinHeadTail(lines);
    assert JoinedTail(lines) == "\n" + (x + t);
    ConcatRight(j, "\n", x, t);
  }

  /** The step of `GroupJoins` for a line appended to the open section. */
  lemma JoinsAfterExtension(lines: seq<string>, sections: seq<string>, current: string)
    requires |lines| > 0
    ensures JoinWith("\n", sections + [current + "\n" + lines[0]]) + JoinedTail(lines[1..])
         == JoinWith("\n", sections + [current]) + JoinedTail(lines)
  {
    var x, t := lines[0], JoinedTail(lines[1..]);
    var j := JoinWith("\n", sections + [current]);
    JoinAppend("\n", sections, current + "\n" + x);
    JoinAppend("\n", sections, current);
    assert JoinWith("\n", sections + [current + "\n" + x]) == j + "\n" + x;
    JoinHeadTail(lines);
    assert JoinedTail(lines) == "\n" + (x + t);
    ConcatRight(j, "\n", x, t);
  }

  /** A join is its first piece followed by the tail of the rest. */
  lemma JoinHeadTail(lines: seq<string>)
    requires |lines| > 0
    ensures JoinWith("\n", lines) == lines[0] + JoinedTail(lines[1..])
  {
  }

  /** The grouping loop keeps exactly the text from the start of the first
      line that holds a section keyword to the end; with no such line the
      whole prefix is kept. */
  lemma ExtractFromFirstFoodLine(content: string)
    ensures var lines := SplitLines(content);
      var f := FirstFoodLine(lines);
      ExtractFoodSection(content) == if f < |lines| then JoinWith("\n", lines[f..]) else content
  {
    var lines := SplitLines(content);
    var f := FirstFoodLine(lines);
    GroupSkips(lines);
    if f < |lines| {
      ContainsAnyNonEmpty(lines[f], SectionKeywords);
      GroupJoins(lines[f + 1..], [], lines[f]);
      assert [] + [lines[f]] == [lines[f]];
      assert JoinWith("\n", lines[f..]) == lines[f] + (if |lines[f + 1..]| == 0 then "" else "\n" + JoinWith("\n", lines[f + 1..])) by {
        assert lines[f..][1..] == lines[f + 1..];
      }
    }
  }

  /** The extracted section is a suffix of the page prefix it came from. */
  lemma ExtractIsSuffix(content: string)
    ensures var r := ExtractFoodSection(content);
      |r| <= |content| && r == content[|content| - |r|..]
  {
    var lines := SplitLines(content);
    var f := FirstFoodLine(lines);
    ExtractFromFirstFoodLine(content);
    JoinSplitLines(content);
    if 0 < f < |lines| {
      JoinSplitAt("\n", lines, f);
      assert lines[f..] == lines[f..];
    } else if f == 0 {
      assert lines[0..] == lines;
    }
  }
}
