/** The Search tool: turns one Serper (Google search) response into cited
    snippets for the summariser, and falls back to the Reason tool when the
    search request itself fails.

    The HTTP request is not modelled: its outcome arrives as a `SearchOutcome`.
    The summariser, the fixed-text stream and the Reason tool's stream are
    opaque, so a `Response` only records which of them produced the answer
    and with what arguments. */
module Search {
  import opened Python
  import UrlQuote

  /** At most this many organic results are turned into snippets (`k`). */
  const ResultLimit: nat := 5

  const NoResultMessage: string := "No good Google Search Result was found"

  const SearchPagePrefix: string := "https://www.google.com/search?q="

  /** The `answerBox` object. `hasOtherKeys` stands for any key besides the
      three read here: it only matters for the truthiness of the object. */
  datatype AnswerBox = AnswerBox(
    answer: Option<string>,
    snippet: Option<string>,
    snippetHighlighted: Option<seq<string>>,
    hasOtherKeys: bool)

  /** One entry of `organic`; `attributes` keeps the JSON object's key order. */
  datatype OrganicResult = OrganicResult(
    snippet: Option<string>,
    link: Option<string>,
    attributes: seq<(string, string)>)

  /** The decoded JSON body; a key that is absent (or null) is `None`. */
  datatype SearchResults = SearchResults(answerBox: Option<AnswerBox>, organic: Option<seq<OrganicResult>>)

  /** What the request to Serper gave: a body, or any `ClientResponseError`
      (a non-success status, or a reply that is not JSON). */
  datatype SearchOutcome = Ok(results: SearchResults) | TransportError

  datatype CitedSnippet = CitedSnippet(index: nat, text: string, link: string)

  /** The model and working language a tool is constructed with. */
  datatype ToolContext = ToolContext(model: string, language: string)

  /** Which stream answers the call, and with what. */
  datatype Response =
    | FixedStream(message: string)
    | SourcedSummary(context: ToolContext, goal: string, task: string, snippets: seq<CitedSnippet>)
    | ReasonStream(context: ToolContext, goal: string, task: string, input: string)

  /** A tool call either returns a response or lets an exception escape; of
      the outcomes modelled here, only the `KeyError` of a body without
      `organic` escapes. */
  datatype ToolOutput = Returned(response: Response) | KeyError(key: string)

  /** `Reason(model, language).call(goal, task, input)` */
  function Reason(context: ToolContext, goal: string, task: string, input: string): Response
  {
    ReasonStream(context, goal, task, input)
  }

  // ---------------------------------------------------------------------------
  // Availability

  /** `Search.available()` */
  predicate Available(serpApiKey: Option<string>)
  {
    serpApiKey != None && serpApiKey.value != ""
  }

  /** The `X-API-KEY` header the request sends: `settings.serp_api_key or ""`. */
  function ApiKeyHeader(serpApiKey: Option<string>): string
  {
    if Truthy(serpApiKey) then serpApiKey.value else ""
  }

  /** The tool is offered exactly when the request would carry a non-empty key,
      which is Python truthiness of the setting. */
  lemma AvailableIffKeySent(serpApiKey: Option<string>)
    ensures Available(serpApiKey) <==> ApiKeyHeader(serpApiKey) != ""
    ensures Available(serpApiKey) <==> Truthy(serpApiKey)
    ensures Available(serpApiKey) ==> ApiKeyHeader(serpApiKey) == serpApiKey.value
  {
  }

  // ---------------------------------------------------------------------------
  // The answer box

  /** Truthiness of the `answerBox` dictionary: it has at least one key. */
  predicate BoxTruthy(box: AnswerBox)
  {
    box.answer.Some? || box.snippet.Some? || box.snippetHighlighted.Some? || box.hasOtherKeys
  }

  /** The text of the answer-box snippet, if one is produced. */
  function AnswerText(box: Option<AnswerBox>): Option<string>
  {
    if box.None? || !BoxTruthy(box.value) then None
    else if Truthy(box.value.answer) then Some(box.value.answer.value)
    else if Truthy(box.value.snippet) then Some(Replace(box.value.snippet.value, '\n', ' '))
    else if TruthyList(box.value.snippetHighlighted) then Some(Join(", ", box.value.snippetHighlighted.value))
    else None
  }

  /** The answer box is read by priority: the first truthy one of `answer`,
      `snippet` (newlines turned into spaces) and `snippetHighlighted` (joined
      with ", ") gives the text; with none of them there is no text, whatever
      else the box holds. */
  lemma AnswerBoxPriority(box: AnswerBox)
    ensures AnswerText(Some(box)).Some? <==>
      Truthy(box.answer) || Truthy(box.snippet) || TruthyList(box.snippetHighlighted)
    ensures Truthy(box.answer) ==> AnswerText(Some(box)) == box.answer
    ensures !Truthy(box.answer) && Truthy(box.snippet) ==>
      var t := AnswerText(Some(box)).value;
      |t| == |box.snippet.value| && '\n' !in t &&
      (forall i :: 0 <= i < |t| && box.snippet.value[i] == '\n' ==> t[i] == ' ') &&
      (forall i :: 0 <= i < |t| && box.snippet.value[i] != '\n' ==> t[i] == box.snippet.value[i])
    ensures !Truthy(box.answer) && !Truthy(box.snippet) && TruthyList(box.snippetHighlighted) ==>
      var t := AnswerText(Some(box)).value;
      var parts := box.snippetHighlighted.value;
      |t| == TotalLength(parts) + 2 * (|parts| - 1) &&
      (forall k :: 0 <= k < |parts| ==>
        PartStart(", ", parts, k) + |parts[k]| <= |t| &&
        t[PartStart(", ", parts, k)..PartStart(", ", parts, k) + |parts[k]|] == parts[k]) &&
      (forall k :: 0 < k < |parts| ==>
        PartStart(", ", parts, k) >= 2 &&
        t[PartStart(", ", parts, k) - 2..PartStart(", ", parts, k)] == ", ")
  {
    if !Truthy(box.answer) && !Truthy(box.snippet) && TruthyList(box.snippetHighlighted) {
      var parts := box.snippetHighlighted.value;
      forall k | 0 <= k < |parts|
        ensures PartStart(", ", parts, k) + |parts[k]| <= |Join(", ", parts)|
        ensures Join(", ", parts)[PartStart(", ", parts, k)..PartStart(", ", parts, k) + |parts[k]|] == parts[k]
        ensures k > 0 ==>
          PartStart(", ", parts, k) >= 2 &&
          Join(", ", parts)[PartStart(", ", parts, k) - 2..PartStart(", ", parts, k)] == ", "
      {
        JoinLayout(", ", parts, k);
      }
    }
  }

  /** Whether the answer box is present or not makes no difference when none
      of its three fields is truthy: the emptiness test on the box only
      skips work. */
  lemma AbsentBoxSameAsEmpty(box: AnswerBox)
    requires !Truthy(box.answer) && !Truthy(box.snippet) && !TruthyList(box.snippetHighlighted)
    ensures AnswerText(Some(box)) == AnswerText(None)
  {
  }

  /** The link of the answer-box snippet: the Google results page for the query. */
  function SearchPageLink(query: string): string
  {
    SearchPagePrefix + UrlQuote.Quote(query)
  }

  /** The answer-box snippet, if any, always the first and numbered 1. */
  function AnswerSnippets(query: string, box: Option<AnswerBox>): (r: seq<CitedSnippet>)
    ensures |r| <= 1
    ensures r == [] <==> AnswerText(box).None?
    ensures r != [] ==> r[0].index == 1 && r[0].text == AnswerText(box).value && r[0].link == SearchPageLink(query)
  {
    match AnswerText(box)
    case None => []
    case Some(t) => [CitedSnippet(1, t, SearchPageLink(query))]
  }

  // ---------------------------------------------------------------------------
  // Organic results

  /** `"{attribute}: {value}."` */
  function AttributeLine(attribute: (string, string)): string
  {
    attribute.0 + ": " + attribute.1 + "."
  }

  /** The lines of an organic result's text: its snippet when the key is
      present, then one line per attribute, in order. */
  function OrganicLines(r: OrganicResult): seq<string>
  {
    (if r.snippet.Some? then [r.snippet.value] else [])
      + seq(|r.attributes|, i requires 0 <= i < |r.attributes| => AttributeLine(r.attributes[i]))
  }

  /** The snippet an organic result becomes, numbered `index`. */
  function OrganicSnippet(index: nat, r: OrganicResult): CitedSnippet
  {
    CitedSnippet(index, Join("\n", OrganicLines(r)), if r.link.Some? then r.link.value else "")
  }

  /** An organic result's text splits back, line by line, into its snippet and
      its attribute lines, as long as none of them holds a newline; its link is
      the result's `link` or empty; and a result with neither snippet nor
      attributes still gives a snippet, with empty text. */
  lemma {:induction false} OrganicSnippetShape(index: nat, r: OrganicResult)
    ensures OrganicSnippet(index, r).index == index
    ensures OrganicSnippet(index, r).link == (if r.link.Some? then r.link.value else "")
    ensures r.snippet.None? && r.attributes == [] ==> OrganicSnippet(index, r).text == ""
    ensures r.snippet.Some? && r.attributes == [] ==> OrganicSnippet(index, r).text == r.snippet.value
    ensures OrganicLines(r) != [] && (forall i :: 0 <= i < |OrganicLines(r)| ==> '\n' !in OrganicLines(r)[i]) ==>
      Split('\n', OrganicSnippet(index, r).text) == OrganicLines(r)
    ensures |OrganicLines(r)| == (if r.snippet.Some? then 1 else 0) + |r.attributes|
  {
    var lines := OrganicLines(r);
    if lines != [] && (forall i :: 0 <= i < |lines| ==> '\n' !in lines[i]) {
      SplitJoin('\n', lines);
    }
  }

  /** The organic results `rs`, numbered from `first` on. */
  function Numbered(first: nat, rs: seq<OrganicResult>): seq<CitedSnippet>
  {
    seq(|rs|, i requires 0 <= i < |rs| => OrganicSnippet(first + i, rs[i]))
  }

  function Min(a: nat, b: nat): nat
  {
    if a <= b then a else b
  }

  // ---------------------------------------------------------------------------
  // The snippets and the response

  /** All snippets of one response: the answer-box snippet if there is one,
      then the first five organic results, numbered 1, 2, ... with no gap. */
  function Snippets(query: string, box: Option<AnswerBox>, organic: seq<OrganicResult>): (s: seq<CitedSnippet>)
    ensures |s| == |AnswerSnippets(query, box)| + Min(ResultLimit, |organic|)
    ensures |s| <= ResultLimit + 1
    ensures forall i :: 0 <= i < |s| ==> s[i].index == i + 1
    ensures AnswerText(box).Some? ==>
      s[0] == CitedSnippet(1, AnswerText(box).value, SearchPageLink(query))
    ensures var first := |AnswerSnippets(query, box)|;
      forall j :: 0 <= j < Min(ResultLimit, |organic|) ==> s[first + j] == OrganicSnippet(first + j + 1, organic[j])
  {
    var head := AnswerSnippets(query, box);
    head + Numbered(|head| + 1, organic[..Min(ResultLimit, |organic|)])
  }

  /** What `Search._call` answers once the body has been received. */
  function SearchResponse(context: ToolContext, goal: string, task: string, query: string, results: SearchResults): ToolOutput
  {
    if results.organic.None? then KeyError("organic")
    else
      var s := Snippets(query, results.answerBox, results.organic.value);
      if s == [] then Returned(FixedStream(NoResultMessage))
      else Returned(SourcedSummary(context, goal, task, s))
  }

  /** The fixed message is the answer exactly when there are no snippets,
      that is no answer-box text and no organic result; otherwise the
      summariser gets the snippets unchanged; a body without `organic` raises. */
  lemma NoResultIffNoSnippets(context: ToolContext, goal: string, task: string, query: string, results: SearchResults)
    ensures SearchResponse(context, goal, task, query, results).KeyError? <==> results.organic.None?
    ensures SearchResponse(context, goal, task, query, results) == Returned(FixedStream(NoResultMessage)) <==>
      results.organic.Some? && results.organic.value == [] && AnswerText(results.answerBox).None?
    ensures results.organic.Some? && (results.organic.value != [] || AnswerText(results.answerBox).Some?) ==>
      SearchResponse(context, goal, task, query, results) ==
        Returned(SourcedSummary(context, goal, task, Snippets(query, results.answerBox, results.organic.value)))
  {
  }

  /** One organic result as `_call`'s loop body builds it: the `texts` list
      grows by the snippet and then by one line per attribute. */
  method OrganicEntry(index: nat, r: OrganicResult) returns (entry: CitedSnippet)
    ensures entry == OrganicSnippet(index, r)
  {
    var texts: seq<string> := [];
    var link := "";
    if r.snippet.Some? {
      texts := texts + [r.snippet.value];
    }
    if r.link.Some? {
      link := r.link.value;
    }
    var lead := texts;
    for j := 0 to |r.attributes|
      invariant texts == lead + seq(j, i requires 0 <= i < j => AttributeLine(r.attributes[i]))
    {
      texts := texts + [AttributeLine(r.attributes[j])];
    }
    assert texts == OrganicLines(r);
    entry := CitedSnippet(index, Join("\n", texts), link);
  }

  /** `Search._call` after the request succeeded. */
  method SearchBody(context: ToolContext, goal: string, task: string, query: string, results: SearchResults)
    returns (out: ToolOutput)
    ensures out == SearchResponse(context, goal, task, query, results)
  {
    var k := ResultLimit;
    var snippets: seq<CitedSnippet> := [];
    if results.answerBox.Some? && BoxTruthy(results.answerBox.value) {
      var answerValues: seq<string> := [];
      var box := results.answerBox.value;
      if Truthy(box.answer) {
        answerValues := answerValues + [box.answer.value];
      } else if Truthy(box.snippet) {
        answerValues := answerValues + [Replace(box.snippet.value, '\n', ' ')];
      } else if TruthyList(box.snippetHighlighted) {
        answerValues := answerValues + [Join(", ", box.snippetHighlighted.value)];
      }
      if |answerValues| > 0 {
        snippets := snippets + [CitedSnippet(|snippets| + 1, Join("\n", answerValues), SearchPageLink(query))];
      }
    }
    assert snippets == AnswerSnippets(query, results.answerBox);
    if results.organic.None? {
      return KeyError("organic");
    }
    var organic := results.organic.value;
    var top := organic[..Min(k, |organic|)];
    var head := snippets;
    for i := 0 to |top|
      invariant snippets == head + Numbered(|head| + 1, top[..i])
    {
      var entry := OrganicEntry(|snippets| + 1, top[i]);
      assert top[..i + 1] == top[..i] + [top[i]];
      snippets := snippets + [entry];
    }
    assert top[..|top|] == top;
    if |snippets| == 0 {
      return Returned(FixedStream(NoResultMessage));
    }
    return Returned(SourcedSummary(context, goal, task, snippets));
  }

  /** `Search.call`: a failed request degrades to the Reason tool with the same
      goal, task and input; any other outcome is the search's own answer, and
      nothing else is absorbed (a missing `organic` still escapes). */
  method Call(context: ToolContext, goal: string, task: string, input: string, fetched: SearchOutcome)
    returns (out: ToolOutput)
    ensures fetched.TransportError? ==> out == Returned(Reason(context, goal, task, input))
    ensures fetched.Ok? ==> out == SearchResponse(context, goal, task, input, fetched.results)
    ensures out.KeyError? <==> fetched.Ok? && fetched.results.organic.None?
  {
    match fetched
    case TransportError =>
      out := Returned(Reason(context, goal, task, input));
    case Ok(results) =>
      out := SearchBody(context, goal, task, input, results);
  }
}
