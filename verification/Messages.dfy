/** Unified messages and the texts that tool content is turned into. */
module Messages {
  import opened Options

  /** Kiro accepts two roles; clients send any string. */
  datatype Role = User | Assistant | Other(name: string)

  datatype CallIn = CallIn(id: string, name: string, arguments: string)
  datatype ResultIn = ResultIn(id: string, content: string)

  /** UnifiedMessage with string content, which is what both converters produce. */
  datatype Message = Message(
    role: Role, content: string, toolCalls: seq<CallIn>, toolResults: seq<ResultIn>, reasoning: Option<string>)

  const EMPTY_PLACEHOLDER := "(empty placeholder)"
  const GAP := "\n\n"

  /** strings.Join. */
  function Join(parts: seq<string>, sep: string): string
  {
    if parts == [] then ""
    else if |parts| == 1 then parts[0]
    else Join(parts[..|parts| - 1], sep) + sep + parts[|parts| - 1]
  }

  function CallText(tc: CallIn): string
  {
    "[Tool: " + (if tc.name == "" then "unknown" else tc.name) + (if tc.id != "" then " (" + tc.id + ")" else "") +
    "]\n" + (if tc.arguments == "" then "{}" else tc.arguments)
  }

  function CallTexts(calls: seq<CallIn>): seq<string>
  {
    if calls == [] then [] else CallTexts(calls[..|calls| - 1]) + [CallText(calls[|calls| - 1])]
  }

  /** ToolCallsToText. */
  function ToolCallsToText(calls: seq<CallIn>): string { Join(CallTexts(calls), GAP) }

  function ResultText(tr: ResultIn): string
  {
    "[Tool Result" + (if tr.id != "" then " (" + tr.id + ")" else "") + "]\n" +
    (if tr.content == "" then "(empty result)" else tr.content)
  }

  function ResultTexts(results: seq<ResultIn>): seq<string>
  {
    if results == [] then [] else ResultTexts(results[..|results| - 1]) + [ResultText(results[|results| - 1])]
  }

  /** ToolResultsToText. */
  function ToolResultsToText(results: seq<ResultIn>): string { Join(ResultTexts(results), GAP) }

  method CallsToText(calls: seq<CallIn>) returns (text: string)
    ensures text == ToolCallsToText(calls)
  {
    if |calls| == 0 { return ""; }
    var parts := [];
    for i := 0 to |calls|
      invariant parts == CallTexts(calls[..i])
    {
      assert calls[..i + 1][..i] == calls[..i];
      parts := parts + [CallText(calls[i])];
    }
    assert calls[..|calls|] == calls;
    return Join(parts, GAP);
  }

  method ResultsToText(results: seq<ResultIn>) returns (text: string)
    ensures text == ToolResultsToText(results)
  {
    if |results| == 0 { return ""; }
    var parts := [];
    for i := 0 to |results|
      invariant parts == ResultTexts(results[..i])
    {
      assert results[..i + 1][..i] == results[..i];
      parts := parts + [ResultText(results[i])];
    }
    assert results[..|results|] == results;
    return Join(parts, GAP);
  }

  /** Tool content always leaves text behind. */
  lemma {:induction false} TextsNotEmpty(calls: seq<CallIn>, results: seq<ResultIn>)
    ensures calls != [] ==> ToolCallsToText(calls) != ""
    ensures results != [] ==> ToolResultsToText(results) != ""
  {
    if calls != [] { LastPartShows(CallTexts(calls), GAP); }
    if results != [] { LastPartShows(ResultTexts(results), GAP); }
  }

  lemma LastPartShows(parts: seq<string>, sep: string)
    requires parts != []
    ensures |Join(parts, sep)| >= |parts[|parts| - 1]|
  {
  }

  /** The texts with and without a name, an id, arguments and content. */
  lemma ToolTexts()
    ensures CallText(CallIn("7", "f", "[]")) == "[Tool: f (7)]\n[]"
    ensures CallText(CallIn("", "", "")) == "[Tool: unknown]\n{}"
    ensures ResultText(ResultIn("7", "x")) == "[Tool Result (7)]\nx"
    ensures ResultText(ResultIn("", "")) == "[Tool Result]\n(empty result)"
  {
  }
}
