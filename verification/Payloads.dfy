/** The Kiro payload: history, current message and where the system prompt goes. Main results hold for
    every non-empty list of messages with any roles. */
module Payloads {
  import opened Options
  import opened Messages
  import opened Normalize
  import opened Chains

  datatype KiroUse = KiroUse(id: string, name: string, arguments: string)

  /** A tool result's text, as the typed list this package builds or as loose parts from elsewhere. */
  datatype ResultContent = Typed(text: string) | Loose(parts: seq<string>)

  datatype KiroResult = KiroResult(id: string, content: ResultContent)

  datatype Entry =
    | UserEntry(content: string, toolResults: Option<seq<KiroResult>>)
    | AssistantEntry(content: string, toolUses: Option<seq<KiroUse>>, reasoning: Option<string>)

  datatype Payload = Payload(history: seq<Entry>, current: Entry)

  /** History and current message in one list. */
  function All(p: Payload): seq<Entry> { p.history + [p.current] }

  // ----- conversion -----

  function Uses(calls: seq<CallIn>): (r: seq<KiroUse>)
    ensures |r| == |calls|
    ensures forall i :: 0 <= i < |r| ==> r[i] == KiroUse(calls[i].id, calls[i].name, calls[i].arguments)
  {
    seq(|calls|, i requires 0 <= i < |calls| => KiroUse(calls[i].id, calls[i].name, calls[i].arguments))
  }

  function ToKiro(tr: ResultIn): KiroResult
  {
    KiroResult(tr.id, Typed(if tr.content == "" then "(empty result)" else tr.content))
  }

  /** ConvertToolResultsToKiroFormat. */
  function Results(results: seq<ResultIn>): (r: seq<KiroResult>)
    ensures |r| == |results| && forall i :: 0 <= i < |r| ==> r[i] == ToKiro(results[i])
  {
    seq(|results|, i requires 0 <= i < |results| => ToKiro(results[i]))
  }

  function OrPlaceholder(content: string): string { if content == "" then EMPTY_PLACEHOLDER else content }

  function SomeResults(results: seq<ResultIn>): Option<seq<KiroResult>>
  {
    if results != [] then Some(Results(results)) else None
  }

  /** One message of the history; a message of any other role yields nothing. */
  function ToEntry(m: Message): seq<Entry>
  {
    match m.role
    case User => [UserEntry(OrPlaceholder(m.content), SomeResults(m.toolResults))]
    case Assistant =>
      [AssistantEntry(OrPlaceholder(m.content), if m.toolCalls != [] then Some(Uses(m.toolCalls)) else None,
                      m.reasoning)]
    case Other(_) => []
  }

  /** BuildKiroHistory as a function. */
  function History(ms: seq<Message>): seq<Entry>
  {
    if ms == [] then [] else History(ms[..|ms| - 1]) + ToEntry(ms[|ms| - 1])
  }

  /** The system prompt in front of the first message, if that is a user's. */
  function WithPrompt(system: string, ms: seq<Message>): seq<Message>
  {
    if system != "" && ms != [] && ms[0].role == User then ms[0 := ms[0].(content := system + GAP + ms[0].content)]
    else ms
  }

  /** InjectThinkingTags, for a user's message only; `thinking` is "" when it is switched off. */
  function Injected(thinking: string, role: Role, content: string): string
  {
    if role == User then thinking + content else content
  }

  /** The end of BuildKiroPayload: split the normalised messages into history and current message. */
  function Assemble(system: string, thinking: string, merged: seq<Message>): Payload
    requires merged != []
  {
    var front, m := merged[..|merged| - 1], merged[|merged| - 1];
    var history := History(WithPrompt(system, front));
    var content := if system != "" && history == [] then system + GAP + m.content else m.content;
    var results := SomeResults(m.toolResults);
    if m.role == Assistant then
      Payload(history + [AssistantEntry(content, None, None)], UserEntry(EMPTY_PLACEHOLDER, results))
    else
      Payload(history, UserEntry(Injected(thinking, m.role, OrPlaceholder(content)), results))
  }

  /** BuildKiroPayload; None is its panic on an empty list of messages. */
  function Build(system: string, thinking: string, hasTools: bool, ms: seq<Message>): Option<Payload>
  {
    var merged := Chain(hasTools, ms);
    if merged == [] then None else Some(Assemble(system, thinking, merged))
  }

  // ----- the methods -----

  method BuildKiroHistory(ms: seq<Message>) returns (history: seq<Entry>)
    ensures history == History(ms)
  {
    history := [];
    for n := 0 to |ms|
      invariant history == History(ms[..n])
    {
      assert ms[..n + 1][..n] == ms[..n];
      history := AppendEntry(history, ms[n]);
    }
    assert ms[..|ms|] == ms;
  }

  method AppendEntry(before: seq<Entry>, m: Message) returns (history: seq<Entry>)
    ensures history == before + ToEntry(m)
  {
    match m.role {
      case User =>
        var content := m.content;
        if content == "" { content := EMPTY_PLACEHOLDER; }
        var toolResults: Option<seq<KiroResult>> := None;
        if |m.toolResults| > 0 { toolResults := Some(Results(m.toolResults)); }
        history := before + [UserEntry(content, toolResults)];
      case Assistant =>
        var content := m.content;
        if content == "" { content := EMPTY_PLACEHOLDER; }
        var toolUses: Option<seq<KiroUse>> := None;
        if |m.toolCalls| > 0 { toolUses := Some(Uses(m.toolCalls)); }
        history := before + [AssistantEntry(content, toolUses, m.reasoning)];
      case Other(_) => history := before;
    }
  }

  method BuildKiroPayload(system: string, thinking: string, hasTools: bool, ms: seq<Message>)
    returns (r: Option<Payload>)
    ensures r == Build(system, thinking, hasTools, ms)
  {
    var merged: seq<Message>, modified: bool;
    if hasTools {
      merged, modified := EnsureAssistantBeforeToolResults(ms);
    } else {
      merged, modified := StripAllToolContent(ms);
    }
    merged := MergeAdjacentMessages(merged);
    merged := EnsureFirstMessageIsUser(merged);
    merged := NormalizeMessageRoles(merged);
    merged := EnsureAlternatingRoles(merged);
    if |merged| == 0 { return None; }
    var p := SplitCurrent(system, thinking, merged);
    return Some(p);
  }

  method SplitCurrent(system: string, thinking: string, merged: seq<Message>) returns (p: Payload)
    requires merged != []
    ensures p == Assemble(system, thinking, merged)
  {
    var historyMessages := merged[..|merged| - 1];
    if system != "" && |historyMessages| > 0 {
      if historyMessages[0].role == User {
        var first := historyMessages[0];
        historyMessages := historyMessages[0 := first.(content := system + GAP + first.content)];
      }
    }
    var history := BuildKiroHistory(historyMessages);
    var current := merged[|merged| - 1];
    var content := current.content;
    if system != "" && |history| == 0 { content := system + GAP + content; }
    if current.role == Assistant {
      history := history + [AssistantEntry(content, None, None)];
      content := EMPTY_PLACEHOLDER;
    }
    if content == "" { content := EMPTY_PLACEHOLDER; }
    var toolResults: Option<seq<KiroResult>> := None;
    if |current.toolResults| > 0 { toolResults := Some(Results(current.toolResults)); }
    if current.role == User { content := thinking + content; }
    p := Payload(history, UserEntry(content, toolResults));
  }

  // ----- what every payload satisfies -----

  predicate IsUser(entries: seq<Entry>, i: nat)
    requires i < |entries|
  {
    entries[i].UserEntry?
  }

  /** Strict alternation that starts and ends with a user entry. */
  predicate AlternatesUserFirst(entries: seq<Entry>)
  {
    |entries| % 2 == 1 && forall i :: 0 <= i < |entries| ==> (IsUser(entries, i) <==> i % 2 == 0)
  }

  predicate OffersTools(e: Entry) { e.AssistantEntry? && e.toolUses.Some? && e.toolUses.value != [] }

  predicate ResultsAnchoredAt(entries: seq<Entry>, i: nat)
    requires i < |entries|
  {
    entries[i].UserEntry? && entries[i].toolResults.Some? ==> i > 0 && OffersTools(entries[i - 1])
  }

  /** Every entry with tool results directly follows an assistant entry with tool uses. */
  predicate ResultsAnchored(entries: seq<Entry>)
  {
    forall i :: 0 <= i < |entries| ==> ResultsAnchoredAt(entries, i)
  }

  predicate NoToolEntries(entries: seq<Entry>)
  {
    forall i :: 0 <= i < |entries| ==> NoTools(entries[i])
  }

  lemma HistorySnoc(front: seq<Message>, m: Message)
    requires m.role == User || m.role == Assistant
    ensures |ToEntry(m)| == 1 && History(front + [m]) == History(front) + ToEntry(m)
  {
    assert (front + [m])[..|front|] == front;
  }

  /** With known roles the history has one entry per message. */
  lemma {:induction false} HistoryAt(ms: seq<Message>)
    requires Alternating(ms)
    ensures |History(ms)| == |ms|
    ensures forall i :: 0 <= i < |ms| ==> ToEntry(ms[i]) == [History(ms)[i]]
    decreases |ms|
  {
    if ms != [] {
      var front, m := ms[..|ms| - 1], ms[|ms| - 1];
      assert ms == front + [m];
      HistoryAt(front);
      HistorySnoc(front, m);
      var h := History(front);
      forall i | 0 <= i < |ms| ensures ToEntry(ms[i]) == [(h + ToEntry(m))[i]] {
        if i < |front| { assert front[i] == ms[i]; }
      }
    }
  }

  lemma GoodFront(ms: seq<Message>)
    requires Good(ms)
    ensures Alternating(ms[..|ms| - 1]) && Anchored(ms[..|ms| - 1])
  {
    var front := ms[..|ms| - 1];
    assert ms == front + [ms[|ms| - 1]];
    AnchoredSnoc(front, ms[|ms| - 1]);
  }

  /** What the history entries of a good list are. */
  lemma FrontEntries(system: string, ms: seq<Message>)
    requires Good(ms)
    ensures var h := History(WithPrompt(system, ms[..|ms| - 1]));
      && |h| == |ms| - 1
      && (forall i :: 0 <= i < |h| ==> (h[i].UserEntry? <==> i % 2 == 0))
      && ResultsAnchored(h)
      && (|h| > 0 && IsCaller(ms[|ms| - 2]) ==> OffersTools(h[|h| - 1]))
  {
    var front := ms[..|ms| - 1];
    var prompted := WithPrompt(system, front);
    GoodFront(ms);
    HistoryAt(prompted);
    var h := History(prompted);
    forall i | 0 <= i < |h| ensures ResultsAnchoredAt(h, i) {
      EntryOf(h[i], prompted[i]);
      if i > 0 { EntryOf(h[i - 1], prompted[i - 1]); }
      assert AnchoredAt(front, i);
    }
    forall i | 0 <= i < |h| ensures (h[i].UserEntry? <==> i % 2 == 0) && (OffersTools(h[i]) <==> IsCaller(ms[i])) {
      EntryOf(h[i], prompted[i]);
    }
  }

  lemma EntryOf(e: Entry, m: Message)
    requires ToEntry(m) == [e]
    ensures e.UserEntry? <==> m.role == User
    ensures e.UserEntry? ==> e.toolResults == SomeResults(m.toolResults)
    ensures OffersTools(e) <==> IsCaller(m)
  {
    assert ToEntry(m)[0] == e;
  }

  lemma AnchoredAppend(h: seq<Entry>, e: Entry)
    requires ResultsAnchored(h)
    requires e.UserEntry? && e.toolResults.Some? ==> h != [] && OffersTools(h[|h| - 1])
    ensures ResultsAnchored(h + [e])
  {
    forall i | 0 <= i < |h| ensures ResultsAnchoredAt(h + [e], i) {
      assert ResultsAnchoredAt(h, i);
    }
  }

  lemma AlternatesAppend(h: seq<Entry>, e: Entry)
    requires forall i :: 0 <= i < |h| ==> (h[i].UserEntry? <==> i % 2 == 0)
    requires e.UserEntry? <==> |h| % 2 == 0
    ensures forall i :: 0 <= i <= |h| ==> ((h + [e])[i].UserEntry? <==> i % 2 == 0)
  {
  }

  lemma AppendIsGood(h: seq<Entry>, e: Entry)
    requires ResultsAnchored(h) && (forall i :: 0 <= i < |h| ==> (h[i].UserEntry? <==> i % 2 == 0))
    requires e.UserEntry? <==> |h| % 2 == 0
    requires e.UserEntry? && e.toolResults.Some? ==> h != [] && OffersTools(h[|h| - 1])
    ensures ResultsAnchored(h + [e])
    ensures forall i :: 0 <= i < |h + [e]| ==> ((h + [e])[i].UserEntry? <==> i % 2 == 0)
  {
    AnchoredAppend(h, e);
    AlternatesAppend(h, e);
  }

  lemma AlternatesIs(entries: seq<Entry>)
    requires |entries| % 2 == 1 && forall i :: 0 <= i < |entries| ==> (entries[i].UserEntry? <==> i % 2 == 0)
    ensures AlternatesUserFirst(entries)
  {
  }

  /** What stands behind the history entries of the messages before the last. */
  lemma AssembledShape(system: string, thinking: string, merged: seq<Message>)
    requires merged != []
    ensures var m, p := merged[|merged| - 1], Assemble(system, thinking, merged);
      var h := History(WithPrompt(system, merged[..|merged| - 1]));
      && p.current.UserEntry? && p.current.toolResults == SomeResults(m.toolResults)
      && if m.role == Assistant then
           |p.history| == |h| + 1 && p.history[..|h|] == h && p.history[|h|].AssistantEntry?
         else p.history == h
  {
  }

  lemma LastIsPlain(merged: seq<Message>)
    requires Good(merged)
    ensures var m := merged[|merged| - 1];
      && (m.role == Assistant <==> |merged| % 2 == 0) && (m.role == Assistant ==> m.toolResults == [])
      && (m.toolResults != [] ==> |merged| > 1 && IsCaller(merged[|merged| - 2]))
  {
    assert AnchoredAt(merged, |merged| - 1);
  }

  lemma AssembleIsGood(system: string, thinking: string, merged: seq<Message>)
    requires Good(merged)
    ensures AlternatesUserFirst(All(Assemble(system, thinking, merged)))
    ensures ResultsAnchored(All(Assemble(system, thinking, merged)))
  {
    var p := Assemble(system, thinking, merged);
    var h := History(WithPrompt(system, merged[..|merged| - 1]));
    FrontEntries(system, merged);
    LastIsPlain(merged);
    AssembledShape(system, thinking, merged);
    if merged[|merged| - 1].role == Assistant {
      assert p.history == h + [p.history[|h|]];
      AppendIsGood(h, p.history[|h|]);
    }
    AppendIsGood(p.history, p.current);
    AlternatesIs(All(p));
  }

  /** For every non-empty list of messages with any roles the payload exists, alternates strictly
      between user and assistant, starts and ends with user, and anchors every tool result. */
  lemma PayloadIsGood(system: string, thinking: string, hasTools: bool, ms: seq<Message>)
    requires ms != []
    ensures var r := Build(system, thinking, hasTools, ms);
      r.Some? && AlternatesUserFirst(All(r.value)) && ResultsAnchored(All(r.value))
  {
    ChainIsGood(hasTools, ms);
    AssembleIsGood(system, thinking, Chain(hasTools, ms));
  }

  predicate NoTools(e: Entry) { if e.UserEntry? then e.toolResults.None? else e.toolUses.None? }

  lemma {:induction false} HistoryNoTools(ms: seq<Message>)
    requires NoToolContent(ms)
    ensures NoToolEntries(History(ms))
  {
    if ms != [] {
      assert !HasTools(ms[|ms| - 1]);
      HistoryNoTools(ms[..|ms| - 1]);
    }
  }

  lemma PromptNoTools(system: string, ms: seq<Message>)
    requires NoToolContent(ms)
    ensures NoToolContent(WithPrompt(system, ms))
  {
  }

  lemma NoToolsAppend(h: seq<Entry>, e: Entry)
    requires NoToolEntries(h) && NoTools(e)
    ensures NoToolEntries(h + [e])
  {
  }

  lemma AssembleWithoutTools(system: string, thinking: string, merged: seq<Message>)
    requires merged != [] && NoToolContent(merged)
    ensures NoToolEntries(All(Assemble(system, thinking, merged)))
  {
    var front, m, p := merged[..|merged| - 1], merged[|merged| - 1], Assemble(system, thinking, merged);
    PromptNoTools(system, front);
    var h := History(WithPrompt(system, front));
    HistoryNoTools(WithPrompt(system, front));
    assert !HasTools(m);
    if m.role == Assistant { NoToolsAppend(h, p.history[|h|]); }
    NoToolsAppend(p.history, p.current);
  }

  /** Without tools no tool use and no tool result reaches Kiro. */
  lemma PayloadWithoutTools(system: string, thinking: string, ms: seq<Message>)
    requires ms != []
    ensures var r := Build(system, thinking, false, ms); r.Some? && NoToolEntries(All(r.value))
  {
    ChainIsGood(false, ms);
    ChainWithoutTools(ms);
    AssembleWithoutTools(system, thinking, Chain(false, ms));
  }
}
