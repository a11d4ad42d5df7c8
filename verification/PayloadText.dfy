/** What the payload says. Main results: every entry is spelled out in terms of its message, and every content
    and every tool text of the messages given reaches Kiro, whole, in order and on the right side. */
module PayloadText {
  import opened Options
  import opened Text
  import opened Messages
  import opened Normalize
  import opened Chains
  import opened Payloads
  import opened PayloadLaws
  import opened Speech

  // ----- the words of a message -----

  function CallWords(tc: CallIn): seq<string> { Word(tc.name) + Word(tc.id) + Word(tc.arguments) }

  function ResultWords(tr: ResultIn): seq<string> { Word(tr.id) + Word(tr.content) }

  function AllCallWords(calls: seq<CallIn>): seq<string>
  {
    if calls == [] then [] else AllCallWords(calls[..|calls| - 1]) + CallWords(calls[|calls| - 1])
  }

  function AllResultWords(results: seq<ResultIn>): seq<string>
  {
    if results == [] then [] else AllResultWords(results[..|results| - 1]) + ResultWords(results[|results| - 1])
  }

  /** What a message says in text: its content; without tools its calls and results as well; with tools only
      the results that have no calls before them. */
  function WordsOf(hasTools: bool, front: seq<Message>, m: Message): seq<string>
  {
    Word(m.content) + ((if hasTools then [] else AllCallWords(m.toolCalls)) +
                       (if hasTools && EndsWithCaller(front) then [] else AllResultWords(m.toolResults)))
  }

  /** Everything the messages say, each word with its speaker. */
  function Spoken(hasTools: bool, ms: seq<Message>): seq<Said>
  {
    if ms == [] then []
    else
      var front, m := ms[..|ms| - 1], ms[|ms| - 1];
      Spoken(hasTools, front) + By(m.role == Assistant, WordsOf(hasTools, front, m))
  }

  // ----- the texts of tool content -----

  lemma NoWords(text: string)
    ensures InOrder([], text)
  {
  }

  lemma WordOr(text: string, other: string)
    ensures InOrder(Word(text), if text == "" then other else text)
  {
    if text == "" { NoWords(other); } else { WordIs(text); }
  }

  /** Text in front of a word and behind it. */
  lemma WordAmid(words: seq<string>, front: string, text: string, tail: string)
    requires InOrder(words, text)
    ensures InOrder(words, front + text + tail)
  {
    InOrderBehind(words, front, text);
    InOrderBefore(words, front + text, tail);
  }

  lemma CallSays(tc: CallIn)
    ensures InOrder(CallWords(tc), CallText(tc))
  {
    var name := if tc.name == "" then "unknown" else tc.name;
    var id := if tc.id != "" then " (" + tc.id + ")" else "";
    var args := if tc.arguments == "" then "{}" else tc.arguments;
    WordOr(tc.name, "unknown");
    WordOr(tc.arguments, "{}");
    WordIs(tc.id);
    WordAmid(Word(tc.id), " (", tc.id, ")");
    InOrderBehind(Word(tc.name), "[Tool: ", name);
    NoWords("");
    InOrderJoin(Word(tc.name), "[Tool: " + name, Word(tc.id), id);
    InOrderBefore(Word(tc.name) + Word(tc.id), ("[Tool: " + name) + id, "]\n");
    InOrderJoin(Word(tc.name) + Word(tc.id), ("[Tool: " + name) + id + "]\n", Word(tc.arguments), args);
    assert CallText(tc) == "[Tool: " + name + id + "]\n" + args;
  }

  lemma ResultSays(tr: ResultIn)
    ensures InOrder(ResultWords(tr), ResultText(tr))
  {
    var id := if tr.id != "" then " (" + tr.id + ")" else "";
    var content := if tr.content == "" then "(empty result)" else tr.content;
    WordOr(tr.content, "(empty result)");
    WordIs(tr.id);
    WordAmid(Word(tr.id), " (", tr.id, ")");
    NoWords("");
    InOrderBehind(Word(tr.id), "[Tool Result", id);
    InOrderBefore(Word(tr.id), "[Tool Result" + id, "]\n");
    InOrderJoin(Word(tr.id), "[Tool Result" + id + "]\n", Word(tr.content), content);
    assert ResultText(tr) == "[Tool Result" + id + "]\n" + content;
  }

  /** One part more joined with a separator. */
  lemma JoinedPart(words: seq<string>, parts: seq<string>, sep: string, more: seq<string>, part: string)
    requires parts == [] ==> words == []
    requires InOrder(words, Join(parts, sep)) && InOrder(more, part)
    ensures InOrder(words + more, Join(parts + [part], sep))
  {
    var all := parts + [part];
    assert all[..|all| - 1] == parts && all[|all| - 1] == part;
    if parts == [] {
      Associate(more, [], []);
    } else {
      InOrderBefore(words, Join(parts, sep), sep);
      InOrderJoin(words, Join(parts, sep) + sep, more, part);
    }
  }

  lemma {:induction false} CallsSay(calls: seq<CallIn>)
    ensures InOrder(AllCallWords(calls), ToolCallsToText(calls))
  {
    if calls != [] {
      var front, last := calls[..|calls| - 1], calls[|calls| - 1];
      CallsSay(front);
      CallSays(last);
      JoinedPart(AllCallWords(front), CallTexts(front), GAP, CallWords(last), CallText(last));
    }
  }

  lemma {:induction false} ResultsSay(results: seq<ResultIn>)
    ensures InOrder(AllResultWords(results), ToolResultsToText(results))
  {
    if results != [] {
      var front, last := results[..|results| - 1], results[|results| - 1];
      ResultsSay(front);
      ResultSays(last);
      JoinedPart(AllResultWords(front), ResultTexts(front), GAP, ResultWords(last), ResultText(last));
    }
  }

  // ----- the first step -----

  /** Two texts, joined if both are there. */
  lemma TwoTexts(a: seq<string>, s: string, b: seq<string>, t: string)
    requires InOrder(a, s) && InOrder(b, t)
    ensures InOrder(a + b, if s != "" && t != "" then s + GAP + t else if t != "" then t else s)
  {
    InOrderBefore(a, s, GAP);
    InOrderJoin(a, s + GAP, b, t);
    InOrderJoin(a, s, b, t);
    Associate(s, "", "");
    Associate(t, "", "");
  }

  lemma OrphanSays(m: Message)
    ensures InOrder(Word(m.content) + AllResultWords(m.toolResults), Orphan(m).content)
  {
    WordIs(m.content);
    ResultsSay(m.toolResults);
    TwoTexts(Word(m.content), m.content, AllResultWords(m.toolResults), ToolResultsToText(m.toolResults));
  }

  /** A text more among the parts, if it is not empty. */
  lemma PartIfAny(words: seq<string>, parts: seq<string>, more: seq<string>, text: string)
    requires InOrder(words, Join(parts, GAP)) && InOrder(more, text)
    ensures InOrder(words + more, Join(parts + IfAny(text), GAP))
  {
    var joined := Join(parts, GAP);
    if text == "" {
      assert parts + IfAny(text) == parts;
      InOrderJoin(words, joined, more, "");
      Associate(joined, "", "");
    } else if parts == [] {
      InOrderJoin(words, "", more, text);
      Associate(text, "", "");
      assert parts + IfAny(text) == [text];
    } else {
      InOrderBefore(words, joined, GAP);
      InOrderJoin(words, joined + GAP, more, text);
      assert (parts + [text])[..|parts|] == parts;
    }
  }

  lemma PartsSay(m: Message)
    ensures InOrder(Word(m.content) + (AllCallWords(m.toolCalls) + AllResultWords(m.toolResults)),
                    Join(TextParts(m), GAP))
  {
    var calls, results := AllCallWords(m.toolCalls), AllResultWords(m.toolResults);
    WordIs(m.content);
    CallsSay(m.toolCalls);
    ResultsSay(m.toolResults);
    NoWords("");
    PartIfAny([], [], Word(m.content), m.content);
    Associate(Word(m.content), [], []);
    Associate(IfAny(m.content), [], []);
    PartIfAny(Word(m.content), IfAny(m.content), calls, ToolCallsToText(m.toolCalls));
    PartIfAny(Word(m.content) + calls, IfAny(m.content) + IfAny(ToolCallsToText(m.toolCalls)), results,
              ToolResultsToText(m.toolResults));
    Associate(Word(m.content), calls, results);
  }

  lemma StripSays(m: Message)
    ensures InOrder(Word(m.content) + (AllCallWords(m.toolCalls) + AllResultWords(m.toolResults)), StripOne(m).content)
  {
    if HasTools(m) {
      PartsSay(m);
      if TextParts(m) == [] {
        InOrderBefore(Word(m.content) + (AllCallWords(m.toolCalls) + AllResultWords(m.toolResults)), "",
                      EMPTY_PLACEHOLDER);
        Associate(EMPTY_PLACEHOLDER, "", "");
      }
    } else {
      WordIs(m.content);
      assert AllCallWords(m.toolCalls) == [] && AllResultWords(m.toolResults) == [];
      Associate(Word(m.content), [], []);
    }
  }

  // ----- the chain -----

  function LineOf(m: Message): Line { Line(m.role == Assistant, m.content) }

  function Lines(ms: seq<Message>): (r: seq<Line>)
    ensures |r| == |ms| && forall i :: 0 <= i < |r| ==> r[i] == LineOf(ms[i])
  {
    seq(|ms|, i requires 0 <= i < |ms| => LineOf(ms[i]))
  }

  lemma LinesSnoc(ms: seq<Message>, m: Message)
    ensures Lines(ms + [m]) == Lines(ms) + [LineOf(m)]
  {
  }

  lemma HoldsBy(line: Line, words: seq<string>)
    requires InOrder(words, line.text)
    ensures Holds(line, By(line.assistant, words))
  {
    assert HoldsWords(line, By(line.assistant, words), words);
  }

  lemma PreparedSnoc(hasTools: bool, front: seq<Message>, m: Message)
    ensures Prepared(hasTools, front + [m]) ==
      Prepared(hasTools, front) + [if hasTools then AnchorOne(Anchor(front), m) else StripOne(m)]
  {
    assert (front + [m])[..|front|] == front;
  }

  lemma AnchorSays(front: seq<Message>, m: Message)
    ensures var now := AnchorOne(Anchor(front), m);
      now.role == m.role && InOrder(WordsOf(true, front, m), now.content)
  {
    var results := AllResultWords(m.toolResults);
    AnchorKeepsCallers(front);
    Associate(Word(m.content), [], []);
    Associate(results, [], []);
    if m.toolResults != [] && !EndsWithCaller(front) {
      OrphanSays(m);
    } else {
      WordIs(m.content);
      assert EndsWithCaller(front) || results == [];
    }
  }

  /** The words of a message are in the message the first step makes of it. */
  lemma StepSays(hasTools: bool, front: seq<Message>, m: Message)
    ensures var now := if hasTools then AnchorOne(Anchor(front), m) else StripOne(m);
      now.role == m.role && InOrder(WordsOf(hasTools, front, m), now.content)
  {
    if hasTools { AnchorSays(front, m); } else { StripSays(m); }
  }

  lemma SpokenSnoc(hasTools: bool, front: seq<Message>, m: Message)
    ensures Spoken(hasTools, front + [m]) ==
      Spoken(hasTools, front) + By(m.role == Assistant, WordsOf(hasTools, front, m))
  {
    assert (front + [m])[..|front|] == front;
  }

  lemma SaysMore(lines: seq<Line>, said: seq<Said>, now: Message, assistant: bool, words: seq<string>)
    requires Tells(lines, said) && (now.role == Assistant) == assistant && InOrder(words, now.content)
    ensures Tells(lines + [LineOf(now)], said + By(assistant, words))
  {
    HoldsBy(LineOf(now), words);
    TellsSnoc(lines, said, LineOf(now), By(assistant, words));
  }

  lemma {:induction false} PreparedTells(hasTools: bool, ms: seq<Message>)
    ensures Tells(Lines(Prepared(hasTools, ms)), Spoken(hasTools, ms))
    decreases |ms|
  {
    if ms == [] {
      assert Lines(Prepared(hasTools, ms)) == [];
    } else {
      var front, m := ms[..|ms| - 1], ms[|ms| - 1];
      var now := if hasTools then AnchorOne(Anchor(front), m) else StripOne(m);
      assert ms == front + [m];
      PreparedTells(hasTools, front);
      StepSays(hasTools, front, m);
      PreparedSnoc(hasTools, front, m);
      SpokenSnoc(hasTools, front, m);
      LinesSnoc(Prepared(hasTools, front), now);
      SaysMore(Lines(Prepared(hasTools, front)), Spoken(hasTools, front), now, m.role == Assistant,
               WordsOf(hasTools, front, m));
    }
  }

  lemma MergeIntoTells(r: seq<Message>, m: Message, before: seq<Said>, now: seq<Said>)
    requires Tells(Lines(r), before) && Holds(LineOf(m), now)
    ensures Tells(Lines(MergeInto(r, m)), before + now)
  {
    if r == [] || m.role != r[|r| - 1].role {
      LinesSnoc(r, m);
      TellsSnoc(Lines(r), before, LineOf(m), now);
    } else {
      var rest, last := r[..|r| - 1], r[|r| - 1];
      assert r == rest + [last] && MergeInto(r, m) == rest + [MergeTwo(last, m)];
      LinesSnoc(rest, last);
      LinesSnoc(rest, MergeTwo(last, m));
      TellsMerged(Lines(rest), before, LineOf(last), "\n", m.content, now);
      Associate(last.content, "\n", m.content);
    }
  }

  lemma {:induction false} MergeTells(ms: seq<Message>, said: seq<Said>)
    requires Tells(Lines(ms), said)
    ensures Tells(Lines(Merge(ms)), said)
    decreases |ms|
  {
    if ms == [] {
      assert Merge(ms) == ms;
    } else {
      var front, m := ms[..|ms| - 1], ms[|ms| - 1];
      assert ms == front + [m];
      LinesSnoc(front, m);
      var before, now := TellsLast(Lines(front), LineOf(m), said);
      MergeTells(front, before);
      MergeIntoTells(Merge(front), m, before, now);
    }
  }

  lemma UserFirstTells(ms: seq<Message>, said: seq<Said>)
    requires Tells(Lines(ms), said)
    ensures Tells(Lines(UserFirst(ms)), said)
  {
    TellsBehind(LineOf(Filler(User)), Lines(ms), said);
    assert Lines([Filler(User)] + ms) == [LineOf(Filler(User))] + Lines(ms);
  }

  lemma SameLines(ms: seq<Message>)
    ensures Lines(KnownRoles(ms)) == Lines(ms)
  {
  }

  lemma AlternateIntoTells(r: seq<Message>, m: Message, before: seq<Said>, now: seq<Said>)
    requires Tells(Lines(r), before) && Holds(LineOf(m), now)
    ensures Tells(Lines(AlternateInto(r, m)), before + now)
  {
    if m.role == User && r != [] && r[|r| - 1].role == User {
      LinesSnoc(r, Filler(Assistant));
      LinesSnoc(r + [Filler(Assistant)], m);
      TellsFiller(Lines(r), before, LineOf(Filler(Assistant)));
      TellsSnoc(Lines(r + [Filler(Assistant)]), before, LineOf(m), now);
    } else {
      Associate(r, [], []);
      LinesSnoc(r, m);
      TellsSnoc(Lines(r), before, LineOf(m), now);
    }
  }

  lemma {:induction false} AlternateTells(ms: seq<Message>, said: seq<Said>)
    requires Tells(Lines(ms), said)
    ensures Tells(Lines(Alternate(ms)), said)
    decreases |ms|
  {
    if ms == [] {
      assert Alternate(ms) == ms;
    } else {
      var front, m := ms[..|ms| - 1], ms[|ms| - 1];
      assert ms == front + [m];
      LinesSnoc(front, m);
      var before, now := TellsLast(Lines(front), LineOf(m), said);
      AlternateTells(front, before);
      AlternateIntoTells(Alternate(front), m, before, now);
    }
  }

  /** The chain keeps every word, in order, on its side. */
  lemma ChainTells(hasTools: bool, ms: seq<Message>)
    ensures Tells(Lines(Chain(hasTools, ms)), Spoken(hasTools, ms))
  {
    var said, a := Spoken(hasTools, ms), Prepared(hasTools, ms);
    PreparedTells(hasTools, ms);
    MergeTells(a, said);
    UserFirstTells(Merge(a), said);
    SameLines(UserFirst(Merge(a)));
    AlternateTells(KnownRoles(UserFirst(Merge(a))), said);
  }

  // ----- the entries -----

  function Wrapped(system: string, content: string): string
  {
    if system == "" then content else system + "\n\n" + content
  }

  function Filled(content: string): string { if content == "" then "(empty placeholder)" else content }

  /** What the entry says of tool results. */
  predicate ResultsAre(r: Option<seq<KiroResult>>, results: seq<ResultIn>)
  {
    match r
    case None => results == []
    case Some(list) =>
      && |list| == |results| > 0
      && forall i :: 0 <= i < |list| ==>
           list[i] == KiroResult(results[i].id,
                                 Typed(if results[i].content == "" then "(empty result)" else results[i].content))
  }

  predicate UsesAre(r: Option<seq<KiroUse>>, calls: seq<CallIn>)
  {
    match r
    case None => calls == []
    case Some(list) =>
      && |list| == |calls| > 0
      && forall i :: 0 <= i < |list| ==> list[i] == KiroUse(calls[i].id, calls[i].name, calls[i].arguments)
  }

  /** Entry `e` is message `m` with this content. */
  predicate IsEntry(e: Entry, m: Message, content: string)
  {
    match m.role
    case User => e.UserEntry? && e.content == content && ResultsAre(e.toolResults, m.toolResults)
    case Assistant =>
      e.AssistantEntry? && e.content == content && UsesAre(e.toolUses, m.toolCalls) && e.reasoning == m.reasoning
    case Other(_) => false
  }

  /** The content of message `i` with the system prompt in front of the first. */
  function Prompted(system: string, merged: seq<Message>, i: nat): string
    requires i < |merged|
  {
    if i == 0 then Wrapped(system, merged[0].content) else merged[i].content
  }

  /** Every entry, spelled out: messages before the last with a placeholder for empty content, the last one
      with the thinking tags if it is a user's, and otherwise as it is, bare, before a placeholder. */
  predicate SpelledOut(system: string, thinking: string, merged: seq<Message>, all: seq<Entry>)
  {
    var n := |merged|;
    && n > 0
    && (forall i :: 0 <= i < n - 1 ==>
          i < |all| && IsEntry(all[i], merged[i], Filled(Prompted(system, merged, i))))
    && (if merged[n - 1].role == Assistant then
          && |all| == n + 1
          && all[n - 1] == AssistantEntry(merged[n - 1].content, None, None)
          && all[n] == UserEntry("(empty placeholder)", None)
        else
          && |all| == n
          && IsEntry(all[n - 1], merged[n - 1], thinking + Filled(Prompted(system, merged, n - 1))))
  }

  lemma EntrySpelled(e: Entry, m: Message)
    requires ToEntry(m) == [e]
    ensures IsEntry(e, m, Filled(m.content))
  {
    assert ToEntry(m)[0] == e;
  }

  lemma PromptedFront(system: string, merged: seq<Message>, i: nat)
    requires Good(merged) && i < |merged| - 1
    ensures var m := WithPrompt(system, merged[..|merged| - 1])[i];
      m == merged[i].(content := Prompted(system, merged, i))
  {
  }

  lemma FrontSpelled(system: string, merged: seq<Message>)
    requires Good(merged)
    ensures var h := History(WithPrompt(system, merged[..|merged| - 1]));
      && |h| == |merged| - 1
      && forall i :: 0 <= i < |h| ==> IsEntry(h[i], merged[i], Filled(Prompted(system, merged, i)))
  {
    var front := merged[..|merged| - 1];
    GoodFront(merged);
    HistoryAt(WithPrompt(system, front));
    var h := History(WithPrompt(system, front));
    forall i | 0 <= i < |h| ensures IsEntry(h[i], merged[i], Filled(Prompted(system, merged, i))) {
      PromptedFront(system, merged, i);
      EntrySpelled(h[i], WithPrompt(system, front)[i]);
    }
  }

  lemma CurrentSpelled(system: string, thinking: string, merged: seq<Message>)
    requires Good(merged) && Last(merged).role == User
    ensures var all := All(Assemble(system, thinking, merged));
      IsEntry(all[|all| - 1], Last(merged), thinking + Filled(Prompted(system, merged, |merged| - 1)))
  {
    FrontSpelled(system, merged);
  }

  /** For every good list of messages the payload is spelled out. */
  lemma AssembledIs(system: string, thinking: string, merged: seq<Message>)
    requires Good(merged)
    ensures SpelledOut(system, thinking, merged, All(Assemble(system, thinking, merged)))
  {
    FrontSpelled(system, merged);
    LastRole(merged);
    if Last(merged).role == Assistant {
      LastIsPlain(merged);
      MovedShape(system, thinking, merged);
    } else {
      CurrentShape(system, thinking, merged);
      CurrentSpelled(system, thinking, merged);
    }
  }

  // ----- all words arrive -----

  function EntryLine(e: Entry): Line { Line(e.AssistantEntry?, e.content) }

  function EntryLines(entries: seq<Entry>): (r: seq<Line>)
    ensures |r| == |entries| && forall i :: 0 <= i < |r| ==> r[i] == EntryLine(entries[i])
  {
    seq(|entries|, i requires 0 <= i < |entries| => EntryLine(entries[i]))
  }

  lemma FilledHolds(m: Message, e: Entry, system: string, front: string, prompted: bool)
    requires e.AssistantEntry? <==> m.role == Assistant
    requires e.content == front + Filled(if prompted then Wrapped(system, m.content) else m.content)
    ensures Within(LineOf(m), EntryLine(e))
  {
    if m.content == "" {
      EmptyWithin(LineOf(m), EntryLine(e));
    } else {
      var gap := if prompted && system != "" then system + "\n\n" else "";
      assert e.content == (front + gap) + (m.content + "");
      WithinWrapped(LineOf(m), EntryLine(e), front + gap, "");
    }
  }

  lemma EntryHolds(system: string, thinking: string, merged: seq<Message>, all: seq<Entry>, i: nat)
    requires SpelledOut(system, thinking, merged, all) && i < |merged|
    ensures i < |all| && Within(LineOf(merged[i]), EntryLine(all[i]))
  {
    if i < |merged| - 1 {
      assert all[i].content == "" + Filled(Prompted(system, merged, i));
      FilledHolds(merged[i], all[i], system, "", i == 0);
    } else if merged[i].role == Assistant {
      WithinSame(LineOf(merged[i]));
    } else {
      FilledHolds(merged[i], all[i], system, thinking, i == 0);
    }
  }

  lemma EntriesTell(system: string, thinking: string, merged: seq<Message>, all: seq<Entry>, said: seq<Said>)
    requires SpelledOut(system, thinking, merged, all) && Tells(Lines(merged), said)
    ensures Tells(EntryLines(all), said)
  {
    var n := |merged|;
    var front := all[..n];
    forall i | 0 <= i < n ensures Within(Lines(merged)[i], EntryLines(front)[i]) {
      EntryHolds(system, thinking, merged, all, i);
    }
    TellsWithin(Lines(merged), EntryLines(front), said);
    if |all| == n + 1 {
      TellsFiller(EntryLines(front), said, EntryLine(all[n]));
      assert EntryLines(all) == EntryLines(front) + [EntryLine(all[n])];
    } else {
      assert front == all;
    }
  }

  /** For every non-empty list of messages, with any roles: the entries of the payload are the messages of the
      chain, spelled out; and every content, and every part of tool content that becomes text, reaches Kiro
      whole, in order and on its side of the conversation. */
  lemma NothingSaidIsLost(system: string, thinking: string, hasTools: bool, ms: seq<Message>)
    requires ms != []
    ensures var r := Build(system, thinking, hasTools, ms);
      && r.Some?
      && SpelledOut(system, thinking, Chain(hasTools, ms), All(r.value))
      && Tells(EntryLines(All(r.value)), Spoken(hasTools, ms))
  {
    var merged := Chain(hasTools, ms);
    ChainIsGood(hasTools, ms);
    AssembledIs(system, thinking, merged);
    ChainTells(hasTools, ms);
    EntriesTell(system, thinking, merged, All(Assemble(system, thinking, merged)), Spoken(hasTools, ms));
  }
}
