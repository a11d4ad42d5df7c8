/** What the payload keeps of the messages: the system prompt once, the tool results unless an assistant
    carries them, the tool calls unless they come last. */
module PayloadLaws {
  import opened Options
  import opened Messages
  import opened Normalize
  import opened Chains
  import opened Payloads

  // ----- the system prompt -----

  lemma SameEntry(a: Entry, b: Entry, m: Message)
    requires ToEntry(m) == [a] && ToEntry(m) == [b]
    ensures a == b
  {
    assert [a][0] == [b][0];
  }

  lemma UserEntryIs(e: Entry, m: Message)
    requires ToEntry(m) == [e] && m.role == User
    ensures e == UserEntry(OrPlaceholder(m.content), SomeResults(m.toolResults))
  {
    assert [e][0] == ToEntry(m)[0];
  }

  lemma PromptNotEmpty(system: string, text: string)
    requires system != ""
    ensures OrPlaceholder(system + GAP + text) == system + GAP + text
  {
  }

  /** A change of one message's content changes that entry's content only. */
  lemma HistoryWithPrompt(system: string, ms: seq<Message>)
    requires Alternating(ms) && ms != [] && system != ""
    ensures var h, h' := History(ms), History(WithPrompt(system, ms));
      && |h| == |h'| == |ms| && h[0].UserEntry?
      && h[0].content == OrPlaceholder(ms[0].content)
      && h'[0] == UserEntry(system + GAP + ms[0].content, h[0].toolResults)
      && forall i :: 0 < i < |h| ==> h'[i] == h[i]
  {
    var ms' := WithPrompt(system, ms);
    var h, h' := History(ms), History(ms');
    HistoryAt(ms);
    HistoryAt(ms');
    forall i | 0 < i < |ms| ensures h'[i] == h[i] {
      SameEntry(h'[i], h[i], ms[i]);
    }
    UserEntryIs(h[0], ms[0]);
    UserEntryIs(h'[0], ms'[0]);
    PromptNotEmpty(system, ms[0].content);
  }

  /** `p` is `q` with the system prompt in front of the first message, and nothing else. */
  predicate PromptedOnce(system: string, thinking: string, text: string, p: seq<Entry>, q: seq<Entry>)
  {
    && |p| == |q| > 0 && p[0].UserEntry? && q[0].UserEntry?
    && (var tag := if |p| == 1 then thinking else "";
        p[0].content == tag + (system + GAP + text) && q[0].content == tag + OrPlaceholder(text))
    && p[0].toolResults == q[0].toolResults
    && forall i :: 0 < i < |p| ==> p[i] == q[i]
  }

  lemma AssembledOnce(system: string, thinking: string, merged: seq<Message>)
    requires Good(merged) && system != ""
    ensures PromptedOnce(system, thinking, merged[0].content,
                         All(Assemble(system, thinking, merged)), All(Assemble("", thinking, merged)))
  {
    var front := merged[..|merged| - 1];
    GoodFront(merged);
    if front == [] {
      assert system + GAP + merged[0].content != "";
    } else {
      HistoryWithPrompt(system, front);
      NoTag(system + GAP + merged[0].content);
      NoTag(OrPlaceholder(merged[0].content));
    }
  }

  lemma NoTag(s: string)
    ensures "" + s == s
  {
  }

  /** A system prompt is put in front of exactly one message, the first one of the conversation, and
      changes nothing else; thinking tags go in front of it when that message is the current one. */
  lemma SystemPromptOnce(system: string, thinking: string, hasTools: bool, ms: seq<Message>)
    requires ms != [] && system != ""
    ensures var p, q := Build(system, thinking, hasTools, ms), Build("", thinking, hasTools, ms);
      p.Some? && q.Some? && Chain(hasTools, ms) != []
      && PromptedOnce(system, thinking, Chain(hasTools, ms)[0].content, All(p.value), All(q.value))
  {
    ChainIsGood(hasTools, ms);
    AssembledOnce(system, thinking, Chain(hasTools, ms));
  }

  // ----- tool uses and tool results -----

  function UsesOf(e: Entry): seq<KiroUse>
  {
    if e.AssistantEntry? && e.toolUses.Some? then e.toolUses.value else []
  }

  function ResultsIn(e: Entry): seq<KiroResult>
  {
    if e.UserEntry? && e.toolResults.Some? then e.toolResults.value else []
  }

  function AllUses(entries: seq<Entry>): seq<KiroUse>
  {
    if entries == [] then [] else AllUses(entries[..|entries| - 1]) + UsesOf(entries[|entries| - 1])
  }

  function AllResults(entries: seq<Entry>): seq<KiroResult>
  {
    if entries == [] then [] else AllResults(entries[..|entries| - 1]) + ResultsIn(entries[|entries| - 1])
  }

  lemma AllSnoc(entries: seq<Entry>, e: Entry)
    ensures AllUses(entries + [e]) == AllUses(entries) + UsesOf(e)
    ensures AllResults(entries + [e]) == AllResults(entries) + ResultsIn(e)
  {
    assert (entries + [e])[..|entries|] == entries;
  }

  lemma UsesAppend(a: seq<CallIn>, b: seq<CallIn>, c: seq<ResultIn>, d: seq<ResultIn>)
    ensures Uses(a + b) == Uses(a) + Uses(b) && Results(c + d) == Results(c) + Results(d)
  {
  }

  lemma {:induction false} HistoryTools(ms: seq<Message>)
    requires Alternating(ms) && Plain(ms)
    ensures AllUses(History(ms)) == Uses(CallsOf(ms)) && AllResults(History(ms)) == Results(Forwarded(ms))
  {
    if ms != [] {
      var front, m := ms[..|ms| - 1], ms[|ms| - 1];
      HistoryTools(front);
      AllSnoc(History(front), ToEntry(m)[0]);
      UsesAppend(CallsOf(front), OwnCalls(m), Forwarded(front), OwnResults(m));
      MessageTools(m);
    }
  }

  lemma MessageTools(m: Message)
    requires m.role == User || m.role == Assistant
    ensures |ToEntry(m)| == 1
    ensures UsesOf(ToEntry(m)[0]) == Uses(OwnCalls(m)) && ResultsIn(ToEntry(m)[0]) == Results(OwnResults(m))
  {
  }

  lemma PromptTools(system: string, ms: seq<Message>)
    ensures Tools(WithPrompt(system, ms)) == Tools(ms)
    ensures Alternating(ms) ==> Alternating(WithPrompt(system, ms))
    ensures Plain(ms) ==> Plain(WithPrompt(system, ms))
  {
    SameTools(ms, WithPrompt(system, ms));
  }

  lemma {:induction false} SameTools(a: seq<Message>, b: seq<Message>)
    requires |a| == |b|
    requires forall i :: 0 <= i < |a| ==>
      a[i].role == b[i].role && a[i].toolCalls == b[i].toolCalls && a[i].toolResults == b[i].toolResults
    ensures Tools(a) == Tools(b)
  {
    if a != [] { SameTools(a[..|a| - 1], b[..|b| - 1]); }
  }

  /** The tool calls that reach Kiro: all but those of a trailing assistant. */
  function Reported(merged: seq<Message>): seq<CallIn>
    requires merged != []
  {
    if Last(merged).role == Assistant then CallsOf(merged[..|merged| - 1]) else CallsOf(merged)
  }

  /** The entries behind the history when an assistant message comes last. */
  lemma MovedShape(system: string, thinking: string, merged: seq<Message>)
    requires Good(merged) && Last(merged).role == Assistant
    ensures All(Assemble(system, thinking, merged)) ==
      (History(WithPrompt(system, merged[..|merged| - 1])) + [AssistantEntry(Last(merged).content, None, None)]) +
      [UserEntry(EMPTY_PLACEHOLDER, None)]
  {
    FrontEntries(system, merged);
  }

  /** The entry behind the history when a user's message comes last. */
  lemma CurrentShape(system: string, thinking: string, merged: seq<Message>)
    requires Good(merged) && Last(merged).role == User
    ensures var h, p := History(WithPrompt(system, merged[..|merged| - 1])), Assemble(system, thinking, merged);
      All(p) == h + [p.current] && p.current.UserEntry?
      && p.current.toolResults == SomeResults(Last(merged).toolResults) && p.current.content != ""
  {
  }

  lemma LastRole(merged: seq<Message>)
    requires Good(merged)
    ensures Last(merged).role == User || Last(merged).role == Assistant
  {
  }

  /** The entries of the history. */
  lemma FrontTools(system: string, merged: seq<Message>)
    requires Good(merged)
    ensures var front, m := merged[..|merged| - 1], Last(merged);
      var h := History(WithPrompt(system, front));
      && AllUses(h) == Uses(CallsOf(front)) && AllResults(h) == Results(Forwarded(front))
      && Uses(CallsOf(merged)) == Uses(CallsOf(front)) + Uses(OwnCalls(m))
      && Results(Forwarded(merged)) == Results(Forwarded(front)) + Results(OwnResults(m))
  {
    var front, m := merged[..|merged| - 1], Last(merged);
    GoodFront(merged);
    PromptTools(system, front);
    HistoryTools(WithPrompt(system, front));
    UsesAppend(CallsOf(front), OwnCalls(m), Forwarded(front), OwnResults(m));
  }

  lemma AssistantLastTools(system: string, thinking: string, merged: seq<Message>)
    requires Good(merged) && Last(merged).role == Assistant
    ensures var all, h := All(Assemble(system, thinking, merged)), History(WithPrompt(system, merged[..|merged| - 1]));
      AllUses(all) == AllUses(h) && AllResults(all) == AllResults(h)
  {
    var h := History(WithPrompt(system, merged[..|merged| - 1]));
    var moved, current := AssistantEntry(Last(merged).content, None, None), UserEntry(EMPTY_PLACEHOLDER, None);
    MovedShape(system, thinking, merged);
    AllSnoc(h, moved);
    AllSnoc(h + [moved], current);
    NothingAdded(AllUses(h), AllResults(h));
  }

  lemma UserLastTools(system: string, thinking: string, merged: seq<Message>)
    requires Good(merged) && Last(merged).role == User
    ensures var all, h := All(Assemble(system, thinking, merged)), History(WithPrompt(system, merged[..|merged| - 1]));
      AllUses(all) == AllUses(h) && AllResults(all) == AllResults(h) + Results(Last(merged).toolResults)
  {
    var h := History(WithPrompt(system, merged[..|merged| - 1]));
    CurrentShape(system, thinking, merged);
    AllSnoc(h, Assemble(system, thinking, merged).current);
    NothingAdded(AllUses(h), AllResults(h));
  }

  lemma AssembledTools(system: string, thinking: string, merged: seq<Message>)
    requires Good(merged)
    ensures var all := All(Assemble(system, thinking, merged));
      AllUses(all) == Uses(Reported(merged)) && AllResults(all) == Results(Forwarded(merged))
  {
    FrontTools(system, merged);
    LastRole(merged);
    var front := merged[..|merged| - 1];
    NothingAdded(Uses(CallsOf(front)), Results(Forwarded(front)));
    if Last(merged).role == Assistant {
      AssistantLastTools(system, thinking, merged);
    } else {
      UserLastTools(system, thinking, merged);
    }
  }

  /** The trailing run of assistant messages has tool calls. */
  predicate TrailingCalls(ms: seq<Message>)
  {
    ms != [] && Last(ms).role == Assistant && (Last(ms).toolCalls != [] || TrailingCalls(ms[..|ms| - 1]))
  }

  lemma {:induction false} TrailingMerged(ms: seq<Message>)
    requires Anchored(ms)
    ensures ms != [] ==> Merge(ms) != [] && (IsCaller(Last(Merge(ms))) <==> TrailingCalls(ms))
  {
    if ms != [] {
      var front, m := ms[..|ms| - 1], Last(ms);
      assert ms == front + [m];
      AnchoredSnoc(front, m);
      TrailingMerged(front);
      MergeKeeps(front);
    }
  }

  lemma {:induction false} TrailingAnchored(ms: seq<Message>)
    ensures TrailingCalls(Anchor(ms)) == TrailingCalls(ms)
  {
    if ms != [] {
      TrailingAnchored(ms[..|ms| - 1]);
      assert Anchor(ms)[..|ms| - 1] == Anchor(ms[..|ms| - 1]);
    }
  }

  /** The steps behind merging change at most the role of the last message. */
  lemma RestOfChain(merged: seq<Message>)
    requires merged != [] && Anchored(merged) && Distinct(merged) && Plain(merged)
    ensures var r := Alternate(KnownRoles(UserFirst(merged))); r != [] && Last(r) == KnownRole(Last(merged))
  {
    UserFirstKeeps(merged);
    KnownRolesKeeps(UserFirst(merged));
    AlternateKeeps(KnownRoles(UserFirst(merged)));
    assert Last(UserFirst(merged)) == Last(merged);
  }

  /** The first step of the chain. */
  function Prepared(hasTools: bool, ms: seq<Message>): seq<Message> { if hasTools then Anchor(ms) else Strip(ms) }

  lemma ChainLast(hasTools: bool, ms: seq<Message>)
    requires ms != []
    ensures var a, r := Prepared(hasTools, ms), Chain(hasTools, ms);
      Anchored(a) && a != [] && Merge(a) != [] && r != [] && Last(r) == KnownRole(Last(Merge(a)))
  {
    AnchorIs(ms);
    StripAnchored(ms);
    MergeKeeps(Prepared(hasTools, ms));
    RestOfChain(Merge(Prepared(hasTools, ms)));
  }

  /** The last message of the chain calls tools exactly when the trailing run of assistants does. */
  lemma ChainEnds(ms: seq<Message>)
    requires ms != []
    ensures Chain(true, ms) != [] && (IsCaller(Last(Chain(true, ms))) <==> TrailingCalls(ms))
  {
    ChainLast(true, ms);
    TrailingAnchored(ms);
    TrailingMerged(Anchor(ms));
  }

  /** Every tool result with calls before it reaches Kiro, in order, unless one of them is on an assistant
      message: that one is lost. Every tool call does too, unless the conversation ends with assistant
      messages that have tool calls: those are lost. */
  lemma PayloadKeepsTools(system: string, thinking: string, ms: seq<Message>)
    requires ms != []
    ensures var r := Build(system, thinking, true, ms);
      && r.Some?
      && (AllResults(All(r.value)) == Results(AnchoredResults(ms)) <==> !Trapped(ms))
      && (AllUses(All(r.value)) == Uses(CallsOf(ms)) <==> !TrailingCalls(ms))
  {
    var merged := Chain(true, ms);
    ChainIsGood(true, ms);
    AssembledTools(system, thinking, merged);
    ChainTools(ms);
    AnchorTools(ms);
    ForwardedIff(Anchor(ms));
    SameLength(Forwarded(merged), AnchoredResults(ms));
    TrailingAnchored(ms);
    ChainEnds(ms);
    LosesTrailing(merged);
  }

  lemma SameLength(a: seq<ResultIn>, b: seq<ResultIn>)
    ensures Results(a) == Results(b) ==> |a| == |b|
  {
    assert |Results(a)| == |a| && |Results(b)| == |b|;
  }

  lemma LosesTrailing(merged: seq<Message>)
    requires merged != []
    ensures Uses(Reported(merged)) == Uses(CallsOf(merged)) <==> !IsCaller(Last(merged))
  {
    var front := CallsOf(merged[..|merged| - 1]);
    if Last(merged).role == Assistant && Last(merged).toolCalls == [] {
      assert CallsOf(merged) == front;
    }
    assert |Uses(CallsOf(merged))| == |CallsOf(merged)| && |Uses(front)| == |front|;
  }

  // ----- empty content -----

  predicate NoEmptyContent(entries: seq<Entry>) { forall i :: 0 <= i < |entries| ==> entries[i].content != "" }

  lemma {:induction false} HistoryHasContent(ms: seq<Message>)
    ensures NoEmptyContent(History(ms))
  {
    if ms != [] { HistoryHasContent(ms[..|ms| - 1]); }
  }

  lemma EmptyEntryIff(system: string, thinking: string, merged: seq<Message>)
    requires Good(merged)
    ensures NoEmptyContent(All(Assemble(system, thinking, merged))) <==>
      !(Last(merged).role == Assistant && Last(merged).content == "")
  {
    var h := History(WithPrompt(system, merged[..|merged| - 1]));
    HistoryHasContent(WithPrompt(system, merged[..|merged| - 1]));
    FrontEntries(system, merged);
    LastRole(merged);
    if Last(merged).role == Assistant {
      var moved := AssistantEntry(Last(merged).content, None, None);
      MovedShape(system, thinking, merged);
      ContentSnoc(h, moved);
      ContentSnoc(h + [moved], UserEntry(EMPTY_PLACEHOLDER, None));
    } else {
      CurrentShape(system, thinking, merged);
      ContentSnoc(h, Assemble(system, thinking, merged).current);
    }
  }

  /** The message in front of the last one is an assistant's. */
  predicate BehindAssistant(ms: seq<Message>) { |ms| > 1 && ms[|ms| - 2].role == Assistant }

  /** The last message is an assistant's, alone in its run, with no content and nothing that becomes text. */
  predicate EndsEmpty(hasTools: bool, ms: seq<Message>)
    requires ms != []
  {
    var m := Last(ms);
    && m.role == Assistant && m.content == "" && m.toolResults == [] && (hasTools || m.toolCalls == [])
    && !BehindAssistant(ms)
  }

  lemma MergedContent(r: seq<Message>, m: Message)
    ensures var now := MergeInto(r, m);
      now != [] && (Last(now).content == "" <==> m.content == "" && (r == [] || Last(r).role != m.role))
  {
  }

  lemma MergedRole(ms: seq<Message>)
    requires Anchored(ms)
    ensures (Merge(ms) == [] <==> ms == []) && (ms != [] ==> Last(Merge(ms)).role == Last(ms).role)
  {
    MergeKeeps(ms);
  }

  /** Merging joins the contents of a run with newlines, so that only a lone message stays empty. */
  lemma LastMerged(a: seq<Message>)
    requires a != [] && Anchored(a)
    ensures var r := Merge(a);
      && r != [] && Last(r).role == Last(a).role
      && (Last(a).role == Assistant ==> (Last(r).content == "" <==> Last(a).content == "" && !BehindAssistant(a)))
  {
    var front, m := a[..|a| - 1], Last(a);
    assert a == front + [m];
    AnchoredSnoc(front, m);
    MergedRole(front);
    MergedRole(a);
    MergedContent(Merge(front), m);
    FrontRole(front, m);
  }

  lemma FrontRole(front: seq<Message>, m: Message)
    ensures BehindAssistant(front + [m]) <==> front != [] && Last(front).role == Assistant
  {
  }

  /** The last message of the chain, if it is an assistant's. */
  lemma LastOfChain(hasTools: bool, ms: seq<Message>)
    requires ms != []
    ensures var r, a := Chain(hasTools, ms), Prepared(hasTools, ms);
      && r != [] && a != [] && (Last(r).role == Assistant <==> Last(a).role == Assistant)
      && (Last(r).role == Assistant ==> (Last(r).content == "" <==> Last(a).content == "" && !BehindAssistant(a)))
  {
    ChainLast(hasTools, ms);
    LastMerged(Prepared(hasTools, ms));
  }

  lemma {:induction false} AnchorRoles(ms: seq<Message>)
    ensures forall i :: 0 <= i < |ms| ==> Anchor(ms)[i].role == ms[i].role
  {
    if ms != [] { AnchorRoles(ms[..|ms| - 1]); }
  }

  lemma SameRunEnd(a: seq<Message>, ms: seq<Message>)
    requires |a| == |ms| > 0 && forall i :: 0 <= i < |ms| ==> a[i].role == ms[i].role
    ensures Last(a).role == Last(ms).role && (BehindAssistant(a) <==> BehindAssistant(ms))
  {
  }

  lemma LastAnchored(ms: seq<Message>)
    requires ms != []
    ensures var m := Last(ms);
      Last(Anchor(ms)) == if m.toolResults != [] && !EndsWithCaller(ms[..|ms| - 1]) then Orphan(m) else m
    ensures EndsWithCaller(ms[..|ms| - 1]) ==> BehindAssistant(ms)
  {
    AnchorKeepsCallers(ms[..|ms| - 1]);
    if |ms| > 1 { assert ms[..|ms| - 1][|ms| - 2] == ms[|ms| - 2]; }
  }

  lemma OrphanNotEmpty(m: Message)
    requires m.toolResults != []
    ensures Orphan(m).content != ""
  {
    TextsNotEmpty(m.toolCalls, m.toolResults);
  }

  /** The first step turns tool content into text; what is empty behind it was empty before. */
  lemma LastBefore(hasTools: bool, ms: seq<Message>)
    requires ms != []
    ensures var a := Prepared(hasTools, ms);
      && a != [] && Last(a).role == Last(ms).role && (BehindAssistant(a) <==> BehindAssistant(ms))
      && (Last(ms).role == Assistant ==>
           (Last(a).content == "" && !BehindAssistant(a) <==> EndsEmpty(hasTools, ms)))
  {
    AnchorRoles(ms);
    SameRunEnd(Prepared(hasTools, ms), ms);
    var m := Last(ms);
    if hasTools {
      LastAnchored(ms);
      if m.toolResults != [] { OrphanNotEmpty(m); }
    } else {
      PartsNotEmpty(m);
    }
  }

  lemma PartsNotEmpty(m: Message)
    ensures HasTools(m) ==> StripOne(m).content != ""
  {
    TextsNotEmpty(m.toolCalls, m.toolResults);
    var parts := TextParts(m);
    assert forall p :: p in parts ==> p != "";
    if parts != [] { LastPartShows(parts, GAP); }
  }

  /** No entry has empty content, except that a trailing assistant message is moved to the history without
      the placeholder its content would otherwise get: this shows exactly when that message is empty, has
      nothing that becomes text, and is not merged with an assistant message before it. */
  lemma EmptyContentOnlyWhenMoved(system: string, thinking: string, hasTools: bool, ms: seq<Message>)
    requires ms != []
    ensures var r := Build(system, thinking, hasTools, ms);
      r.Some? && (NoEmptyContent(All(r.value)) <==> !EndsEmpty(hasTools, ms))
  {
    ChainIsGood(hasTools, ms);
    EmptyEntryIff(system, thinking, Chain(hasTools, ms));
    LastOfChain(hasTools, ms);
    LastBefore(hasTools, ms);
  }

  /** One empty assistant message at the end shows; two are merged to a newline. */
  lemma EmptyMessageShows(system: string, thinking: string, hasTools: bool)
    ensures var empty := Message(Assistant, "", [], [], None);
      var one, two := Build(system, thinking, hasTools, [empty]), Build(system, thinking, hasTools, [empty, empty]);
      one.Some? && two.Some? && !NoEmptyContent(All(one.value)) && NoEmptyContent(All(two.value))
  {
    var empty := Message(Assistant, "", [], [], None);
    EmptyContentOnlyWhenMoved(system, thinking, hasTools, [empty]);
    EmptyContentOnlyWhenMoved(system, thinking, hasTools, [empty, empty]);
  }

  lemma ContentSnoc(entries: seq<Entry>, e: Entry)
    ensures NoEmptyContent(entries + [e]) <==> NoEmptyContent(entries) && e.content != ""
  {
    var all := entries + [e];
    assert all[|entries|] == e && forall i :: 0 <= i < |entries| ==> all[i] == entries[i];
  }
}
