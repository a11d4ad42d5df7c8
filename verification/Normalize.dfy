/** The chain that makes messages acceptable to Kiro. Main results: after it, for every list of messages
    with any roles, roles alternate from user on, and every tool result directly follows an assistant
    message with tool calls. */
module Normalize {
  import opened Options
  import opened Messages

  // ----- each step as a function -----

  /** The last message is an assistant's with tool calls. */
  predicate EndsWithCaller(ms: seq<Message>)
  {
    ms != [] && ms[|ms| - 1].role == Assistant && ms[|ms| - 1].toolCalls != []
  }

  /** A message whose tool results have no call before them: they become text. */
  function Orphan(m: Message): Message
  {
    var text := ToolResultsToText(m.toolResults);
    var content :=
      if m.content != "" && text != "" then m.content + GAP + text else if text != "" then text else m.content;
    Message(m.role, content, m.toolCalls, [], None)
  }

  function AnchorOne(before: seq<Message>, m: Message): Message
  {
    if m.toolResults != [] && !EndsWithCaller(before) then Orphan(m) else m
  }

  /** EnsureAssistantBeforeToolResults. */
  function Anchor(ms: seq<Message>): (r: seq<Message>)
    ensures |r| == |ms|
  {
    if ms == [] then []
    else
      var front := Anchor(ms[..|ms| - 1]);
      front + [AnchorOne(front, ms[|ms| - 1])]
  }

  function IfAny(text: string): seq<string> { if text != "" then [text] else [] }

  /** The content, the calls and the results of a message as texts, those that there are. */
  function TextParts(m: Message): seq<string>
  {
    IfAny(m.content) + IfAny(ToolCallsToText(m.toolCalls)) + IfAny(ToolResultsToText(m.toolResults))
  }

  function StripOne(m: Message): Message
  {
    if m.toolCalls == [] && m.toolResults == [] then m
    else Message(m.role, if TextParts(m) != [] then Join(TextParts(m), GAP) else EMPTY_PLACEHOLDER, [], [], None)
  }

  /** StripAllToolContent. */
  function Strip(ms: seq<Message>): (r: seq<Message>)
    ensures |r| == |ms| && forall i :: 0 <= i < |r| ==> r[i] == StripOne(ms[i])
  {
    if ms == [] then [] else Strip(ms[..|ms| - 1]) + [StripOne(ms[|ms| - 1])]
  }

  /** `m` merged into the message before it, of the same role. */
  function MergeTwo(last: Message, m: Message): Message
  {
    last.(content := last.content + "\n" + m.content,
          reasoning := if m.role == Assistant && last.reasoning.None? then m.reasoning else last.reasoning,
          toolCalls := if m.role == Assistant then last.toolCalls + m.toolCalls else last.toolCalls,
          toolResults := if m.role == User then last.toolResults + m.toolResults else last.toolResults)
  }

  function MergeInto(merged: seq<Message>, m: Message): seq<Message>
  {
    if merged == [] || m.role != merged[|merged| - 1].role then merged + [m]
    else merged[|merged| - 1 := MergeTwo(merged[|merged| - 1], m)]
  }

  /** MergeAdjacentMessages. */
  function Merge(ms: seq<Message>): seq<Message>
  {
    if ms == [] then [] else MergeInto(Merge(ms[..|ms| - 1]), ms[|ms| - 1])
  }

  function Filler(role: Role): Message { Message(role, EMPTY_PLACEHOLDER, [], [], None) }

  /** EnsureFirstMessageIsUser. */
  function UserFirst(ms: seq<Message>): seq<Message>
  {
    if ms == [] || ms[0].role == User then ms else [Filler(User)] + ms
  }

  function KnownRole(m: Message): Message
  {
    if m.role == User || m.role == Assistant then m else Message(User, m.content, m.toolCalls, m.toolResults, None)
  }

  /** NormalizeMessageRoles. */
  function KnownRoles(ms: seq<Message>): (r: seq<Message>)
    ensures |r| == |ms| && forall i :: 0 <= i < |r| ==> r[i] == KnownRole(ms[i])
  {
    if ms == [] then [] else KnownRoles(ms[..|ms| - 1]) + [KnownRole(ms[|ms| - 1])]
  }

  function AlternateInto(before: seq<Message>, m: Message): seq<Message>
  {
    before +
    (if m.role == User && before != [] && before[|before| - 1].role == User then [Filler(Assistant)] else []) + [m]
  }

  /** EnsureAlternatingRoles. */
  function Alternate(ms: seq<Message>): seq<Message>
  {
    if ms == [] then [] else AlternateInto(Alternate(ms[..|ms| - 1]), ms[|ms| - 1])
  }

  /** The whole chain of BuildKiroPayload. */
  function Chain(hasTools: bool, ms: seq<Message>): seq<Message>
  {
    Alternate(KnownRoles(UserFirst(Merge(if hasTools then Anchor(ms) else Strip(ms)))))
  }

  // ----- what the steps establish -----

  predicate IsCaller(m: Message) { m.role == Assistant && m.toolCalls != [] }

  /** Message `i` has no tool results, or follows an assistant message with tool calls. */
  predicate AnchoredAt(ms: seq<Message>, i: nat)
    requires i < |ms|
  {
    ms[i].toolResults == [] || (i > 0 && IsCaller(ms[i - 1]))
  }

  predicate Anchored(ms: seq<Message>) { forall i :: 0 <= i < |ms| ==> AnchoredAt(ms, i) }

  lemma AnchoredSnoc(ms: seq<Message>, m: Message)
    ensures Anchored(ms + [m]) <==> Anchored(ms) && (m.toolResults == [] || EndsWithCaller(ms))
  {
    var all := ms + [m];
    assert forall i :: 0 <= i < |ms| ==> AnchoredAt(all, i) == AnchoredAt(ms, i);
    assert AnchoredAt(all, |ms|) == (m.toolResults == [] || EndsWithCaller(ms));
  }

  lemma {:induction false} AnchorKeepsCallers(ms: seq<Message>)
    ensures EndsWithCaller(Anchor(ms)) == EndsWithCaller(ms)
  {
  }

  /** The step anchors every tool result, and changes nothing exactly when all were anchored. */
  lemma {:induction false} AnchorIs(ms: seq<Message>)
    ensures Anchored(Anchor(ms)) && (Anchored(ms) <==> Anchor(ms) == ms)
  {
    if ms != [] {
      var front, m := ms[..|ms| - 1], ms[|ms| - 1];
      AnchorIs(front);
      AnchorKeepsCallers(front);
      AnchoredSnoc(front, m);
      AnchoredSnoc(Anchor(front), AnchorOne(Anchor(front), m));
      SnocSame(Anchor(front), AnchorOne(Anchor(front), m), front, m);
      assert ms == front + [m];
    }
  }

  lemma SnocSame(a: seq<Message>, x: Message, b: seq<Message>, y: Message)
    requires |a| == |b|
    ensures a + [x] == b + [y] <==> a == b && x == y
  {
    if a + [x] == b + [y] {
      assert (a + [x])[..|a|] == a && (b + [y])[..|b|] == b;
      assert (a + [x])[|a|] == x && (b + [y])[|b|] == y;
    }
  }

  // ----- the loops -----

  lemma AnchorNext(ms: seq<Message>, n: nat)
    requires n < |ms|
    ensures Anchor(ms[..n + 1]) == Anchor(ms[..n]) + [AnchorOne(Anchor(ms[..n]), ms[n])]
    ensures Anchored(ms[..n + 1]) <==>
      Anchored(ms[..n]) && (ms[n].toolResults == [] || EndsWithCaller(Anchor(ms[..n])))
  {
    assert ms[..n + 1] == ms[..n] + [ms[n]] && ms[..n + 1][..n] == ms[..n];
    AnchoredSnoc(ms[..n], ms[n]);
    AnchorKeepsCallers(ms[..n]);
  }

  /** The conversion of one orphan. */
  method ConvertOrphan(m: Message) returns (r: Message)
    ensures r == Orphan(m)
  {
    var text := ResultsToText(m.toolResults);
    var newContent := m.content;
    if m.content != "" && text != "" {
      newContent := m.content + GAP + text;
    } else if text != "" {
      newContent := text;
    }
    r := Message(m.role, newContent, m.toolCalls, [], None);
  }

  method EnsureAssistantBeforeToolResults(ms: seq<Message>) returns (out: seq<Message>, modified: bool)
    ensures out == Anchor(ms) && modified == !Anchored(ms)
  {
    if |ms| == 0 { return [], false; }
    out, modified := [], false;
    for n := 0 to |ms|
      invariant out == Anchor(ms[..n]) && modified == !Anchored(ms[..n])
    {
      AnchorNext(ms, n);
      if |ms[n].toolResults| > 0 && !EndsWithCaller(out) {
        var orphan := ConvertOrphan(ms[n]);
        out := out + [orphan];
        modified := true;
      } else {
        out := out + [ms[n]];
      }
    }
    assert ms[..|ms|] == ms;
  }

  /** The parts of one message with tool content. */
  method CollectParts(m: Message) returns (parts: seq<string>)
    ensures parts == TextParts(m)
  {
    parts := [];
    if m.content != "" { parts := parts + [m.content]; }
    assert parts == IfAny(m.content);
    ghost var first := parts;
    if |m.toolCalls| > 0 {
      var text := CallsToText(m.toolCalls);
      if text != "" { parts := parts + [text]; }
    }
    assert parts == first + IfAny(ToolCallsToText(m.toolCalls));
    first := parts;
    if |m.toolResults| > 0 {
      var text := ResultsToText(m.toolResults);
      if text != "" { parts := parts + [text]; }
    }
    assert parts == first + IfAny(ToolResultsToText(m.toolResults));
  }

  predicate HasTools(m: Message) { m.toolCalls != [] || m.toolResults != [] }

  method StripAllToolContent(ms: seq<Message>) returns (out: seq<Message>, modified: bool)
    ensures out == Strip(ms) && modified == exists i :: 0 <= i < |ms| && HasTools(ms[i])
  {
    if |ms| == 0 { return [], false; }
    out, modified := [], false;
    for n := 0 to |ms|
      invariant out == Strip(ms[..n]) && modified == exists i :: 0 <= i < n && HasTools(ms[i])
    {
      assert ms[..n + 1][..n] == ms[..n];
      if !HasTools(ms[n]) {
        out := out + [ms[n]];
      } else {
        modified := true;
        var parts := CollectParts(ms[n]);
        var content := EMPTY_PLACEHOLDER;
        if |parts| > 0 { content := Join(parts, GAP); }
        out := out + [Message(ms[n].role, content, [], [], None)];
      }
    }
    assert ms[..|ms|] == ms;
  }

  method MergeAdjacentMessages(ms: seq<Message>) returns (merged: seq<Message>)
    ensures merged == Merge(ms)
  {
    merged := [];
    for n := 0 to |ms|
      invariant merged == Merge(ms[..n])
    {
      assert ms[..n + 1][..n] == ms[..n];
      merged := MergeStep(merged, ms[n]);
    }
    assert ms[..|ms|] == ms;
  }

  /** One round: append, or update the last message field by field. */
  method MergeStep(before: seq<Message>, m: Message) returns (merged: seq<Message>)
    ensures merged == MergeInto(before, m)
  {
    merged := before;
    if |merged| == 0 { return merged + [m]; }
    var idx := |merged| - 1;
    if m.role != merged[idx].role { return merged + [m]; }
    var last := merged[idx];
    last := last.(content := last.content + "\n" + m.content);
    if m.role == Assistant && last.reasoning.None? { last := last.(reasoning := m.reasoning); }
    if m.role == Assistant && |m.toolCalls| > 0 { last := last.(toolCalls := last.toolCalls + m.toolCalls); }
    if m.role == User && |m.toolResults| > 0 { last := last.(toolResults := last.toolResults + m.toolResults); }
    NothingAdded(last.toolCalls, last.toolResults);
    merged := merged[idx := last];
  }

  lemma NothingAdded<A, B>(a: seq<A>, b: seq<B>)
    ensures a + [] == a && b + [] == b
  {
  }

  method EnsureFirstMessageIsUser(ms: seq<Message>) returns (out: seq<Message>)
    ensures out == UserFirst(ms)
  {
    if |ms| == 0 { return ms; }
    if ms[0].role != User { return [Filler(User)] + ms; }
    return ms;
  }

  method NormalizeMessageRoles(ms: seq<Message>) returns (out: seq<Message>)
    ensures out == KnownRoles(ms)
  {
    out := [];
    for n := 0 to |ms|
      invariant out == KnownRoles(ms[..n])
    {
      assert ms[..n + 1][..n] == ms[..n];
      var m := ms[n];
      if m.role != User && m.role != Assistant {
        out := out + [Message(User, m.content, m.toolCalls, m.toolResults, None)];
      } else {
        out := out + [m];
      }
    }
    assert ms[..|ms|] == ms;
  }

  method EnsureAlternatingRoles(ms: seq<Message>) returns (out: seq<Message>)
    ensures out == Alternate(ms)
  {
    if |ms| < 2 {
      AlternateShort(ms);
      return ms;
    }
    out := [ms[0]];
    AlternateShort(ms[..1]);
    for n := 1 to |ms|
      invariant out == Alternate(ms[..n]) && out != []
    {
      assert ms[..n + 1][..n] == ms[..n];
      var before := out;
      if ms[n].role == User && out[|out| - 1].role == User { out := out + [Filler(Assistant)]; }
      out := out + [ms[n]];
      if !(ms[n].role == User && before[|before| - 1].role == User) { assert before + [] == before; }
    }
    assert ms[..|ms|] == ms;
  }

  lemma AlternateShort(ms: seq<Message>)
    requires |ms| < 2
    ensures Alternate(ms) == ms
  {
    if ms != [] {
      var none: seq<Message> := [];
      assert ms[..0] == none && Alternate(none) == none;
      assert AlternateInto(none, ms[0]) == [ms[0]] == ms;
    }
  }
}
