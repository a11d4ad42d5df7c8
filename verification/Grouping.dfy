/** The blocks of a reply, told from the events alone: neighbouring texts make one block, neighbouring
    thinking makes one block, and everything else starts anew. Main result: these are the blocks a streaming
    client sees and the blocks of the non-streaming reply, signatures and all. */
module Grouping {
  import opened Text
  import opened ToolCalls
  import opened Pipeline
  import opened Protocol
  import opened Wire
  import opened Collect
  import F = Formatter
  import N = NonStreaming
  import Replies
  import Sse
  import Streams
  import Thinking

  // ----- the blocks, event by event -----

  /** What the next text or thinking may go on with. */
  datatype Open = Nothing | Texts | Thoughts

  /** The blocks so far, which kind may grow, and how many ids were generated. */
  datatype Group = Group(blocks: seq<Acc>, open: Open, drawn: nat)

  const NO_BLOCKS := Group([], Nothing, 0)

  function TextAcc(text: string): Acc { Acc(TextType, "", "", "", "", text, "") }

  function ThinkingAcc(text: string, signature: string): Acc { Acc(ThinkingType, "", "", "", signature, text, "") }

  function RedactedAcc(data: string): Acc { Acc(RedactedType, "", "", data, "", "", "") }

  function ToolAcc(id: string, name: string, json: string): Acc { Acc(ToolType, id, name, "", "", "", json) }

  function Texted(g: Group, text: string): Group
  {
    if g.open == Texts && g.blocks != [] then
      var n := |g.blocks| - 1;
      g.(blocks := g.blocks[..n] + [TextAcc(g.blocks[n].text + text)])
    else g.(blocks := g.blocks + [TextAcc(text)], open := Texts)
  }

  /** Thinking goes on with an open thinking block, whose signature stays, or opens one signed `signature`. */
  function Thought(g: Group, text: string, signature: string): Group
  {
    if g.open == Thoughts && g.blocks != [] then
      var n := |g.blocks| - 1;
      g.(blocks := g.blocks[..n] + [ThinkingAcc(g.blocks[n].text + text, g.blocks[n].signature)])
    else g.(blocks := g.blocks + [ThinkingAcc(text, signature)], open := Thoughts)
  }

  /** A signature signs the open thinking block, or an empty one of its own, and closes it. */
  function Signed(g: Group, signature: string): Group
  {
    if g.open == Thoughts && g.blocks != [] then
      var n := |g.blocks| - 1;
      g.(blocks := g.blocks[..n] + [ThinkingAcc(g.blocks[n].text, signature)], open := Nothing)
    else g.(blocks := g.blocks + [ThinkingAcc("", signature)], open := Nothing)
  }

  function Called(env: F.Env, g: Group, call: F.BracketCall): Group
  {
    var id := if call.id == "" then env.toolId(g.drawn) else call.id;
    Group(g.blocks + [ToolAcc(id, call.name, env.dump(call.input))], Nothing,
          if call.id == "" then g.drawn + 1 else g.drawn)
  }

  /** One event more. Generated thinking carries the gateway's own signature, native thinking none. */
  function Grown(env: F.Env, h: F.ThinkingHandling, g: Group, ev: KiroEvent): Group
  {
    match ev
    case Content(t) => Texted(g, t)
    case Thinking(t) =>
      if h == F.Strip then g else if h == F.IncludeAsText then Texted(g, t) else Thought(g, t, env.ownSignature)
    case NativeThinking(t) =>
      if h == F.Strip then g else if h == F.IncludeAsText then Texted(g, t) else Thought(g, t, "")
    case Signature(s) => if h == F.AsReasoningContent then Signed(g, s) else g
    case Redacted(d) =>
      if h == F.AsReasoningContent then g.(blocks := g.blocks + [RedactedAcc(d)], open := Nothing) else g
    case ToolUse(tool) => Called(env, g, F.BracketCall(tool.id, tool.name, tool.input))
    case _ => g
  }

  function Grouped(env: F.Env, h: F.ThinkingHandling, evs: seq<KiroEvent>): Group
  {
    if evs == [] then NO_BLOCKS else Grown(env, h, Grouped(env, h, evs[..|evs| - 1]), evs[|evs| - 1])
  }

  /** The calls found in the text come last. */
  function WithCalls(env: F.Env, g: Group, calls: seq<F.BracketCall>): Group
  {
    if calls == [] then g else Called(env, WithCalls(env, g, calls[..|calls| - 1]), calls[|calls| - 1])
  }

  /** All blocks of a message. */
  function AllBlocks(env: F.Env, h: F.ThinkingHandling, evs: seq<KiroEvent>): seq<Acc>
  {
    WithCalls(env, Grouped(env, h, evs), env.brackets(N.ContentText(evs))).blocks
  }

  // ----- reading on -----

  function Put(order: seq<Acc>, f: Frame): seq<Acc>
  {
    match f
    case BlockStart(_, kind) => order + [FreshAcc(KindIn(kind))]
    case BlockDelta(_, d) => if order == [] then [] else order[|order| - 1 := Add(order[|order| - 1], d)]
    case _ => order
  }

  function ReadOn(order: seq<Acc>, frames: seq<Frame>): seq<Acc>
  {
    if frames == [] then order else Put(ReadOn(order, frames[..|frames| - 1]), frames[|frames| - 1])
  }

  lemma {:induction false} ReadOffIs(frames: seq<Frame>)
    ensures N.ReadOff(frames) == ReadOn([], frames)
  {
    if frames != [] { ReadOffIs(frames[..|frames| - 1]); }
  }

  lemma {:induction false} ReadOnAppend(order: seq<Acc>, a: seq<Frame>, b: seq<Frame>)
    ensures ReadOn(order, a + b) == ReadOn(ReadOn(order, a), b)
    decreases |b|
  {
    if b == [] {
      assert a + b == a;
    } else {
      var front, last := b[..|b| - 1], b[|b| - 1];
      assert (a + b)[..|a + b| - 1] == a + front && (a + b)[|a + b| - 1] == last;
      ReadOnAppend(order, a, front);
    }
  }

  lemma ReadOne(order: seq<Acc>, f: Frame)
    ensures ReadOn(order, [f]) == Put(order, f)
  {
    assert [f][..0] == [];
  }

  lemma ReadTwo(order: seq<Acc>, f: Frame, g: Frame)
    ensures ReadOn(order, [f, g]) == Put(Put(order, f), g)
  {
    assert [f, g][..1] == [f];
    ReadOne(order, f);
  }

  // ----- each transition -----

  /** The formatter's fields and the blocks agree. */
  predicate Stands(b: F.Blocks, g: Group)
  {
    && (b.textOpen <==> g.open == Texts) && (b.thinkingOpen <==> g.open == Thoughts)
    && (g.open != Nothing ==> g.blocks != [])
    && (g.open == Texts ==> g.blocks[|g.blocks| - 1] == TextAcc(g.blocks[|g.blocks| - 1].text))
    && (g.open == Thoughts ==>
         var last := g.blocks[|g.blocks| - 1]; last == ThinkingAcc(last.text, last.signature))
  }

  lemma ClosingReadsNothing(order: seq<Acc>, b: F.Blocks)
    ensures ReadOn(order, F.CloseThinking(b).1) == order && ReadOn(order, F.CloseText(b).1) == order
    ensures ReadOn(order, F.CloseBoth(b).1) == order
  {
    ReadOne(order, BlockStop(b.thinkingAt));
    ReadOne(order, BlockStop(b.textAt));
    ReadOnAppend(order, F.CloseThinking(b).1, F.CloseText(F.CloseThinking(b).0).1);
  }

  /** `order` with `x` in place of its last block. */
  function Relast(order: seq<Acc>, x: Acc): seq<Acc>
    requires order != []
  {
    order[..|order| - 1] + [x]
  }

  lemma RelastSnoc(order: seq<Acc>, x: Acc, y: Acc)
    ensures Relast(order + [x], y) == order + [y]
  {
  }

  lemma RelastSame(order: seq<Acc>)
    requires order != []
    ensures Relast(order, order[|order| - 1]) == order
  {
  }

  lemma Replaced(order: seq<Acc>, x: Acc)
    requires order != []
    ensures order[|order| - 1 := x] == Relast(order, x)
  {
  }

  /** A delta changes the last block. */
  lemma DeltaReads(order: seq<Acc>, i: nat, d: Delta)
    requires order != []
    ensures ReadOn(order, [BlockDelta(i, d)]) == Relast(order, Add(order[|order| - 1], d))
  {
    ReadOne(order, BlockDelta(i, d));
    Replaced(order, Add(order[|order| - 1], d));
  }

  lemma AddedText(text: string, more: string)
    ensures Add(TextAcc(text), TextDelta(more)) == TextAcc(text + more)
    ensures text + "" == text && "" + text == text
  {
  }

  /** A text delta that is left out when it is empty. */
  lemma TextDeltaReads(order: seq<Acc>, i: nat, text: string)
    requires order != [] && order[|order| - 1] == TextAcc(order[|order| - 1].text)
    ensures ReadOn(order, if text != "" then [BlockDelta(i, TextDelta(text))] else []) ==
      Relast(order, TextAcc(order[|order| - 1].text + text))
  {
    AddedText(order[|order| - 1].text, text);
    if text == "" { RelastSame(order); } else { DeltaReads(order, i, TextDelta(text)); }
  }

  /** The blocks once a text block is open. */
  function TextOpened(g: Group): seq<Acc> { if g.open == Texts then g.blocks else g.blocks + [TextAcc("")] }

  lemma OpenTextReads(g: Group, b: F.Blocks)
    requires Stands(b, g)
    ensures ReadOn(g.blocks, F.CloseThinking(b).1 + F.OpenText(F.CloseThinking(b).0).1) == TextOpened(g)
  {
    var (b1, f1) := F.CloseThinking(b);
    ClosingReadsNothing(g.blocks, b);
    ReadOne(g.blocks, BlockStart(b1.current, TextBlock));
    ReadOnAppend(g.blocks, f1, F.OpenText(b1).1);
  }

  lemma TextGrows(g: Group, b: F.Blocks, text: string, i: nat)
    requires Stands(b, g)
    ensures ReadOn(TextOpened(g), if text != "" then [BlockDelta(i, TextDelta(text))] else []) == Texted(g, text).blocks
  {
    TextDeltaReads(TextOpened(g), i, text);
    AddedText(text, "");
    RelastSnoc(g.blocks, TextAcc(""), TextAcc(text));
  }

  lemma TextStands(g: Group, b: F.Blocks, text: string)
    requires Stands(b, g)
    ensures Stands(F.WriteText(b, text).0, Texted(g, text)) && Texted(g, text).drawn == g.drawn
  {
  }

  lemma TextReads(g: Group, b: F.Blocks, text: string)
    requires Stands(b, g)
    ensures var (b', f) := F.WriteText(b, text); var g' := Texted(g, text);
      Stands(b', g') && ReadOn(g.blocks, f) == g'.blocks && g'.drawn == g.drawn
  {
    var (b1, f1) := F.CloseThinking(b);
    var (b2, f2) := F.OpenText(b1);
    TextStands(g, b, text);
    OpenTextReads(g, b);
    TextGrows(g, b, text, b2.textAt);
    ReadOnAppend(g.blocks, f1 + f2, if text != "" then [BlockDelta(b2.textAt, TextDelta(text))] else []);
  }

  lemma AddedThinking(text: string, more: string, signature: string, other: string)
    ensures Add(ThinkingAcc(text, signature), ThinkingDelta(more)) == ThinkingAcc(text + more, signature)
    ensures Add(ThinkingAcc(text, signature), SignatureDelta(other)) == ThinkingAcc(text, other)
    ensures text + "" == text && "" + text == text
  {
  }

  lemma ThinkingDeltaReads(order: seq<Acc>, i: nat, text: string)
    requires order != [] && (var last := order[|order| - 1]; last == ThinkingAcc(last.text, last.signature))
    ensures ReadOn(order, [BlockDelta(i, ThinkingDelta(text))]) ==
      Relast(order, ThinkingAcc(order[|order| - 1].text + text, order[|order| - 1].signature))
    ensures text == "" ==>
      order == Relast(order, ThinkingAcc(order[|order| - 1].text + text, order[|order| - 1].signature))
  {
    AddedThinking(order[|order| - 1].text, text, order[|order| - 1].signature, "");
    RelastSame(order);
    DeltaReads(order, i, ThinkingDelta(text));
  }

  /** The blocks once a thinking block is open. */
  function Opened(g: Group, signature: string): seq<Acc>
  {
    if g.open == Thoughts then g.blocks else g.blocks + [ThinkingAcc("", signature)]
  }

  lemma OpenThinkingReads(g: Group, b: F.Blocks, signature: string)
    requires Stands(b, g) && !b.textOpen
    ensures ReadOn(g.blocks, F.OpenThinking(b, signature).1) == Opened(g, signature)
  {
    ReadOne(g.blocks, BlockStart(b.current, ThinkingBlock(signature)));
  }

  lemma OpenNativeReads(g: Group, b: F.Blocks)
    requires Stands(b, g)
    ensures ReadOn(g.blocks, F.OpenNative(b).1) == Opened(g, "")
  {
    if !b.thinkingOpen {
      var (b1, f1) := F.CloseText(b);
      ClosingReadsNothing(g.blocks, b);
      ReadOne(g.blocks, BlockStart(b1.current, ThinkingBlock("")));
      ReadOnAppend(g.blocks, f1, F.OpenThinking(b1, "").1);
    }
  }

  lemma OpenedGrows(g: Group, b: F.Blocks, text: string, signature: string, i: nat)
    requires Stands(b, g)
    ensures var order := Opened(g, signature);
      && ReadOn(order, [BlockDelta(i, ThinkingDelta(text))]) == Thought(g, text, signature).blocks
      && (text == "" ==> order == Thought(g, text, signature).blocks)
  {
    var order := Opened(g, signature);
    ThinkingDeltaReads(order, i, text);
    AddedThinking(text, "", signature, "");
    RelastSnoc(g.blocks, ThinkingAcc("", signature), ThinkingAcc(text, signature));
  }

  lemma ThinkingReads(env: F.Env, h: F.ThinkingHandling, g: Group, b: F.Blocks, text: string)
    requires Stands(b, g) && (h == F.AsReasoningContent ==> !b.textOpen)
    ensures var (b', f) := F.HandleThinking(env, h, b, text); var g' := Grown(env, h, g, Thinking(text));
      Stands(b', g') && ReadOn(g.blocks, f) == g'.blocks && g'.drawn == g.drawn
  {
    match h
    case AsReasoningContent =>
      var (b1, f1) := F.OpenThinking(b, env.ownSignature);
      OpenThinkingReads(g, b, env.ownSignature);
      OpenedGrows(g, b, text, env.ownSignature, b1.thinkingAt);
      ReadOnAppend(g.blocks, f1, if text != "" then [BlockDelta(b1.thinkingAt, ThinkingDelta(text))] else []);
    case IncludeAsText => TextReads(g, b, text);
    case Strip =>
  }

  lemma NativeStands(g: Group, b: F.Blocks, text: string)
    requires Stands(b, g)
    ensures Stands(F.OpenNative(b).0, Thought(g, text, "")) && Thought(g, text, "").drawn == g.drawn
  {
  }

  lemma NativeTextReads(g: Group, b: F.Blocks, text: string)
    requires Stands(b, g)
    ensures var (b1, f1) := F.OpenNative(b);
      ReadOn(g.blocks, f1 + [BlockDelta(b1.thinkingAt, ThinkingDelta(text))]) == Thought(g, text, "").blocks
  {
    var (b1, f1) := F.OpenNative(b);
    OpenNativeReads(g, b);
    OpenedGrows(g, b, text, "", b1.thinkingAt);
    ReadOnAppend(g.blocks, f1, [BlockDelta(b1.thinkingAt, ThinkingDelta(text))]);
  }

  lemma NativeReads(env: F.Env, h: F.ThinkingHandling, g: Group, b: F.Blocks, text: string)
    requires Stands(b, g)
    ensures var (b', f) := F.HandleNative(env, h, b, text); var g' := Grown(env, h, g, NativeThinking(text));
      Stands(b', g') && ReadOn(g.blocks, f) == g'.blocks && g'.drawn == g.drawn
  {
    if h == F.AsReasoningContent {
      NativeStands(g, b, text);
      NativeTextReads(g, b, text);
    } else {
      ThinkingReads(env, h, g, b, text);
    }
  }

  lemma OpenedSigned(g: Group, b: F.Blocks, signature: string, i: nat, j: nat)
    requires Stands(b, g)
    ensures ReadOn(Opened(g, ""), [BlockDelta(i, SignatureDelta(signature)), BlockStop(j)]) ==
      Signed(g, signature).blocks
  {
    var order := Opened(g, "");
    var delta := BlockDelta(i, SignatureDelta(signature));
    ReadTwo(order, delta, BlockStop(j));
    ReadOne(order, delta);
    DeltaReads(order, i, SignatureDelta(signature));
    AddedThinking(order[|order| - 1].text, "", order[|order| - 1].signature, signature);
    RelastSnoc(g.blocks, ThinkingAcc("", ""), ThinkingAcc("", signature));
  }

  lemma SignatureReads(env: F.Env, h: F.ThinkingHandling, g: Group, b: F.Blocks, signature: string)
    requires Stands(b, g)
    ensures var (b', f) := F.HandleSignature(h, b, signature); var g' := Grown(env, h, g, Signature(signature));
      Stands(b', g') && ReadOn(g.blocks, f) == g'.blocks && g'.drawn == g.drawn
  {
    if h == F.AsReasoningContent {
      var (b1, f1) := F.OpenNative(b);
      OpenNativeReads(g, b);
      OpenedSigned(g, b, signature, b1.thinkingAt, b1.thinkingAt);
      ReadOnAppend(g.blocks, f1, [BlockDelta(b1.thinkingAt, SignatureDelta(signature)), BlockStop(b1.thinkingAt)]);
    }
  }

  lemma RedactedReads(env: F.Env, h: F.ThinkingHandling, g: Group, b: F.Blocks, data: string)
    requires Stands(b, g)
    ensures var (b', f) := F.HandleRedacted(h, b, data); var g' := Grown(env, h, g, Redacted(data));
      Stands(b', g') && ReadOn(g.blocks, f) == g'.blocks && g'.drawn == g.drawn
  {
    if h == F.AsReasoningContent {
      var (b1, f1) := F.CloseBoth(b);
      var start, stop := BlockStart(b1.current, RedactedBlock(data)), BlockStop(b1.current);
      ClosingReadsNothing(g.blocks, b);
      ReadTwo(g.blocks, start, stop);
      ReadOnAppend(g.blocks, f1, [start, stop]);
    }
  }

  lemma ToolFramesRead(order: seq<Acc>, i: nat, id: string, name: string, json: string)
    ensures ReadOn(order, F.ToolFrames(i, id, name, json)) == order + [ToolAcc(id, name, json)]
  {
    var f := F.ToolFrames(i, id, name, json);
    assert f == [f[0], f[1]] + [f[2]];
    ReadOnAppend(order, [f[0], f[1]], [f[2]]);
    ReadTwo(order, f[0], f[1]);
    ReadOne(order + [ToolAcc(id, name, json)], f[2]);
    RelastSnoc(order, ToolAcc(id, name, ""), ToolAcc(id, name, json));
    assert "" + json == json;
  }

  lemma EmitReads(env: F.Env, g: Group, st: F.State, call: F.BracketCall)
    requires Stands(st.blocks, g.(open := Nothing)) && st.drawn == g.drawn
    ensures var (st', f) := F.EmitTool(env, st, call.id, call.name, call.input); var g' := Called(env, g, call);
      Stands(st'.blocks, g') && ReadOn(g.blocks, f) == g'.blocks && st'.drawn == g'.drawn
  {
    var id := if call.id == "" then env.toolId(st.drawn) else call.id;
    ToolFramesRead(g.blocks, st.blocks.current, id, call.name, env.dump(call.input));
  }

  lemma ToolUseReads(env: F.Env, g: Group, st: F.State, tool: ToolUseData)
    requires Stands(st.blocks, g) && st.drawn == g.drawn
    ensures var (st', f) := F.HandleToolUse(env, st, tool);
      var g' := Called(env, g, F.BracketCall(tool.id, tool.name, tool.input));
      Stands(st'.blocks, g') && ReadOn(g.blocks, f) == g'.blocks && st'.drawn == g'.drawn
  {
    var (b1, f1) := F.CloseBoth(st.blocks);
    var st1 := st.(blocks := b1);
    ClosingReadsNothing(g.blocks, st.blocks);
    EmitReads(env, g, st1, F.BracketCall(tool.id, tool.name, tool.input));
    ReadOnAppend(g.blocks, f1, F.EmitTool(env, st1, tool.id, tool.name, tool.input).1);
  }

  /** One event, in a safe place. */
  lemma HandleReads(env: F.Env, h: F.ThinkingHandling, g: Group, st: F.State, ev: KiroEvent)
    requires Stands(st.blocks, g) && st.drawn == g.drawn
    requires h == F.AsReasoningContent && ev.Thinking? ==> !st.blocks.textOpen
    ensures var (st', f) := F.Handle(env, h, st, ev); var g' := Grown(env, h, g, ev);
      Stands(st'.blocks, g') && ReadOn(g.blocks, f) == g'.blocks && st'.drawn == g'.drawn
  {
    match ev
    case Content(text) => TextReads(g, st.blocks, text);
    case Thinking(text) => ThinkingReads(env, h, g, st.blocks, text);
    case NativeThinking(text) => NativeReads(env, h, g, st.blocks, text);
    case Signature(signature) => SignatureReads(env, h, g, st.blocks, signature);
    case Redacted(data) => RedactedReads(env, h, g, st.blocks, data);
    case ToolUse(tool) => ToolUseReads(env, g, st, tool);
    case _ =>
  }

  // ----- whole messages -----

  /** The formatter's state and its frames, read off, are the group of the events. */
  ghost predicate ReadsAs(g: Group, st: F.State, frames: seq<Frame>)
  {
    Stands(st.blocks, g) && st.drawn == g.drawn && ReadOn([], frames) == g.blocks
  }

  lemma ReadsNext(env: F.Env, h: F.ThinkingHandling, g: Group, st: F.State, frames: seq<Frame>, ev: KiroEvent)
    requires ReadsAs(g, st, frames)
    requires h == F.AsReasoningContent && ev.Thinking? ==> !st.blocks.textOpen
    ensures var (st', f) := F.Handle(env, h, st, ev); ReadsAs(Grown(env, h, g, ev), st', frames + f)
  {
    HandleReads(env, h, g, st, ev);
    ReadOnAppend([], frames, F.Handle(env, h, st, ev).1);
  }

  lemma {:induction false} EventsRead(env: F.Env, h: F.ThinkingHandling, evs: seq<KiroEvent>)
    requires F.SafeOrder(h, evs)
    ensures var (st, f) := F.HandleAll(env, h, evs); ReadsAs(Grouped(env, h, evs), st, f)
  {
    if evs != [] {
      var front, last := evs[..|evs| - 1], evs[|evs| - 1];
      F.SafePrefix(h, evs);
      EventsRead(env, h, front);
      F.ClientAfter(env, h, front);
      var (st, f) := F.HandleAll(env, h, front);
      ReadsNext(env, h, Grouped(env, h, front), st, f, last);
    }
  }

  lemma {:induction false} BracketsRead(env: F.Env, g: Group, st: F.State, calls: seq<F.BracketCall>)
    requires Stands(st.blocks, g.(open := Nothing)) && st.drawn == g.drawn
    ensures var (st', f) := F.EmitBrackets(env, st, calls); var g' := WithCalls(env, g, calls);
      Stands(st'.blocks, g'.(open := Nothing)) && ReadOn(g.blocks, f) == g'.blocks && st'.drawn == g'.drawn
    decreases |calls|
  {
    if calls != [] {
      var front, last := calls[..|calls| - 1], calls[|calls| - 1];
      BracketsRead(env, g, st, front);
      var (st1, f1) := F.EmitBrackets(env, st, front);
      EmitReads(env, WithCalls(env, g, front), st1, last);
      ReadOnAppend(g.blocks, f1, F.EmitTool(env, st1, last.id, last.name, last.input).1);
    }
  }

  lemma BracketTailReads(env: F.Env, g: Group, st: F.State)
    requires Stands(st.blocks, g) && st.drawn == g.drawn
    ensures ReadOn(g.blocks, F.BracketTail(env, st).1) == WithCalls(env, g, env.brackets(st.fullContent)).blocks
  {
    var calls := env.brackets(st.fullContent);
    if calls != [] {
      var (b1, f1) := F.CloseBoth(st.blocks);
      ClosingReadsNothing(g.blocks, st.blocks);
      BracketsRead(env, g, st.(blocks := b1), calls);
      ReadOnAppend(g.blocks, f1, F.EmitBrackets(env, st.(blocks := b1), calls).1);
    }
  }

  lemma FinishReads(env: F.Env, g: Group, st: F.State)
    requires Stands(st.blocks, g) && st.drawn == g.drawn
    ensures ReadOn(g.blocks, F.Finish(env, st).1) == WithCalls(env, g, env.brackets(st.fullContent)).blocks
  {
    var (st1, f1) := F.BracketTail(env, st);
    var (b2, f2) := F.CloseBoth(st1.blocks);
    var order := ReadOn(g.blocks, f1);
    var closing := [MessageDelta(F.StopReason(st1.(blocks := b2))), MessageStop];
    BracketTailReads(env, g, st);
    ClosingReadsNothing(order, st1.blocks);
    ReadTwo(order, closing[0], closing[1]);
    ReadOnAppend(g.blocks, f1, f2);
    ReadOnAppend(g.blocks, f1 + f2, closing);
  }

  /** The frames of safely ordered events, read off block by block, are the groups of the events. */
  lemma FramesAreGroups(env: F.Env, h: F.ThinkingHandling, evs: seq<KiroEvent>)
    requires F.SafeOrder(h, evs)
    ensures N.ReadOff(F.Frames(env, h, evs)) == AllBlocks(env, h, evs)
  {
    var (st, f) := F.HandleAll(env, h, evs);
    EventsRead(env, h, evs);
    N.HandleAllTells(env, h, evs);
    FinishReads(env, Grouped(env, h, evs), st);
    ReadOne([], MessageStart);
    ReadOnAppend([], [MessageStart], f);
    ReadOnAppend([], [MessageStart] + f, F.Finish(env, st).1);
    ReadOffIs(F.Frames(env, h, evs));
  }

  // ----- the reply -----

  /** `b` is the reply's block for the group `a`. */
  predicate Renders(a: Acc, b: OutBlock)
  {
    match a.blockType
    case TextType => b == OutText(a.text)
    case ThinkingType => b == OutThinking(a.text, a.signature)
    case RedactedType => b == OutRedacted(a.data)
    case ToolType => b.OutTool? && b.id == a.id && b.name == a.name && InputFor(a.partial, b.input)
    case OtherType => false
  }

  predicate RendersAll(order: seq<Acc>, content: seq<OutBlock>)
  {
    |content| == |order| && forall i :: 0 <= i < |order| ==> Renders(order[i], content[i])
  }

  predicate AllKnown(order: seq<Acc>) { forall i :: 0 <= i < |order| ==> !order[i].blockType.OtherType? }

  lemma RendersSnoc(order: seq<Acc>, content: seq<OutBlock>, a: Acc, b: OutBlock)
    requires RendersAll(order, content) && Renders(a, b)
    ensures RendersAll(order + [a], content + [b])
  {
  }

  lemma OneRendered(a: Acc) returns (b: OutBlock)
    requires !a.blockType.OtherType?
    ensures OutOf(a) == [b] && Renders(a, b)
  {
    InputIs(a.partial);
    b := OutOf(a)[0];
  }

  lemma BlocksSnoc(front: seq<Acc>, last: Acc)
    ensures Blocks(front + [last]) == Blocks(front) + OutOf(last)
  {
    assert (front + [last])[..|front|] == front;
  }

  lemma {:induction false} BlocksRender(order: seq<Acc>)
    requires AllKnown(order)
    ensures RendersAll(order, Blocks(order))
    decreases |order|
  {
    if order != [] {
      var front, last := order[..|order| - 1], order[|order| - 1];
      assert order == front + [last];
      BlocksRender(front);
      var b := OneRendered(last);
      BlocksSnoc(front, last);
      RendersSnoc(front, Blocks(front), last, b);
    }
  }

  lemma KnownSnoc(order: seq<Acc>, a: Acc)
    requires AllKnown(order) && !a.blockType.OtherType?
    ensures AllKnown(order + [a])
  {
  }

  lemma KnownFront(order: seq<Acc>)
    requires AllKnown(order) && order != []
    ensures AllKnown(order[..|order| - 1])
  {
  }

  lemma TextKnown(g: Group, text: string)
    requires AllKnown(g.blocks)
    ensures AllKnown(Texted(g, text).blocks)
  {
    if g.open == Texts && g.blocks != [] {
      KnownFront(g.blocks);
      KnownSnoc(g.blocks[..|g.blocks| - 1], TextAcc(g.blocks[|g.blocks| - 1].text + text));
    } else {
      KnownSnoc(g.blocks, TextAcc(text));
    }
  }

  lemma ThinkingKnown(g: Group, text: string, signature: string)
    requires AllKnown(g.blocks)
    ensures AllKnown(Thought(g, text, signature).blocks) && AllKnown(Signed(g, signature).blocks)
  {
    KnownSnoc(g.blocks, ThinkingAcc(text, signature));
    KnownSnoc(g.blocks, ThinkingAcc("", signature));
    if g.open == Thoughts && g.blocks != [] {
      var front, last := g.blocks[..|g.blocks| - 1], g.blocks[|g.blocks| - 1];
      KnownFront(g.blocks);
      KnownSnoc(front, ThinkingAcc(last.text + text, last.signature));
      KnownSnoc(front, ThinkingAcc(last.text, signature));
    }
  }

  lemma GrownKnown(env: F.Env, h: F.ThinkingHandling, g: Group, ev: KiroEvent)
    requires AllKnown(g.blocks)
    ensures AllKnown(Grown(env, h, g, ev).blocks)
  {
    match ev
    case Content(t) => TextKnown(g, t);
    case Thinking(t) =>
      TextKnown(g, t);
      ThinkingKnown(g, t, env.ownSignature);
    case NativeThinking(t) =>
      TextKnown(g, t);
      ThinkingKnown(g, t, "");
    case Signature(s) => ThinkingKnown(g, "", s);
    case Redacted(d) => KnownSnoc(g.blocks, RedactedAcc(d));
    case ToolUse(tool) =>
    case _ =>
  }

  lemma {:induction false} GroupedKnown(env: F.Env, h: F.ThinkingHandling, evs: seq<KiroEvent>)
    ensures AllKnown(Grouped(env, h, evs).blocks)
  {
    if evs != [] {
      GroupedKnown(env, h, evs[..|evs| - 1]);
      GrownKnown(env, h, Grouped(env, h, evs[..|evs| - 1]), evs[|evs| - 1]);
    }
  }

  lemma {:induction false} CallsKnown(env: F.Env, g: Group, calls: seq<F.BracketCall>)
    requires AllKnown(g.blocks)
    ensures AllKnown(WithCalls(env, g, calls).blocks)
  {
    if calls != [] { CallsKnown(env, g, calls[..|calls| - 1]); }
  }

  lemma ContentOf(meta: Meta, o: Codec, cfg: Thinking.Config, env: F.Env, h: F.ThinkingHandling,
                  chunks: seq<string>)
    requires ValidMeta(meta) && Thinking.UsableTags(cfg.openTags)
    requires StringIds(FinalCalls(o, Run(o, cfg, chunks).0))
    ensures var bytes := Replies.Bytes(meta, Streams.Sent(o, cfg, env, h, chunks, false));
      ResponseOf(TakeAll(Sse.SseData(bytes))).content == Blocks(AllBlocks(env, h, Events(o, cfg, chunks)))
  {
    var evs := Events(o, cfg, chunks);
    ThinkingBeforeContent(o, cfg, chunks);
    F.ThinkingFirstIsSafe(h, evs);
    FramesAreGroups(env, h, evs);
    Replies.ReplyMatchesStream(meta, o, cfg, env, h, chunks);
  }

  /** The blocks of the reply to a stream are the groups of its events, one by one and in order, for every
      stream, chunking and handling. */
  lemma ReplyIsGrouped(meta: Meta, o: Codec, cfg: Thinking.Config, env: F.Env, h: F.ThinkingHandling,
                       chunks: seq<string>)
    requires ValidMeta(meta) && Thinking.UsableTags(cfg.openTags)
    requires StringIds(FinalCalls(o, Run(o, cfg, chunks).0))
    ensures var bytes := Replies.Bytes(meta, Streams.Sent(o, cfg, env, h, chunks, false));
      RendersAll(AllBlocks(env, h, Events(o, cfg, chunks)), ResponseOf(TakeAll(Sse.SseData(bytes))).content)
  {
    var evs := Events(o, cfg, chunks);
    ContentOf(meta, o, cfg, env, h, chunks);
    GroupedKnown(env, h, evs);
    CallsKnown(env, Grouped(env, h, evs), env.brackets(N.ContentText(evs)));
    BlocksRender(AllBlocks(env, h, evs));
  }

  // ----- broken streams -----

  /** What a client has read when the body breaks is the groups of the events so far. */
  lemma BrokenIsGrouped(o: Codec, cfg: Thinking.Config, env: F.Env, h: F.ThinkingHandling, chunks: seq<string>)
    requires Thinking.UsableTags(cfg.openTags)
    ensures var evs := Run(o, cfg, chunks).1;
      N.ReadOff(Streams.Sent(o, cfg, env, h, chunks, true)) == Grouped(env, h, evs).blocks
  {
    var evs := Run(o, cfg, chunks).1;
    RunOrdered(o, cfg, chunks);
    F.ThinkingFirstIsSafe(h, evs);
    EventsRead(env, h, evs);
    var f := F.HandleAll(env, h, evs).1;
    ReadOne([], MessageStart);
    ReadOnAppend([], [MessageStart], f);
    ReadOffIs([MessageStart] + f);
  }
}
