/** The formatter and its block index as objects that write frames to a stream writer. */
module Formatters {
  import opened ToolCalls
  import opened Pipeline
  import opened Protocol
  import opened Formatter
  import opened StreamWriters
  import opened Text

  class BlockIndex {
    var current: nat
    var thinkingOpen: bool
    var thinkingAt: nat
    var textOpen: bool
    var textAt: nat

    function Abs(): Blocks
      reads this
    {
      Blocks(current, thinkingOpen, thinkingAt, textOpen, textAt)
    }

    constructor ()
      ensures Abs() == Formatter.START.blocks
    {
      current, thinkingOpen, thinkingAt, textOpen, textAt := 0, false, 0, false, 0;
    }

    method CloseThinking() returns (idx: nat, closed: bool)
      modifies this
      ensures closed == old(thinkingOpen) && Abs() == Formatter.CloseThinking(old(Abs())).0
      ensures closed ==> idx == old(thinkingAt)
    {
      if !thinkingOpen { return 0, false; }
      idx, closed := thinkingAt, true;
      thinkingOpen := false;
      current := current + 1;
    }

    method CloseText() returns (idx: nat, closed: bool)
      modifies this
      ensures closed == old(textOpen) && Abs() == Formatter.CloseText(old(Abs())).0
      ensures closed ==> idx == old(textAt)
    {
      if !textOpen { return 0, false; }
      idx, closed := textAt, true;
      textOpen := false;
      current := current + 1;
    }

    method OpenThinking() returns (idx: nat, isNew: bool)
      modifies this
      ensures isNew == !old(thinkingOpen) && idx == thinkingAt
      ensures Abs() == Formatter.OpenThinking(old(Abs()), "").0
    {
      if thinkingOpen { return thinkingAt, false; }
      thinkingAt := current;
      thinkingOpen := true;
      return thinkingAt, true;
    }

    method OpenText() returns (idx: nat, isNew: bool)
      modifies this
      ensures isNew == !old(textOpen) && idx == textAt && Abs() == Formatter.OpenText(old(Abs())).0
    {
      if textOpen { return textAt, false; }
      textAt := current;
      textOpen := true;
      return textAt, true;
    }

    method ReserveToolBlock() returns (idx: nat)
      modifies this
      ensures idx == old(current) && Abs() == old(Abs()).(current := idx + 1)
    {
      idx := current;
      current := current + 1;
    }
  }

  lemma Appended(base: seq<Frame>, f1: seq<Frame>, f2: seq<Frame>, x: Frame, y: Frame)
    ensures (((base + f1) + f2) + [x]) + [y] == base + (f1 + f2 + [x, y])
  {
    assert [x] + [y] == [x, y];
  }

  class StreamFormatter {
    const env: Env
    const handling: ThinkingHandling
    const blocks: BlockIndex
    var fullContent: string
    var fullThinkingContent: string
    var toolBlockCount: nat
    var receivedContextUsage: bool
    var refused: bool
    var truncatedTools: seq<Truncated>
    var drawn: nat

    function Abs(): Formatter.State
      reads this, blocks
    {
      Formatter.State.State(
        blocks.Abs(), fullContent, fullThinkingContent, toolBlockCount, receivedContextUsage, refused,
        truncatedTools, drawn)
    }

    constructor (env: Env, handling: ThinkingHandling)
      ensures this.env == env && this.handling == handling && fresh(blocks) && Abs() == Formatter.START
    {
      var b := new BlockIndex();
      this.env, this.handling, blocks := env, handling, b;
      fullContent, fullThinkingContent, toolBlockCount := "", "", 0;
      receivedContextUsage, refused, truncatedTools, drawn := false, false, [], 0;
    }

    method EmitMessageStart(w: StreamWriter)
      requires w.Valid()
      modifies w
      ensures w.Valid() && w.frames == old(w.frames) + [MessageStart]
    {
      w.Write(MessageStart);
    }

    method Handle(ev: KiroEvent, w: StreamWriter)
      requires w.Valid()
      modifies this, blocks, w
      ensures w.Valid()
      ensures var (s, f) := Formatter.Handle(env, handling, old(Abs()), ev);
        Abs() == s && w.frames == old(w.frames) + f
    {
      match ev {
        case Content(text) => HandleContent(text, w);
        case Thinking(text) => HandleThinking(text, w);
        case ToolUse(tool) => HandleToolUse(tool, w);
        case ContextUsage(_) => receivedContextUsage := true;
        case Usage(_) =>
        case Refusal => refused := true;
        case NativeThinking(text) => HandleNativeThinking(text, w);
        case Signature(signature) => HandleThinkingSignature(signature, w);
        case Redacted(data) => HandleRedactedThinking(data, w);
        case Diagnosis(_) =>
      }
    }

    method HandleContent(content: string, w: StreamWriter)
      requires w.Valid()
      modifies this`fullContent, blocks, w
      ensures w.Valid() && fullContent == old(fullContent) + content
      ensures var (b, f) := WriteText(old(blocks.Abs()), content);
        blocks.Abs() == b && w.frames == old(w.frames) + f
    {
      fullContent := fullContent + content;
      EmitText(content, w);
    }

    /** The part that content and thinking-as-text share. */
    method EmitText(text: string, w: StreamWriter)
      requires w.Valid()
      modifies blocks, w
      ensures w.Valid()
      ensures var (b, f) := WriteText(old(blocks.Abs()), text);
        blocks.Abs() == b && w.frames == old(w.frames) + f
    {
      StopThinking(w);
      var idx, isNew := blocks.OpenText();
      if isNew { w.Write(BlockStart(idx, TextBlock)); }
      if text != "" { w.Write(BlockDelta(blocks.textAt, TextDelta(text))); }
    }

    method StopThinking(w: StreamWriter)
      requires w.Valid()
      modifies blocks, w
      ensures w.Valid()
      ensures var (b, f) := CloseThinking(old(blocks.Abs()));
        blocks.Abs() == b && w.frames == old(w.frames) + f
    {
      var idx, closed := blocks.CloseThinking();
      if closed { w.Write(BlockStop(idx)); }
    }

    method StopText(w: StreamWriter)
      requires w.Valid()
      modifies blocks, w
      ensures w.Valid()
      ensures var (b, f) := CloseText(old(blocks.Abs()));
        blocks.Abs() == b && w.frames == old(w.frames) + f
    {
      var idx, closed := blocks.CloseText();
      if closed { w.Write(BlockStop(idx)); }
    }

    method CloseOpenBlocks(w: StreamWriter)
      requires w.Valid()
      modifies blocks, w
      ensures w.Valid()
      ensures var (b, f) := CloseBoth(old(blocks.Abs()));
        blocks.Abs() == b && w.frames == old(w.frames) + f
    {
      StopThinking(w);
      StopText(w);
    }

    method HandleThinking(text: string, w: StreamWriter)
      requires w.Valid()
      modifies this`fullThinkingContent, blocks, w
      ensures w.Valid() && fullThinkingContent == old(fullThinkingContent) + text
      ensures var (b, f) := Formatter.HandleThinking(env, handling, old(blocks.Abs()), text);
        blocks.Abs() == b && w.frames == old(w.frames) + f
    {
      fullThinkingContent := fullThinkingContent + text;
      match handling {
        case AsReasoningContent =>
          var idx, isNew := blocks.OpenThinking();
          if isNew { w.Write(BlockStart(idx, ThinkingBlock(env.ownSignature))); }
          if text != "" { w.Write(BlockDelta(blocks.thinkingAt, ThinkingDelta(text))); }
        case IncludeAsText => EmitText(text, w);
        case Strip =>
      }
    }

    method HandleNativeThinking(text: string, w: StreamWriter)
      requires w.Valid()
      modifies this`fullThinkingContent, blocks, w
      ensures w.Valid() && fullThinkingContent == old(fullThinkingContent) + text
      ensures var (b, f) := HandleNative(env, handling, old(blocks.Abs()), text);
        blocks.Abs() == b && w.frames == old(w.frames) + f
    {
      if handling != AsReasoningContent {
        HandleThinking(text, w);
        return;
      }
      fullThinkingContent := fullThinkingContent + text;
      OpenNativeThinking(w);
      w.Write(BlockDelta(blocks.thinkingAt, ThinkingDelta(text)));
    }

    method HandleThinkingSignature(signature: string, w: StreamWriter)
      requires w.Valid()
      modifies blocks, w
      ensures w.Valid()
      ensures var (b, f) := HandleSignature(handling, old(blocks.Abs()), signature);
        blocks.Abs() == b && w.frames == old(w.frames) + f
    {
      if handling != AsReasoningContent { return; }
      OpenNativeThinking(w);
      var idx := blocks.thinkingAt;
      w.Write(BlockDelta(idx, SignatureDelta(signature)));
      var _, _ := blocks.CloseThinking();
      w.Write(BlockStop(idx));
    }

    method HandleRedactedThinking(data: string, w: StreamWriter)
      requires w.Valid()
      modifies blocks, w
      ensures w.Valid()
      ensures var (b, f) := HandleRedacted(handling, old(blocks.Abs()), data);
        blocks.Abs() == b && w.frames == old(w.frames) + f
    {
      if handling != AsReasoningContent { return; }
      CloseOpenBlocks(w);
      var idx := blocks.ReserveToolBlock();
      w.Write(BlockStart(idx, RedactedBlock(data)));
      w.Write(BlockStop(idx));
    }

    method OpenNativeThinking(w: StreamWriter)
      requires w.Valid()
      modifies blocks, w
      ensures w.Valid()
      ensures var (b, f) := OpenNative(old(blocks.Abs()));
        blocks.Abs() == b && w.frames == old(w.frames) + f
    {
      if blocks.thinkingOpen { return; }
      StopText(w);
      var idx, _ := blocks.OpenThinking();
      w.Write(BlockStart(idx, ThinkingBlock("")));
    }

    /** The truncation part of handleToolUse. */
    method RecordTruncation(toolId: string, tool: ToolUseData)
      modifies this`truncatedTools
      ensures truncatedTools == old(truncatedTools) +
        if tool.truncation.Some? then [Truncated(toolId, tool.name, tool.truncation.value)] else []
    {
      if tool.truncation.Some? {
        truncatedTools := truncatedTools + [Truncated(toolId, tool.name, tool.truncation.value)];
      }
    }

    method HandleToolUse(tool: ToolUseData, w: StreamWriter)
      requires w.Valid()
      modifies this`toolBlockCount, this`truncatedTools, this`drawn, blocks, w
      ensures w.Valid()
      ensures var (s, f) := Formatter.HandleToolUse(env, old(Abs()), tool);
        Abs() == s && w.frames == old(w.frames) + f
    {
      ghost var base, was := w.frames, Abs();
      CloseOpenBlocks(w);
      ghost var (b1, f1) := CloseBoth(was.blocks);
      var toolId := GenerateId(tool.id);
      RecordTruncation(toolId, tool);
      EmitToolUseBlock(toolId, tool.name, tool.input, w);
      Associate(base, f1, EmitTool(env, was.(blocks := b1), tool.id, tool.name, tool.input).1);
    }

    /** An empty id is replaced by a generated one. */
    method GenerateId(id: string) returns (toolId: string)
      modifies this`drawn
      ensures toolId == if id == "" then env.toolId(old(drawn)) else id
      ensures drawn == if id == "" then old(drawn) + 1 else old(drawn)
    {
      toolId := id;
      if toolId == "" {
        toolId := env.toolId(drawn);
        drawn := drawn + 1;
      }
    }

    method EmitToolUseBlock(id: string, name: string, input: Fields, w: StreamWriter)
      requires w.Valid()
      modifies this`toolBlockCount, blocks, w
      ensures w.Valid() && toolBlockCount == old(toolBlockCount) + 1
      ensures blocks.Abs() == old(blocks.Abs()).(current := old(blocks.current) + 1)
      ensures w.frames == old(w.frames) + ToolFrames(old(blocks.current), id, name, env.dump(input))
    {
      var idx := blocks.ReserveToolBlock();
      w.Write(BlockStart(idx, ToolBlock(id, name)));
      w.Write(BlockDelta(idx, JsonDelta(env.dump(input))));
      w.Write(BlockStop(idx));
      toolBlockCount := toolBlockCount + 1;
    }

    method EmitBracketToolCall(call: BracketCall, w: StreamWriter)
      requires w.Valid()
      modifies this`toolBlockCount, this`drawn, blocks, w
      ensures w.Valid()
      ensures var (s, f) := EmitTool(env, old(Abs()), call.id, call.name, call.input);
        Abs() == s && w.frames == old(w.frames) + f
    {
      var toolId := GenerateId(call.id);
      EmitToolUseBlock(toolId, call.name, call.input, w);
    }

    /** The bracket-call loop of Finish. */
    method EmitBracketCalls(calls: seq<BracketCall>, w: StreamWriter)
      requires w.Valid()
      modifies this`toolBlockCount, this`drawn, blocks, w
      ensures w.Valid()
      ensures var (s, f) := EmitBrackets(env, old(Abs()), calls);
        Abs() == s && w.frames == old(w.frames) + f
    {
      ghost var before, written := Abs(), w.frames;
      for i := 0 to |calls|
        invariant w.Valid()
        invariant var (s, f) := EmitBrackets(env, before, calls[..i]); Abs() == s && w.frames == written + f
      {
        BracketsNext(env, before, calls, i);
        EmitBracketToolCall(calls[i], w);
      }
      assert calls[..|calls|] == calls;
    }

    method EmitBracketTail(w: StreamWriter)
      requires w.Valid()
      modifies this`toolBlockCount, this`drawn, blocks, w
      ensures w.Valid()
      ensures var (s, f) := BracketTail(env, old(Abs()));
        Abs() == s && w.frames == old(w.frames) + f
    {
      var bracketCalls := env.brackets(fullContent);
      if |bracketCalls| > 0 {
        CloseOpenBlocks(w);
        EmitBracketCalls(bracketCalls, w);
      }
    }

    method ChooseStopReason() returns (stopReason: string)
      ensures stopReason == StopReason(Abs())
    {
      stopReason := "end_turn";
      if refused {
        stopReason := "refusal";
      } else if ContentWasTruncated(Abs()) {
        stopReason := "max_tokens";
      } else if toolBlockCount > 0 {
        stopReason := "tool_use";
      }
    }

    method Finish(w: StreamWriter)
      requires w.Valid()
      modifies this, blocks, w
      ensures w.Valid()
      ensures var (s, f) := Formatter.Finish(env, old(Abs()));
        Abs() == s && w.frames == old(w.frames) + f
    {
      ghost var base := w.frames;
      ghost var (s1, f1) := BracketTail(env, Abs());
      EmitBracketTail(w);
      CloseOpenBlocks(w);
      var stopReason := ChooseStopReason();
      w.Write(MessageDelta(stopReason));
      w.Write(MessageStop);
      Appended(base, f1, CloseBoth(s1.blocks).1, MessageDelta(stopReason), MessageStop);
    }
  }

  lemma BracketsNext(env: Env, s: Formatter.State, calls: seq<BracketCall>, i: nat)
    requires i < |calls|
    ensures var (s1, f1) := EmitBrackets(env, s, calls[..i]);
      var (s2, f2) := EmitTool(env, s1, calls[i].id, calls[i].name, calls[i].input);
      EmitBrackets(env, s, calls[..i + 1]) == (s2, f1 + f2)
  {
    assert calls[..i + 1][..i] == calls[..i];
  }
}
