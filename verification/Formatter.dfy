/** The Anthropic formatter as a function from events to frames. Main result: its output is a
    well-formed stream exactly when no thinking event arrives while a text block is open. */
module Formatter {
  import opened ToolCalls
  import opened Pipeline
  import opened Protocol

  datatype ThinkingHandling = AsReasoningContent | IncludeAsText | Strip

  /** A "[Called f with args: {...}]" call found in the text. */
  datatype BracketCall = BracketCall(id: string, name: string, input: Fields)

  /** The library functions the formatter relies on, left arbitrary. */
  datatype Env = Env(
    dump: Fields -> string,                     // pythonStyleDumps
    toolId: nat -> string,                      // the n-th generated tool_use id
    brackets: string -> seq<BracketCall>,       // parsers.ParseBracketToolCalls
    ownSignature: string)                       // utils.GenerateThinkingSignature

  /** blockIndex. */
  datatype Blocks = Blocks(current: nat, thinkingOpen: bool, thinkingAt: nat, textOpen: bool, textAt: nat)

  datatype Truncated = Truncated(id: string, name: string, reason: string)

  datatype State = State(
    blocks: Blocks, fullContent: string, fullThinking: string, toolBlocks: nat,
    contextSeen: bool, refused: bool, truncated: seq<Truncated>, drawn: nat)

  const START := State.State(Blocks(0, false, 0, false, 0), "", "", 0, false, false, [], 0)

  // ----- block transitions, each with the frames it writes -----

  function CloseThinking(b: Blocks): (Blocks, seq<Frame>)
  {
    if !b.thinkingOpen then (b, [])
    else (b.(thinkingOpen := false, current := b.current + 1), [BlockStop(b.thinkingAt)])
  }

  function CloseText(b: Blocks): (Blocks, seq<Frame>)
  {
    if !b.textOpen then (b, []) else (b.(textOpen := false, current := b.current + 1), [BlockStop(b.textAt)])
  }

  function CloseBoth(b: Blocks): (Blocks, seq<Frame>)
  {
    var (b1, f1) := CloseThinking(b);
    var (b2, f2) := CloseText(b1);
    (b2, f1 + f2)
  }

  function OpenText(b: Blocks): (Blocks, seq<Frame>)
  {
    if b.textOpen then (b, []) else (b.(textOpen := true, textAt := b.current), [BlockStart(b.current, TextBlock)])
  }

  function OpenThinking(b: Blocks, signature: string): (Blocks, seq<Frame>)
  {
    if b.thinkingOpen then (b, [])
    else (b.(thinkingOpen := true, thinkingAt := b.current), [BlockStart(b.current, ThinkingBlock(signature))])
  }

  /** openNativeThinking. */
  function OpenNative(b: Blocks): (Blocks, seq<Frame>)
  {
    if b.thinkingOpen then (b, [])
    else
      var (b1, f1) := CloseText(b);
      var (b2, f2) := OpenThinking(b1, "");
      (b2, f1 + f2)
  }

  /** Text goes to the text block, closing an open thinking block first. */
  function WriteText(b: Blocks, text: string): (Blocks, seq<Frame>)
  {
    var (b1, f1) := CloseThinking(b);
    var (b2, f2) := OpenText(b1);
    (b2, f1 + f2 + if text != "" then [BlockDelta(b2.textAt, TextDelta(text))] else [])
  }

  // ----- events -----

  function HandleThinking(env: Env, h: ThinkingHandling, b: Blocks, text: string): (Blocks, seq<Frame>)
  {
    match h
    case AsReasoningContent =>
      var (b1, f1) := OpenThinking(b, env.ownSignature);
      (b1, f1 + if text != "" then [BlockDelta(b1.thinkingAt, ThinkingDelta(text))] else [])
    case IncludeAsText => WriteText(b, text)
    case Strip => (b, [])
  }

  function HandleNative(env: Env, h: ThinkingHandling, b: Blocks, text: string): (Blocks, seq<Frame>)
  {
    if h != AsReasoningContent then HandleThinking(env, h, b, text)
    else
      var (b1, f1) := OpenNative(b);
      (b1, f1 + [BlockDelta(b1.thinkingAt, ThinkingDelta(text))])
  }

  function HandleSignature(h: ThinkingHandling, b: Blocks, signature: string): (Blocks, seq<Frame>)
  {
    if h != AsReasoningContent then (b, [])
    else
      var (b1, f1) := OpenNative(b);
      var (b2, _) := CloseThinking(b1);
      (b2, f1 + [BlockDelta(b1.thinkingAt, SignatureDelta(signature)), BlockStop(b1.thinkingAt)])
  }

  function HandleRedacted(h: ThinkingHandling, b: Blocks, data: string): (Blocks, seq<Frame>)
  {
    if h != AsReasoningContent then (b, [])
    else
      var (b1, f1) := CloseBoth(b);
      (b1.(current := b1.current + 1), f1 + [BlockStart(b1.current, RedactedBlock(data)), BlockStop(b1.current)])
  }

  /** emitToolUseBlock: start, one delta, stop. */
  function ToolFrames(index: nat, id: string, name: string, json: string): seq<Frame>
  {
    [BlockStart(index, ToolBlock(id, name)), BlockDelta(index, JsonDelta(json)), BlockStop(index)]
  }

  /** A tool call: an empty id is replaced by a generated one. */
  function EmitTool(env: Env, s: State, id: string, name: string, input: Fields): (State, seq<Frame>)
  {
    var toolId := if id == "" then env.toolId(s.drawn) else id;
    var i := s.blocks.current;
    (s.(blocks := s.blocks.(current := i + 1), toolBlocks := s.toolBlocks + 1,
        drawn := if id == "" then s.drawn + 1 else s.drawn),
     ToolFrames(i, toolId, name, env.dump(input)))
  }

  function HandleToolUse(env: Env, s: State, tool: ToolUseData): (State, seq<Frame>)
  {
    var (b1, f1) := CloseBoth(s.blocks);
    var toolId := if tool.id == "" then env.toolId(s.drawn) else tool.id;
    var (s1, f2) := EmitTool(env, s.(blocks := b1), tool.id, tool.name, tool.input);
    (s1.(truncated := s1.truncated +
           if tool.truncation.Some? then [Truncated(toolId, tool.name, tool.truncation.value)] else []),
     f1 + f2)
  }

  /** Formatter.Handle. */
  function Handle(env: Env, h: ThinkingHandling, s: State, ev: KiroEvent): (State, seq<Frame>)
  {
    match ev
    case Content(text) =>
      var (b, f) := WriteText(s.blocks, text);
      (s.(blocks := b, fullContent := s.fullContent + text), f)
    case Thinking(text) =>
      var (b, f) := HandleThinking(env, h, s.blocks, text);
      (s.(blocks := b, fullThinking := s.fullThinking + text), f)
    case NativeThinking(text) =>
      var (b, f) := HandleNative(env, h, s.blocks, text);
      (s.(blocks := b, fullThinking := s.fullThinking + text), f)
    case Signature(signature) =>
      var (b, f) := HandleSignature(h, s.blocks, signature);
      (s.(blocks := b), f)
    case Redacted(data) =>
      var (b, f) := HandleRedacted(h, s.blocks, data);
      (s.(blocks := b), f)
    case ToolUse(tool) => HandleToolUse(env, s, tool)
    case ContextUsage(_) => (s.(contextSeen := true), [])
    case Refusal => (s.(refused := true), [])
    case Usage(_) => (s, [])
    case Diagnosis(_) => (s, [])
  }

  function HandleAll(env: Env, h: ThinkingHandling, evs: seq<KiroEvent>): (State, seq<Frame>)
  {
    if evs == [] then (START, [])
    else
      var (s, f) := HandleAll(env, h, evs[..|evs| - 1]);
      var (s', f') := Handle(env, h, s, evs[|evs| - 1]);
      (s', f + f')
  }

  // ----- Finish -----

  function EmitBrackets(env: Env, s: State, calls: seq<BracketCall>): (State, seq<Frame>)
  {
    if calls == [] then (s, [])
    else
      var n := |calls| - 1;
      var (s1, f1) := EmitBrackets(env, s, calls[..n]);
      var (s2, f2) := EmitTool(env, s1, calls[n].id, calls[n].name, calls[n].input);
      (s2, f1 + f2)
  }

  /** ContentWasTruncated. */
  predicate ContentWasTruncated(s: State)
  {
    !s.refused && !s.contextSeen && s.fullContent != "" && s.toolBlocks == 0
  }

  function StopReason(s: State): string
  {
    if s.refused then "refusal"
    else if ContentWasTruncated(s) then "max_tokens"
    else if s.toolBlocks > 0 then "tool_use"
    else "end_turn"
  }

  /** The bracket calls found in the accumulated text, after closing what is open. */
  function BracketTail(env: Env, s: State): (State, seq<Frame>)
  {
    var calls := env.brackets(s.fullContent);
    if calls == [] then (s, [])
    else
      var (b1, f1) := CloseBoth(s.blocks);
      var (s2, f2) := EmitBrackets(env, s.(blocks := b1), calls);
      (s2, f1 + f2)
  }

  /** Formatter.Finish. */
  function Finish(env: Env, s: State): (State, seq<Frame>)
  {
    var (s1, f1) := BracketTail(env, s);
    var (b2, f2) := CloseBoth(s1.blocks);
    var s2 := s1.(blocks := b2);
    (s2, f1 + f2 + [MessageDelta(StopReason(s2)), MessageStop])
  }

  /** Everything written for a list of events: message_start, the events' frames, the closing frames. */
  function Frames(env: Env, h: ThinkingHandling, evs: seq<KiroEvent>): seq<Frame>
  {
    var (s, f) := HandleAll(env, h, evs);
    [MessageStart] + f + Finish(env, s).1
  }

  // ----- no empty deltas -----

  /** A delta without text; native thinking is written as it comes. */
  predicate EmptyText(f: Frame) { f.BlockDelta? && f.delta == TextDelta("") }

  predicate EmptyThinking(f: Frame) { f.BlockDelta? && f.delta == ThinkingDelta("") }

  predicate NoneEmpty(frames: seq<Frame>)
  {
    forall i :: 0 <= i < |frames| ==> !EmptyText(frames[i]) && !EmptyThinking(frames[i])
  }

  lemma NoneEmptyAppend(a: seq<Frame>, b: seq<Frame>)
    requires NoneEmpty(a) && NoneEmpty(b)
    ensures NoneEmpty(a + b)
  {
  }

  lemma HandleNoneEmpty(env: Env, h: ThinkingHandling, s: State, ev: KiroEvent)
    requires ev != KiroEvent.NativeThinking("")
    ensures NoneEmpty(Handle(env, h, s, ev).1)
  {
  }

  /** Events without empty native thinking, which the pipeline drops, give no empty delta. */
  lemma {:induction false} NoEmptyDeltas(env: Env, h: ThinkingHandling, evs: seq<KiroEvent>)
    requires KiroEvent.NativeThinking("") !in evs
    ensures NoneEmpty(HandleAll(env, h, evs).1)
  {
    if evs != [] {
      var front, last := evs[..|evs| - 1], evs[|evs| - 1];
      NoEmptyDeltas(env, h, front);
      assert last in evs;
      HandleNoneEmpty(env, h, HandleAll(env, h, front).0, last);
      NoneEmptyAppend(HandleAll(env, h, front).1, Handle(env, h, HandleAll(env, h, front).0, last).1);
    }
  }

  // ----- when the output is well-formed -----

  /** Whether a text block is open after the events, told from the events alone. */
  predicate TextOpen(h: ThinkingHandling, evs: seq<KiroEvent>)
  {
    if evs == [] then false
    else
      var n := |evs| - 1;
      match evs[n]
      case Content(_) => true
      case Thinking(_) => h == IncludeAsText || TextOpen(h, evs[..n])
      case NativeThinking(_) => h == IncludeAsText || (h == Strip && TextOpen(h, evs[..n]))
      case Signature(_) => h != AsReasoningContent && TextOpen(h, evs[..n])
      case Redacted(_) => h != AsReasoningContent && TextOpen(h, evs[..n])
      case ToolUse(_) => false
      case _ => TextOpen(h, evs[..n])
  }

  /** No thinking event arrives while text is open; only blocks of their own make that matter. */
  ghost predicate SafeOrder(h: ThinkingHandling, evs: seq<KiroEvent>)
  {
    h == AsReasoningContent ==>
      forall i :: 0 <= i < |evs| && evs[i].Thinking? ==> !TextOpen(h, evs[..i])
  }

  /** The client's stage agrees with the block fields, and at most one block is open. */
  predicate InStep(b: Blocks, stage: Stage)
  {
    && !(b.thinkingOpen && b.textOpen)
    && (b.thinkingOpen ==>
         b.thinkingAt == b.current && stage.Inside? && stage.index == b.current && stage.kind.ThinkingBlock?)
    && (b.textOpen ==> b.textAt == b.current && stage == Inside(b.current, TextBlock))
    && (!b.thinkingOpen && !b.textOpen ==> stage == Between(b.current))
  }

  /** Frames that lead the client from a stage in step with `b` to one in step with `b'`. */
  predicate Leads(b: Blocks, stage: Stage, b': Blocks, frames: seq<Frame>)
  {
    InStep(b, stage) && InStep(b', After(stage, frames))
  }

  lemma LeadsThen(b: Blocks, stage: Stage, b1: Blocks, f1: seq<Frame>, b2: Blocks, f2: seq<Frame>)
    requires Leads(b, stage, b1, f1) && Leads(b1, After(stage, f1), b2, f2)
    ensures Leads(b, stage, b2, f1 + f2)
  {
    AfterAppend(stage, f1, f2);
  }

  lemma OneFrame(b: Blocks, stage: Stage, b': Blocks, f: Frame)
    requires InStep(b, stage) && InStep(b', Accept(stage, f))
    ensures Leads(b, stage, b', [f])
  {
    AfterOne(stage, f);
  }

  lemma CloseLeads(b: Blocks, stage: Stage)
    requires InStep(b, stage)
    ensures Leads(b, stage, CloseThinking(b).0, CloseThinking(b).1)
    ensures Leads(b, stage, CloseText(b).0, CloseText(b).1)
  {
    AfterOne(stage, BlockStop(b.current));
  }

  lemma CloseBothLeads(b: Blocks, stage: Stage)
    requires InStep(b, stage)
    ensures var (b', f) := CloseBoth(b); Leads(b, stage, b', f) && !b'.thinkingOpen && !b'.textOpen
  {
    var (b1, f1) := CloseThinking(b);
    CloseLeads(b, stage);
    CloseLeads(b1, After(stage, f1));
    LeadsThen(b, stage, b1, f1, CloseText(b1).0, CloseText(b1).1);
  }

  lemma WriteTextLeads(b: Blocks, stage: Stage, text: string)
    requires InStep(b, stage)
    ensures var (b', f) := WriteText(b, text); Leads(b, stage, b', f) && b'.textOpen
  {
    var (b1, f1) := CloseThinking(b);
    var (b2, f2) := OpenText(b1);
    CloseLeads(b, stage);
    AfterOne(After(stage, f1), BlockStart(b1.current, TextBlock));
    LeadsThen(b, stage, b1, f1, b2, f2);
    var rest := if text != "" then [BlockDelta(b2.textAt, TextDelta(text))] else [];
    AfterOne(After(stage, f1 + f2), BlockDelta(b2.textAt, TextDelta(text)));
    LeadsThen(b, stage, b2, f1 + f2, b2, rest);
  }

  lemma OpenThinkingLeads(b: Blocks, stage: Stage, signature: string)
    requires InStep(b, stage) && !b.textOpen
    ensures var (b', f) := OpenThinking(b, signature); Leads(b, stage, b', f) && b'.thinkingOpen
  {
    AfterOne(stage, BlockStart(b.current, ThinkingBlock(signature)));
  }

  lemma OpenNativeLeads(b: Blocks, stage: Stage)
    requires InStep(b, stage)
    ensures var (b', f) := OpenNative(b); Leads(b, stage, b', f) && b'.thinkingOpen
  {
    if !b.thinkingOpen {
      var (b1, f1) := CloseText(b);
      CloseLeads(b, stage);
      OpenThinkingLeads(b1, After(stage, f1), "");
      LeadsThen(b, stage, b1, f1, OpenThinking(b1, "").0, OpenThinking(b1, "").1);
    }
  }

  lemma ThinkingLeads(env: Env, h: ThinkingHandling, b: Blocks, stage: Stage, text: string)
    requires InStep(b, stage) && (h == AsReasoningContent ==> !b.textOpen)
    ensures var (b', f) := HandleThinking(env, h, b, text);
      && Leads(b, stage, b', f)
      && b'.textOpen == (h == IncludeAsText || b.textOpen)
  {
    match h
    case AsReasoningContent =>
      var (b1, f1) := OpenThinking(b, env.ownSignature);
      OpenThinkingLeads(b, stage, env.ownSignature);
      AfterOne(After(stage, f1), BlockDelta(b1.thinkingAt, ThinkingDelta(text)));
      LeadsThen(b, stage, b1, f1, b1, if text != "" then [BlockDelta(b1.thinkingAt, ThinkingDelta(text))] else []);
    case IncludeAsText => WriteTextLeads(b, stage, text);
    case Strip =>
  }

  lemma NativeLeads(env: Env, h: ThinkingHandling, b: Blocks, stage: Stage, text: string)
    requires InStep(b, stage)
    ensures var (b', f) := HandleNative(env, h, b, text);
      && Leads(b, stage, b', f)
      && b'.textOpen == (h == IncludeAsText || (h == Strip && b.textOpen))
  {
    if h != AsReasoningContent {
      ThinkingLeads(env, h, b, stage, text);
    } else {
      var (b1, f1) := OpenNative(b);
      OpenNativeLeads(b, stage);
      OneFrame(b1, After(stage, f1), b1, BlockDelta(b1.thinkingAt, ThinkingDelta(text)));
      LeadsThen(b, stage, b1, f1, b1, [BlockDelta(b1.thinkingAt, ThinkingDelta(text))]);
    }
  }

  lemma SignatureLeads(h: ThinkingHandling, b: Blocks, stage: Stage, signature: string)
    requires InStep(b, stage)
    ensures var (b', f) := HandleSignature(h, b, signature);
      && Leads(b, stage, b', f)
      && b'.textOpen == (h != AsReasoningContent && b.textOpen)
  {
    if h == AsReasoningContent {
      var (b1, f1) := OpenNative(b);
      var delta, stop := BlockDelta(b1.thinkingAt, SignatureDelta(signature)), BlockStop(b1.thinkingAt);
      OpenNativeLeads(b, stage);
      var stage1 := After(stage, f1);
      OneFrame(b1, stage1, b1, delta);
      OneFrame(b1, stage1, CloseThinking(b1).0, stop);
      assert [delta] + [stop] == [delta, stop];
      LeadsThen(b1, stage1, b1, [delta], CloseThinking(b1).0, [stop]);
      LeadsThen(b, stage, b1, f1, CloseThinking(b1).0, [delta, stop]);
    }
  }

  lemma RedactedLeads(h: ThinkingHandling, b: Blocks, stage: Stage, data: string)
    requires InStep(b, stage)
    ensures var (b', f) := HandleRedacted(h, b, data);
      && Leads(b, stage, b', f)
      && b'.textOpen == (h != AsReasoningContent && b.textOpen)
  {
    if h == AsReasoningContent {
      var (b1, f1) := CloseBoth(b);
      CloseBothLeads(b, stage);
      var start, stop := BlockStart(b1.current, RedactedBlock(data)), BlockStop(b1.current);
      var b2 := b1.(current := b1.current + 1);
      AfterOne(After(stage, f1), start);
      AfterOne(Inside(b1.current, RedactedBlock(data)), stop);
      assert [start] + [stop] == [start, stop];
      AfterAppend(After(stage, f1), [start], [stop]);
      LeadsThen(b, stage, b1, f1, b2, [start, stop]);
    }
  }

  lemma ToolFramesAfter(n: nat, id: string, name: string, json: string)
    ensures After(Between(n), ToolFrames(n, id, name, json)) == Between(n + 1)
  {
    var f := ToolFrames(n, id, name, json);
    assert f[..2] == [f[0], f[1]] && f[..2][..1] == [f[0]] && f[..1][..0] == [];
    AfterOne(Between(n), f[0]);
  }

  lemma EmitToolLeads(env: Env, s: State, stage: Stage, id: string, name: string, input: Fields)
    requires InStep(s.blocks, stage) && !s.blocks.thinkingOpen && !s.blocks.textOpen
    ensures var (s', f) := EmitTool(env, s, id, name, input);
      Leads(s.blocks, stage, s'.blocks, f) && !s'.blocks.thinkingOpen && !s'.blocks.textOpen
  {
    ToolFramesAfter(s.blocks.current, if id == "" then env.toolId(s.drawn) else id, name, env.dump(input));
  }

  lemma TextOpenAfter(h: ThinkingHandling, evs: seq<KiroEvent>, ev: KiroEvent)
    ensures evs + [ev] != [] && (evs + [ev])[..|evs + [ev]| - 1] == evs && (evs + [ev])[|evs + [ev]| - 1] == ev
  {
    assert (evs + [ev])[..|evs|] == evs;
  }

  lemma ToolUseLeads(env: Env, s: State, stage: Stage, tool: ToolUseData)
    requires InStep(s.blocks, stage)
    ensures var (s', f) := HandleToolUse(env, s, tool); Leads(s.blocks, stage, s'.blocks, f) && !s'.blocks.textOpen
  {
    var (b1, f1) := CloseBoth(s.blocks);
    CloseBothLeads(s.blocks, stage);
    var s1 := s.(blocks := b1);
    EmitToolLeads(env, s1, After(stage, f1), tool.id, tool.name, tool.input);
    var (s2, f2) := EmitTool(env, s1, tool.id, tool.name, tool.input);
    LeadsThen(s.blocks, stage, b1, f1, s2.blocks, f2);
  }

  /** One event in a safe place keeps the client in step, and the text block open as the events say. */
  lemma HandleLeads(env: Env, h: ThinkingHandling, s: State, stage: Stage, evs: seq<KiroEvent>, ev: KiroEvent)
    requires InStep(s.blocks, stage) && s.blocks.textOpen == TextOpen(h, evs)
    requires h == AsReasoningContent && ev.Thinking? ==> !s.blocks.textOpen
    ensures var (s', f) := Handle(env, h, s, ev);
      Leads(s.blocks, stage, s'.blocks, f) && s'.blocks.textOpen == TextOpen(h, evs + [ev])
  {
    TextOpenAfter(h, evs, ev);
    match ev
    case Content(text) => WriteTextLeads(s.blocks, stage, text);
    case Thinking(text) => ThinkingLeads(env, h, s.blocks, stage, text);
    case NativeThinking(text) => NativeLeads(env, h, s.blocks, stage, text);
    case Signature(signature) => SignatureLeads(h, s.blocks, stage, signature);
    case Redacted(data) => RedactedLeads(h, s.blocks, stage, data);
    case ToolUse(tool) => ToolUseLeads(env, s, stage, tool);
    case _ =>
  }

  lemma SafePrefix(h: ThinkingHandling, evs: seq<KiroEvent>)
    requires evs != []
    ensures var n := |evs| - 1;
      SafeOrder(h, evs) <==>
        SafeOrder(h, evs[..n]) && (h == AsReasoningContent && evs[n].Thinking? ==> !TextOpen(h, evs[..n]))
  {
    var n := |evs| - 1;
    forall i | 0 <= i <= n ensures evs[..n][..i] == evs[..i] {}
  }

  /** The client agrees with the formatter's state, and the text block is open as the events say. */
  predicate Agrees(h: ThinkingHandling, evs: seq<KiroEvent>, s: State, f: seq<Frame>)
  {
    InStep(s.blocks, After(Between(0), f)) && s.blocks.textOpen == TextOpen(h, evs)
  }

  lemma SafeEvent(env: Env, h: ThinkingHandling, front: seq<KiroEvent>, last: KiroEvent, s: State, f: seq<Frame>)
    requires Agrees(h, front, s, f)
    requires h == AsReasoningContent && last.Thinking? ==> !TextOpen(h, front)
    ensures var (s', f') := Handle(env, h, s, last); Agrees(h, front + [last], s', f + f')
  {
    var (s', f') := Handle(env, h, s, last);
    HandleLeads(env, h, s, After(Between(0), f), front, last);
    AfterAppend(Between(0), f, f');
  }

  lemma UnsafeEvent(env: Env, front: seq<KiroEvent>, last: KiroEvent, s: State, f: seq<Frame>)
    requires Agrees(AsReasoningContent, front, s, f) && last.Thinking? && TextOpen(AsReasoningContent, front)
    ensures var (s', f') := Handle(env, AsReasoningContent, s, last); After(Between(0), f + f') == Violated
  {
    Clash(env, s.blocks, After(Between(0), f), last.text);
    AfterAppend(Between(0), f, Handle(env, AsReasoningContent, s, last).1);
  }

  lemma StaysViolated(f: seq<Frame>, f': seq<Frame>)
    requires After(Between(0), f) == Violated
    ensures After(Between(0), f + f') == Violated
  {
    AfterAppend(Between(0), f, f');
    ViolatedForever(f');
  }

  /** After events in a safe order the client is in step; after any others it has seen a violation. */
  lemma {:induction false} ClientAfter(env: Env, h: ThinkingHandling, evs: seq<KiroEvent>)
    ensures var (s, f) := HandleAll(env, h, evs);
      if SafeOrder(h, evs) then Agrees(h, evs, s, f) else After(Between(0), f) == Violated
  {
    if evs != [] {
      var front, last := evs[..|evs| - 1], evs[|evs| - 1];
      ClientAfter(env, h, front);
      SafePrefix(h, evs);
      var (s, f) := HandleAll(env, h, front);
      assert evs == front + [last];
      if SafeOrder(h, evs) {
        SafeEvent(env, h, front, last, s, f);
      } else if SafeOrder(h, front) {
        UnsafeEvent(env, front, last, s, f);
      } else {
        StaysViolated(f, Handle(env, h, s, last).1);
      }
    }
  }

  /** A thinking block opened while text is open reuses the text block's index. */
  lemma Clash(env: Env, b: Blocks, stage: Stage, text: string)
    requires InStep(b, stage) && b.textOpen
    ensures var (b', f) := HandleThinking(env, AsReasoningContent, b, text);
      b'.thinkingAt == b'.textAt && After(stage, f) == Violated
  {
    var start := [BlockStart(b.current, ThinkingBlock(env.ownSignature))];
    var rest := if text != "" then [BlockDelta(b.current, ThinkingDelta(text))] else [];
    AfterOne(stage, start[0]);
    AfterAppend(stage, start, rest);
    ViolatedForever(rest);
  }

  lemma {:induction false} BracketsLead(env: Env, s: State, stage: Stage, calls: seq<BracketCall>)
    requires InStep(s.blocks, stage) && !s.blocks.thinkingOpen && !s.blocks.textOpen
    ensures var (s', f) := EmitBrackets(env, s, calls);
      Leads(s.blocks, stage, s'.blocks, f) && !s'.blocks.thinkingOpen && !s'.blocks.textOpen
  {
    if calls != [] {
      var n := |calls| - 1;
      BracketsLead(env, s, stage, calls[..n]);
      var (s1, f1) := EmitBrackets(env, s, calls[..n]);
      EmitToolLeads(env, s1, After(stage, f1), calls[n].id, calls[n].name, calls[n].input);
      var (s2, f2) := EmitTool(env, s1, calls[n].id, calls[n].name, calls[n].input);
      LeadsThen(s.blocks, stage, s1.blocks, f1, s2.blocks, f2);
    }
  }

  lemma Closing(stage: Stage, f: seq<Frame>, reason: string)
    ensures After(stage, f + [MessageDelta(reason), MessageStop]) ==
      match After(stage, f) case Between(_) => Done case _ => Violated
  {
    var tail := [MessageDelta(reason), MessageStop];
    AfterAppend(stage, f, tail);
    assert tail[..1] == [tail[0]];
    AfterOne(After(stage, f), tail[0]);
  }

  lemma BracketTailLeads(env: Env, s: State, stage: Stage)
    requires InStep(s.blocks, stage)
    ensures Leads(s.blocks, stage, BracketTail(env, s).0.blocks, BracketTail(env, s).1)
  {
    var calls := env.brackets(s.fullContent);
    if calls != [] {
      var (b1, f1) := CloseBoth(s.blocks);
      CloseBothLeads(s.blocks, stage);
      var s1 := s.(blocks := b1);
      BracketsLead(env, s1, After(stage, f1), calls);
      var (s2, f2) := EmitBrackets(env, s1, calls);
      LeadsThen(s.blocks, stage, b1, f1, s2.blocks, f2);
    }
  }

  lemma FinishLeads(env: Env, s: State, stage: Stage)
    requires InStep(s.blocks, stage)
    ensures After(stage, Finish(env, s).1) == Done
  {
    BracketTailLeads(env, s, stage);
    var (s1, f1) := BracketTail(env, s);
    CloseBothLeads(s1.blocks, After(stage, f1));
    var (b2, f2) := CloseBoth(s1.blocks);
    LeadsThen(s.blocks, stage, s1.blocks, f1, b2, f2);
    Closing(stage, f1 + f2, StopReason(s1.(blocks := b2)));
  }

  /** The stream is well-formed if and only if no thinking event meets an open text block. */
  lemma WellFormedIff(env: Env, h: ThinkingHandling, evs: seq<KiroEvent>)
    ensures WellFormed(Frames(env, h, evs)) <==> SafeOrder(h, evs)
  {
    var (s, f) := HandleAll(env, h, evs);
    var last := Finish(env, s).1;
    ClientAfter(env, h, evs);
    AfterOne(Fresh, MessageStart);
    AfterAppend(Fresh, [MessageStart], f);
    AfterAppend(Fresh, [MessageStart] + f, last);
    if SafeOrder(h, evs) {
      FinishLeads(env, s, After(Between(0), f));
    } else {
      ViolatedForever(last);
    }
  }

  /** Text can only be open after a content event, unless thinking is itself written as text. */
  lemma {:induction false} OpenTextSawContent(evs: seq<KiroEvent>)
    ensures TextOpen(AsReasoningContent, evs) ==> HasContent(evs)
  {
    if evs != [] {
      var n := |evs| - 1;
      OpenTextSawContent(evs[..n]);
      if evs[n].Content? {
        assert HasContent(evs);
      } else if HasContent(evs[..n]) {
        var i :| 0 <= i < n && evs[..n][i].Content?;
        assert evs[i].Content?;
      }
    }
  }

  /** Thinking before content is enough, however native thinking, tools and the rest interleave. */
  lemma ThinkingFirstIsSafe(h: ThinkingHandling, evs: seq<KiroEvent>)
    requires ThinkingFirst(evs)
    ensures SafeOrder(h, evs)
  {
    forall i | 0 <= i < |evs| && evs[i].Thinking? ensures !TextOpen(AsReasoningContent, evs[..i]) {
      forall j | 0 <= j < i ensures !evs[..i][j].Content? {
        assert !evs[j].Content?;
      }
      OpenTextSawContent(evs[..i]);
    }
  }
}
