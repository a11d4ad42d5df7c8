/** Non-streaming equals streaming: what the collector rebuilds from the bytes of a response is what
    the events said, for every event list the pipeline can produce. */
module NonStreaming {
  import opened Text
  import opened Pipeline
  import opened Protocol
  import opened Wire
  import opened Collect
  import F = Formatter

  // ----- what a client sees in a list of frames -----

  datatype Tool = Tool(id: string, name: string, json: string)

  /** The contents of a message: the kinds of its blocks in order, all text, all thinking, the signature
      of each thinking block, the tool calls and the redacted blocks. */
  datatype Seen = Seen(
    types: seq<BlockType>, text: string, thinking: string, signatures: seq<string>, tools: seq<Tool>,
    redacted: seq<string>)

  const NONE := Seen([], "", "", [], [], [])

  function SeeBlock(s: Seen, kind: BlockKind): Seen
  {
    var t := s.(types := s.types + [KindIn(kind).blockType]);
    match kind
    case TextBlock => t
    case ThinkingBlock(signature) => t.(signatures := s.signatures + [signature])
    case ToolBlock(id, name) => t.(tools := s.tools + [Tool(id, name, "")])
    case RedactedBlock(data) => t.(redacted := s.redacted + [data])
  }

  function SeeDelta(s: Seen, d: Delta): Seen
  {
    match d
    case TextDelta(t) => s.(text := s.text + t)
    case ThinkingDelta(t) => s.(thinking := s.thinking + t)
    case SignatureDelta(sig) =>
      if s.signatures == [] then s else s.(signatures := s.signatures[|s.signatures| - 1 := sig])
    case JsonDelta(j) =>
      if s.tools == [] then s
      else
        var n := |s.tools| - 1;
        s.(tools := s.tools[n := s.tools[n].(json := s.tools[n].json + j)])
  }

  function See(s: Seen, f: Frame): Seen
  {
    match f
    case BlockStart(_, kind) => SeeBlock(s, kind)
    case BlockDelta(_, d) => SeeDelta(s, d)
    case _ => s
  }

  function SeeAll(s: Seen, frames: seq<Frame>): Seen
  {
    if frames == [] then s else See(SeeAll(s, frames[..|frames| - 1]), frames[|frames| - 1])
  }

  lemma {:induction false} SeeAppend(s: Seen, a: seq<Frame>, b: seq<Frame>)
    ensures SeeAll(s, a + b) == SeeAll(SeeAll(s, a), b)
  {
    if b == [] {
      assert a + b == a;
    } else {
      var n := |b| - 1;
      assert (a + b)[..|a| + n] == a + b[..n] && (a + b)[|a| + n] == b[n];
      SeeAppend(s, a, b[..n]);
    }
  }

  lemma SeeOne(s: Seen, f: Frame)
    ensures SeeAll(s, [f]) == See(s, f)
  {
    assert [f][..0] == [];
  }

  // ----- the collector sees the same -----

  function SeeAcc(s: Seen, a: Acc): Seen
  {
    var t := s.(types := s.types + [a.blockType]);
    match a.blockType
    case TextType => t.(text := s.text + a.text)
    case ThinkingType => t.(thinking := s.thinking + a.text, signatures := s.signatures + [a.signature])
    case ToolType => t.(tools := s.tools + [Tool(a.id, a.name, a.partial)])
    case RedactedType => t.(redacted := s.redacted + [a.data])
    case OtherType => t
  }

  function SeenIn(order: seq<Acc>): Seen
  {
    if order == [] then NONE else SeeAcc(SeenIn(order[..|order| - 1]), order[|order| - 1])
  }

  /** The collector's state after a list of frames. */
  function CollectFrames(meta: Meta, frames: seq<Frame>): (c: Collected)
    ensures Routed(c)
  {
    if frames == [] then NOTHING
    else Take(CollectFrames(meta, frames[..|frames| - 1]), FrameIn(meta, frames[|frames| - 1]))
  }

  /** Block `i` is at position `i`. */
  ghost predicate Identity(m: map<nat, nat>, n: nat)
  {
    forall i: nat :: (i in m <==> i < n) && (i in m ==> m[i] == i)
  }

  /** The accumulators agree with the client's stage. */
  ghost predicate Mirrors(meta: Meta, c: Collected, stage: Stage)
  {
    && Routed(c)
    && (stage != Fresh ==> c.messageId == meta.messageId)
    && match stage
       case Fresh => c.order == [] && Identity(c.byIndex, 0)
       case Between(n) => |c.order| == n && Identity(c.byIndex, n)
       case Inside(n, kind) =>
         |c.order| == n + 1 && Identity(c.byIndex, n + 1) && c.order[n].blockType == KindIn(kind).blockType
       case _ => true
  }

  lemma SeenInSnoc(order: seq<Acc>, a: Acc)
    ensures SeenIn(order + [a]) == SeeAcc(SeenIn(order), a)
  {
    assert (order + [a])[..|order|] == order;
  }

  lemma StartSees(meta: Meta, c: Collected, n: nat, kind: BlockKind)
    requires Mirrors(meta, c, Between(n))
    ensures var c' := Take(c, StartIn(n, KindIn(kind)));
      Mirrors(meta, c', Inside(n, kind)) && SeenIn(c'.order) == SeeBlock(SeenIn(c.order), kind)
  {
    SeenInSnoc(c.order, FreshAcc(KindIn(kind)));
  }

  /** A delta that fits the last block is seen like one that fits the stream. */
  lemma AddSees(s: Seen, a: Acc, kind: BlockKind, d: Delta)
    requires Fits(kind, d) && a.blockType == KindIn(kind).blockType
    ensures SeeAcc(s, Add(a, d)) == SeeDelta(SeeAcc(s, a), d)
  {
    match d
    case TextDelta(t) => Associate(s.text, a.text, t);
    case ThinkingDelta(t) => Associate(s.thinking, a.text, t);
    case SignatureDelta(sig) => assert (s.signatures + [a.signature])[|s.signatures| := sig] == s.signatures + [sig];
    case JsonDelta(j) =>
      var old', new' := Tool(a.id, a.name, a.partial), Tool(a.id, a.name, a.partial + j);
      assert (s.tools + [old'])[|s.tools| := new'] == s.tools + [new'];
  }

  lemma DeltaSees(meta: Meta, c: Collected, n: nat, kind: BlockKind, d: Delta)
    requires Mirrors(meta, c, Inside(n, kind)) && Fits(kind, d)
    ensures var c' := Take(c, DeltaIn(n, d));
      Mirrors(meta, c', Inside(n, kind)) && SeenIn(c'.order) == SeeDelta(SeenIn(c.order), d)
  {
    var front, last := c.order[..n], c.order[n];
    assert c.order == front + [last] && c.order[n := Add(last, d)] == front + [Add(last, d)];
    SeenInSnoc(front, last);
    SeenInSnoc(front, Add(last, d));
    AddSees(SeenIn(front), last, kind, d);
  }

  lemma TakeSees(meta: Meta, c: Collected, stage: Stage, f: Frame)
    requires Mirrors(meta, c, stage) && Accept(stage, f) != Violated
    ensures var c' := Take(c, FrameIn(meta, f));
      Mirrors(meta, c', Accept(stage, f)) && SeenIn(c'.order) == See(SeenIn(c.order), f)
  {
    match f
    case BlockStart(i, kind) => StartSees(meta, c, i, kind);
    case BlockDelta(i, d) => DeltaSees(meta, c, i, stage.kind, d);
    case _ =>
  }

  /** On every stream the protocol accepts, the accumulators hold what the frames say. */
  lemma {:induction false} CollectorSees(meta: Meta, frames: seq<Frame>)
    requires After(Fresh, frames) != Violated
    ensures var c := CollectFrames(meta, frames);
      Mirrors(meta, c, After(Fresh, frames)) && SeenIn(c.order) == SeeAll(NONE, frames)
  {
    if frames != [] {
      var front, f := frames[..|frames| - 1], frames[|frames| - 1];
      CollectorSees(meta, front);
      TakeSees(meta, CollectFrames(meta, front), After(Fresh, front), f);
    }
  }

  /** The blocks read off the frames in order, without looking at indices: a start adds a block, a delta
      goes to the last one. */
  function ReadOff(frames: seq<Frame>): seq<Acc>
  {
    if frames == [] then []
    else
      var n := |frames| - 1;
      var before := ReadOff(frames[..n]);
      match frames[n]
      case BlockStart(_, kind) => before + [FreshAcc(KindIn(kind))]
      case BlockDelta(_, d) =>
        if before == [] then [] else before[|before| - 1 := Add(before[|before| - 1], d)]
      case _ => before
  }

  lemma TakeIsLast(meta: Meta, c: Collected, stage: Stage, f: Frame)
    requires Mirrors(meta, c, stage) && Accept(stage, f) != Violated
    ensures Take(c, FrameIn(meta, f)).order ==
      match f
      case BlockStart(_, kind) => c.order + [FreshAcc(KindIn(kind))]
      case BlockDelta(_, d) =>
        if c.order == [] then [] else c.order[|c.order| - 1 := Add(c.order[|c.order| - 1], d)]
      case _ => c.order
  {
  }

  /** On every stream the protocol accepts, the blocks routed by index are those read off in order. */
  lemma {:induction false} CollectorReadsOff(meta: Meta, frames: seq<Frame>)
    requires After(Fresh, frames) != Violated
    ensures CollectFrames(meta, frames).order == ReadOff(frames)
  {
    if frames != [] {
      var front, f := frames[..|frames| - 1], frames[|frames| - 1];
      CollectorReadsOff(meta, front);
      CollectorSees(meta, front);
      TakeIsLast(meta, CollectFrames(meta, front), After(Fresh, front), f);
    }
  }

  // ----- what the events say -----

  /** Text is content; thinking too where it is written as text. */
  function TextOf(h: F.ThinkingHandling, ev: KiroEvent): string
  {
    match ev
    case Content(t) => t
    case Thinking(t) => if h == F.IncludeAsText then t else ""
    case NativeThinking(t) => if h == F.IncludeAsText then t else ""
    case _ => ""
  }

  function ThinkingOf(h: F.ThinkingHandling, ev: KiroEvent): string
  {
    match ev
    case Thinking(t) => if h == F.AsReasoningContent then t else ""
    case NativeThinking(t) => if h == F.AsReasoningContent then t else ""
    case _ => ""
  }

  function RedactedOf(h: F.ThinkingHandling, ev: KiroEvent): seq<string>
  {
    if ev.Redacted? && h == F.AsReasoningContent then [ev.data] else []
  }

  function ToolOf(ev: KiroEvent): seq<F.BracketCall>
  {
    if ev.ToolUse? then [F.BracketCall(ev.tool.id, ev.tool.name, ev.tool.input)] else []
  }

  function ShownText(h: F.ThinkingHandling, evs: seq<KiroEvent>): string
  {
    if evs == [] then "" else ShownText(h, evs[..|evs| - 1]) + TextOf(h, evs[|evs| - 1])
  }

  function ShownThinking(h: F.ThinkingHandling, evs: seq<KiroEvent>): string
  {
    if evs == [] then "" else ShownThinking(h, evs[..|evs| - 1]) + ThinkingOf(h, evs[|evs| - 1])
  }

  function ShownRedacted(h: F.ThinkingHandling, evs: seq<KiroEvent>): seq<string>
  {
    if evs == [] then [] else ShownRedacted(h, evs[..|evs| - 1]) + RedactedOf(h, evs[|evs| - 1])
  }

  /** The tool calls among the events, in order. */
  function EventTools(evs: seq<KiroEvent>): seq<F.BracketCall>
  {
    if evs == [] then [] else EventTools(evs[..|evs| - 1]) + ToolOf(evs[|evs| - 1])
  }

  /** How many calls need a generated id. */
  function Empties(calls: seq<F.BracketCall>): nat
  {
    if calls == [] then 0
    else Empties(calls[..|calls| - 1]) + if calls[|calls| - 1].id == "" then 1 else 0
  }

  /** The calls as the client sees them: the k-th empty id becomes the k-th generated one. */
  function Named(env: F.Env, calls: seq<F.BracketCall>): seq<Tool>
  {
    if calls == [] then []
    else
      var n := |calls| - 1;
      var id := if calls[n].id == "" then env.toolId(Empties(calls[..n])) else calls[n].id;
      Named(env, calls[..n]) + [Tool(id, calls[n].name, env.dump(calls[n].input))]
  }

  /** All content events, whatever the handling: what the bracket search and the truncation test look at. */
  function ContentText(evs: seq<KiroEvent>): string { ShownText(F.Strip, evs) }

  predicate SawRefusal(evs: seq<KiroEvent>) { exists i :: 0 <= i < |evs| && evs[i].Refusal? }

  predicate SawContextUsage(evs: seq<KiroEvent>) { exists i :: 0 <= i < |evs| && evs[i].ContextUsage? }

  /** The stop reason told from the events. */
  function ExpectedStop(env: F.Env, evs: seq<KiroEvent>): string
  {
    var tools := EventTools(evs) + env.brackets(ContentText(evs));
    if SawRefusal(evs) then "refusal"
    else if !SawContextUsage(evs) && ContentText(evs) != "" && tools == [] then "max_tokens"
    else if tools != [] then "tool_use"
    else "end_turn"
  }

  // ----- the formatter shows what the events say -----

  /** The parts of what is seen that the events determine. */
  datatype Shown = Shown(text: string, thinking: string, tools: seq<Tool>, redacted: seq<string>)

  function View(s: Seen): Shown { Shown(s.text, s.thinking, s.tools, s.redacted) }

  /** Frames that open, sign or close blocks, and show nothing. */
  predicate Quiet(f: Frame)
  {
    match f
    case BlockStart(_, kind) => kind.TextBlock? || kind.ThinkingBlock?
    case BlockDelta(_, d) => d.SignatureDelta?
    case _ => true
  }

  predicate AllQuiet(frames: seq<Frame>) { forall i :: 0 <= i < |frames| ==> Quiet(frames[i]) }

  /** Closing blocks and opening text or thinking is quiet. */
  lemma BlockChangesQuiet(b: F.Blocks, signature: string)
    ensures AllQuiet(F.CloseThinking(b).1) && AllQuiet(F.CloseText(b).1) && AllQuiet(F.CloseBoth(b).1)
    ensures AllQuiet(F.OpenText(b).1) && AllQuiet(F.OpenThinking(b, signature).1) && AllQuiet(F.OpenNative(b).1)
  {
  }

  lemma {:induction false} QuietShowsNothing(s: Seen, frames: seq<Frame>)
    requires AllQuiet(frames)
    ensures View(SeeAll(s, frames)) == View(s)
  {
    if frames != [] { QuietShowsNothing(s, frames[..|frames| - 1]); }
  }

  lemma QuietThen(s: Seen, quiet: seq<Frame>, f: Frame)
    requires AllQuiet(quiet)
    ensures View(SeeAll(s, quiet + [f])) == View(See(SeeAll(s, quiet), f)) && View(SeeAll(s, quiet)) == View(s)
  {
    QuietShowsNothing(s, quiet);
    assert (quiet + [f])[..|quiet|] == quiet;
  }

  lemma TextShows(s: Seen, b: F.Blocks, text: string)
    ensures View(SeeAll(s, F.WriteText(b, text).1)) == View(s).(text := s.text + text)
  {
    var (b1, f1) := F.CloseThinking(b);
    var (b2, f2) := F.OpenText(b1);
    BlockChangesQuiet(b, "");
    BlockChangesQuiet(b1, "");
    QuietThen(s, f1 + f2, BlockDelta(b2.textAt, TextDelta(text)));
    if text == "" { Associate(f1 + f2, [], []); Associate(s.text, "", ""); }
  }

  lemma ReasoningShows(env: F.Env, s: Seen, b: F.Blocks, text: string)
    ensures View(SeeAll(s, F.HandleThinking(env, F.AsReasoningContent, b, text).1)) ==
      View(s).(thinking := s.thinking + text)
  {
    var (b1, f1) := F.OpenThinking(b, env.ownSignature);
    BlockChangesQuiet(b, env.ownSignature);
    QuietThen(s, f1, BlockDelta(b1.thinkingAt, ThinkingDelta(text)));
    Associate(f1, [], []);
    Associate(s.thinking, "", "");
  }

  lemma ThinkingShows(env: F.Env, h: F.ThinkingHandling, s: Seen, b: F.Blocks, text: string)
    ensures View(SeeAll(s, F.HandleThinking(env, h, b, text).1)) ==
      View(s).(text := s.text + TextOf(h, Thinking(text)), thinking := s.thinking + ThinkingOf(h, Thinking(text)))
  {
    Associate(s.thinking, "", "");
    Associate(s.text, "", "");
    match h
    case AsReasoningContent => ReasoningShows(env, s, b, text);
    case IncludeAsText => TextShows(s, b, text);
    case Strip =>
  }

  lemma NativeShows(env: F.Env, h: F.ThinkingHandling, s: Seen, b: F.Blocks, text: string)
    ensures View(SeeAll(s, F.HandleNative(env, h, b, text).1)) ==
      View(s).(text := s.text + TextOf(h, NativeThinking(text)),
               thinking := s.thinking + ThinkingOf(h, NativeThinking(text)))
  {
    if h == F.AsReasoningContent {
      Associate(s.text, "", "");
      var (b1, f1) := F.OpenNative(b);
      BlockChangesQuiet(b, "");
      QuietThen(s, f1, BlockDelta(b1.thinkingAt, ThinkingDelta(text)));
    } else {
      ThinkingShows(env, h, s, b, text);
    }
  }

  lemma SignatureShows(h: F.ThinkingHandling, s: Seen, b: F.Blocks, signature: string)
    ensures View(SeeAll(s, F.HandleSignature(h, b, signature).1)) == View(s)
  {
    if h == F.AsReasoningContent {
      var (b1, f1) := F.OpenNative(b);
      BlockChangesQuiet(b, "");
      QuietShowsNothing(s, f1 + [BlockDelta(b1.thinkingAt, SignatureDelta(signature)), BlockStop(b1.thinkingAt)]);
    }
  }

  lemma RedactedShows(h: F.ThinkingHandling, s: Seen, b: F.Blocks, data: string)
    ensures View(SeeAll(s, F.HandleRedacted(h, b, data).1)) ==
      View(s).(redacted := s.redacted + RedactedOf(h, Redacted(data)))
  {
    if h == F.AsReasoningContent {
      var (b1, f1) := F.CloseBoth(b);
      var start, stop := BlockStart(b1.current, RedactedBlock(data)), BlockStop(b1.current);
      BlockChangesQuiet(b, "");
      QuietThen(s, f1, start);
      assert f1 + [start, stop] == (f1 + [start]) + [stop];
      SeeAppend(s, f1 + [start], [stop]);
      SeeOne(SeeAll(s, f1 + [start]), stop);
    } else {
      Associate(s.redacted, [], []);
    }
  }

  lemma ToolShows(s: Seen, i: nat, id: string, name: string, json: string)
    ensures View(SeeAll(s, F.ToolFrames(i, id, name, json))) == View(s).(tools := s.tools + [Tool(id, name, json)])
  {
    var f := F.ToolFrames(i, id, name, json);
    assert f == ([f[0]] + [f[1]]) + [f[2]];
    SeeAppend(s, [f[0]] + [f[1]], [f[2]]);
    SeeAppend(s, [f[0]], [f[1]]);
    SeeOne(s, f[0]);
    SeeOne(See(s, f[0]), f[1]);
    SeeOne(See(See(s, f[0]), f[1]), f[2]);
    Associate(json, "", "");
    var n := |s.tools|;
    assert (s.tools + [Tool(id, name, "")])[n := Tool(id, name, json)] == s.tools + [Tool(id, name, json)];
  }

  lemma NamedSnoc(env: F.Env, calls: seq<F.BracketCall>, call: F.BracketCall)
    ensures Named(env, calls + [call]) ==
      Named(env, calls) +
      [Tool(if call.id == "" then env.toolId(Empties(calls)) else call.id, call.name, env.dump(call.input))]
    ensures Empties(calls + [call]) == Empties(calls) + if call.id == "" then 1 else 0
  {
    assert (calls + [call])[..|calls|] == calls;
  }

  /** A tool block shows the next of the named calls. */
  lemma EmitToolShows(env: F.Env, s: Seen, st: F.State, before: seq<F.BracketCall>, call: F.BracketCall)
    requires st.drawn == Empties(before) && s.tools == Named(env, before)
    ensures var (st', f) := F.EmitTool(env, st, call.id, call.name, call.input);
      && View(SeeAll(s, f)) == View(s).(tools := Named(env, before + [call]))
      && st'.drawn == Empties(before + [call])
  {
    NamedSnoc(env, before, call);
    var id := if call.id == "" then env.toolId(st.drawn) else call.id;
    ToolShows(s, st.blocks.current, id, call.name, env.dump(call.input));
  }

  lemma ToolUseShows(env: F.Env, s: Seen, st: F.State, before: seq<F.BracketCall>, tool: ToolUseData)
    requires st.drawn == Empties(before) && s.tools == Named(env, before)
    ensures var (st', f) := F.HandleToolUse(env, st, tool);
      var after := before + [F.BracketCall(tool.id, tool.name, tool.input)];
      View(SeeAll(s, f)) == View(s).(tools := Named(env, after)) && st'.drawn == Empties(after)
  {
    var (b1, f1) := F.CloseBoth(st.blocks);
    var st1 := st.(blocks := b1);
    BlockChangesQuiet(st.blocks, "");
    QuietShowsNothing(s, f1);
    EmitToolShows(env, SeeAll(s, f1), st1, before, F.BracketCall(tool.id, tool.name, tool.input));
    SeeAppend(s, f1, F.EmitTool(env, st1, tool.id, tool.name, tool.input).1);
  }

  /** The formatter's state and what it has shown agree with the events. */
  predicate Tells(env: F.Env, h: F.ThinkingHandling, evs: seq<KiroEvent>, st: F.State, v: Shown)
  {
    && v == Shown(ShownText(h, evs), ShownThinking(h, evs), Named(env, EventTools(evs)), ShownRedacted(h, evs))
    && st.fullContent == ContentText(evs) && st.drawn == Empties(EventTools(evs))
    && st.toolBlocks == |EventTools(evs)|
    && st.refused == SawRefusal(evs) && st.contextSeen == SawContextUsage(evs)
  }

  lemma SawSnoc(evs: seq<KiroEvent>, ev: KiroEvent)
    ensures SawRefusal(evs + [ev]) <==> SawRefusal(evs) || ev.Refusal?
    ensures SawContextUsage(evs + [ev]) <==> SawContextUsage(evs) || ev.ContextUsage?
  {
    var all := evs + [ev];
    assert all[|evs|] == ev;
    assert forall i :: 0 <= i < |evs| ==> all[i] == evs[i];
  }

  lemma Unchanged(v: Shown, tools: seq<F.BracketCall>)
    ensures v.text + "" == v.text && v.thinking + "" == v.thinking
    ensures v.redacted + [] == v.redacted && tools + [] == tools
  {
  }

  /** What an event that is no tool call adds to what is shown. */
  lemma BlockEventShows(env: F.Env, h: F.ThinkingHandling, st: F.State, ev: KiroEvent, s: Seen)
    requires !ev.ToolUse?
    ensures var (st', f) := F.Handle(env, h, st, ev);
      && View(SeeAll(s, f)) == Shown(s.text + TextOf(h, ev), s.thinking + ThinkingOf(h, ev), s.tools,
                                     s.redacted + RedactedOf(h, ev))
      && st'.drawn == st.drawn
  {
    Unchanged(View(s), []);
    match ev
    case Content(text) => TextShows(s, st.blocks, text);
    case Thinking(text) => ThinkingShows(env, h, s, st.blocks, text);
    case NativeThinking(text) => NativeShows(env, h, s, st.blocks, text);
    case Signature(sig) => SignatureShows(h, s, st.blocks, sig);
    case Redacted(data) => RedactedShows(h, s, st.blocks, data);
    case _ =>
  }

  /** What one event adds to what is shown. */
  lemma HandleShows(env: F.Env, h: F.ThinkingHandling, st: F.State, ev: KiroEvent, s: Seen, before: seq<F.BracketCall>)
    requires st.drawn == Empties(before) && s.tools == Named(env, before)
    ensures var (st', f) := F.Handle(env, h, st, ev);
      && View(SeeAll(s, f)) == Shown(s.text + TextOf(h, ev), s.thinking + ThinkingOf(h, ev),
                                     Named(env, before + ToolOf(ev)), s.redacted + RedactedOf(h, ev))
      && st'.drawn == Empties(before + ToolOf(ev))
  {
    Unchanged(View(s), before);
    if ev.ToolUse? {
      ToolUseShows(env, s, st, before, ev.tool);
    } else {
      BlockEventShows(env, h, st, ev, s);
    }
  }

  /** The other fields an event changes. */
  lemma HandleNotes(env: F.Env, h: F.ThinkingHandling, st: F.State, ev: KiroEvent)
    ensures var st' := F.Handle(env, h, st, ev).0;
      && st'.fullContent == st.fullContent + TextOf(F.Strip, ev)
      && st'.toolBlocks == st.toolBlocks + |ToolOf(ev)|
      && st'.refused == (st.refused || ev.Refusal?) && st'.contextSeen == (st.contextSeen || ev.ContextUsage?)
  {
    Associate(st.fullContent, "", "");
  }

  /** One event more. */
  lemma HandleTells(env: F.Env, h: F.ThinkingHandling, evs: seq<KiroEvent>, ev: KiroEvent, st: F.State, s: Seen)
    requires Tells(env, h, evs, st, View(s))
    ensures var (st', f) := F.Handle(env, h, st, ev); Tells(env, h, evs + [ev], st', View(SeeAll(s, f)))
  {
    var all := evs + [ev];
    assert all[..|all| - 1] == evs && all[|all| - 1] == ev;
    SawSnoc(evs, ev);
    HandleShows(env, h, st, ev, s, EventTools(evs));
    HandleNotes(env, h, st, ev);
  }

  /** The formatter's state and what its frames show are what the events say. */
  ghost predicate AllTell(env: F.Env, h: F.ThinkingHandling, evs: seq<KiroEvent>)
  {
    var (st, f) := F.HandleAll(env, h, evs);
    Tells(env, h, evs, st, View(SeeAll(NONE, f)))
  }

  lemma HandleAllSnoc(env: F.Env, h: F.ThinkingHandling, front: seq<KiroEvent>, last: KiroEvent)
    ensures var (st, f) := F.HandleAll(env, h, front); var (st', f') := F.Handle(env, h, st, last);
      F.HandleAll(env, h, front + [last]) == (st', f + f')
  {
    assert (front + [last])[..|front|] == front;
  }

  lemma AllTellsNext(env: F.Env, h: F.ThinkingHandling, front: seq<KiroEvent>, last: KiroEvent)
    requires AllTell(env, h, front)
    ensures AllTell(env, h, front + [last])
  {
    var (st, f) := F.HandleAll(env, h, front);
    HandleTells(env, h, front, last, st, SeeAll(NONE, f));
    SeeAppend(NONE, f, F.Handle(env, h, st, last).1);
    HandleAllSnoc(env, h, front, last);
  }

  lemma {:induction false} HandleAllTells(env: F.Env, h: F.ThinkingHandling, evs: seq<KiroEvent>)
    ensures AllTell(env, h, evs)
    decreases |evs|
  {
    if evs != [] {
      var front, last := evs[..|evs| - 1], evs[|evs| - 1];
      assert evs == front + [last];
      HandleAllTells(env, h, front);
      AllTellsNext(env, h, front, last);
    }
  }

  /** The truncated tool calls among the events, with the ids the client sees. */
  function TruncatedOf(env: F.Env, evs: seq<KiroEvent>): seq<F.Truncated>
  {
    if evs == [] then []
    else
      var front, last := evs[..|evs| - 1], evs[|evs| - 1];
      TruncatedOf(env, front) +
      if last.ToolUse? && last.tool.truncation.Some? then
        [F.Truncated(if last.tool.id == "" then env.toolId(Empties(EventTools(front))) else last.tool.id,
                     last.tool.name, last.tool.truncation.value)]
      else []
  }

  /** The formatter records exactly the truncated calls, under the ids it sent. */
  lemma {:induction false} TruncationsRecorded(env: F.Env, h: F.ThinkingHandling, evs: seq<KiroEvent>)
    ensures F.HandleAll(env, h, evs).0.truncated == TruncatedOf(env, evs)
  {
    if evs != [] {
      var front, last := evs[..|evs| - 1], evs[|evs| - 1];
      TruncationsRecorded(env, h, front);
      HandleAllTells(env, h, front);
      HandleTruncates(env, h, F.HandleAll(env, h, front).0, last);
    }
  }

  lemma HandleTruncates(env: F.Env, h: F.ThinkingHandling, st: F.State, ev: KiroEvent)
    ensures F.Handle(env, h, st, ev).0.truncated == st.truncated +
      if ev.ToolUse? && ev.tool.truncation.Some? then
        [F.Truncated(if ev.tool.id == "" then env.toolId(st.drawn) else ev.tool.id,
                     ev.tool.name, ev.tool.truncation.value)]
      else []
  {
    Associate(st.truncated, [], []);
  }

  lemma {:induction false} BracketsCount(env: F.Env, st: F.State, calls: seq<F.BracketCall>)
    ensures var st' := F.EmitBrackets(env, st, calls).0;
      st' == st.(blocks := st'.blocks, drawn := st'.drawn, toolBlocks := st.toolBlocks + |calls|)
  {
    if calls != [] { BracketsCount(env, st, calls[..|calls| - 1]); }
  }

  lemma {:induction false} BracketsShow(env: F.Env, st: F.State, calls: seq<F.BracketCall>, s: Seen,
                                        before: seq<F.BracketCall>)
    requires st.drawn == Empties(before) && s.tools == Named(env, before)
    ensures var (st', f) := F.EmitBrackets(env, st, calls);
      && View(SeeAll(s, f)) == View(s).(tools := Named(env, before + calls))
      && st'.drawn == Empties(before + calls)
    decreases |calls|
  {
    if calls == [] {
      Associate(before, [], []);
    } else {
      var front, last := calls[..|calls| - 1], calls[|calls| - 1];
      BracketsShow(env, st, front, s, before);
      var (st1, f1) := F.EmitBrackets(env, st, front);
      EmitToolShows(env, SeeAll(s, f1), st1, before + front, last);
      SeeAppend(s, f1, F.EmitTool(env, st1, last.id, last.name, last.input).1);
      assert before + calls == (before + front) + [last];
    }
  }

  lemma BracketTailShows(env: F.Env, st: F.State, s: Seen, before: seq<F.BracketCall>)
    requires st.drawn == Empties(before) && s.tools == Named(env, before)
    ensures var (st', f) := F.BracketTail(env, st);
      var calls := env.brackets(st.fullContent);
      && View(SeeAll(s, f)) == View(s).(tools := Named(env, before + calls))
      && st' == st.(blocks := st'.blocks, drawn := st'.drawn, toolBlocks := st.toolBlocks + |calls|)
  {
    var calls := env.brackets(st.fullContent);
    if calls == [] {
      Associate(before, [], []);
    } else {
      var (b1, f1) := F.CloseBoth(st.blocks);
      BracketsCount(env, st.(blocks := b1), calls);
      BlockChangesQuiet(st.blocks, "");
      QuietShowsNothing(s, f1);
      BracketsShow(env, st.(blocks := b1), calls, SeeAll(s, f1), before);
      SeeAppend(s, f1, F.EmitBrackets(env, st.(blocks := b1), calls).1);
    }
  }

  /** What is shown by the closing frames: the bracket calls, nothing else. */
  /** The closing frames show nothing. */
  lemma ClosingQuiet(b: F.Blocks, reason: string)
    ensures AllQuiet(F.CloseBoth(b).1 + [MessageDelta(reason), MessageStop])
  {
    BlockChangesQuiet(b, "");
  }

  lemma FinishShows(env: F.Env, st: F.State, s: Seen, before: seq<F.BracketCall>)
    requires st.drawn == Empties(before) && s.tools == Named(env, before)
    ensures var (st', f) := F.Finish(env, st);
      View(SeeAll(s, f)) == View(s).(tools := Named(env, before + env.brackets(st.fullContent)))
  {
    var (st1, f1) := F.BracketTail(env, st);
    var (b2, f2) := F.CloseBoth(st1.blocks);
    var closing := [MessageDelta(F.StopReason(st1.(blocks := b2))), MessageStop];
    BracketTailShows(env, st, s, before);
    ClosingQuiet(st1.blocks, F.StopReason(st1.(blocks := b2)));
    QuietShowsNothing(SeeAll(s, f1), f2 + closing);
    SeeAppend(s, f1, f2 + closing);
    Associate(f1, f2, closing);
  }

  /** The stop reason Finish writes. */
  lemma FinishStops(env: F.Env, h: F.ThinkingHandling, evs: seq<KiroEvent>, st: F.State, v: Shown)
    requires Tells(env, h, evs, st, v)
    ensures F.StopReason(F.Finish(env, st).0) == ExpectedStop(env, evs)
  {
    var st1 := F.BracketTail(env, st).0;
    BracketTailShows(env, st, NONE.(tools := Named(env, EventTools(evs))), EventTools(evs));
    assert |EventTools(evs) + env.brackets(ContentText(evs))| == st1.toolBlocks;
  }

  /** Every list of events shows exactly its text, its thinking, its redacted blocks and its tool calls,
      the ones of the stream before the bracket calls. */
  lemma FramesShow(env: F.Env, h: F.ThinkingHandling, evs: seq<KiroEvent>)
    ensures View(SeeAll(NONE, F.Frames(env, h, evs))) ==
      Shown(ShownText(h, evs), ShownThinking(h, evs),
            Named(env, EventTools(evs) + env.brackets(ContentText(evs))), ShownRedacted(h, evs))
  {
    var (st, f) := F.HandleAll(env, h, evs);
    HandleAllTells(env, h, evs);
    SeeOne(NONE, MessageStart);
    SeeAppend(NONE, [MessageStart], f);
    FinishShows(env, st, SeeAll(NONE, f), EventTools(evs));
    SeeAppend(NONE, [MessageStart] + f, F.Finish(env, st).1);
  }

  // ----- the collected response -----

  lemma StopsAt(meta: Meta, front: seq<Frame>, reason: string)
    requires reason != ""
    ensures CollectFrames(meta, front + [MessageDelta(reason), MessageStop]).stopReason == reason
  {
    var all := front + [MessageDelta(reason), MessageStop];
    assert all[..|all| - 1] == front + [MessageDelta(reason)];
    assert (front + [MessageDelta(reason)])[..|front|] == front;
  }

  lemma FramesStop(meta: Meta, env: F.Env, h: F.ThinkingHandling, evs: seq<KiroEvent>)
    ensures CollectFrames(meta, F.Frames(env, h, evs)).stopReason == ExpectedStop(env, evs)
  {
    var (st, f) := F.HandleAll(env, h, evs);
    HandleAllTells(env, h, evs);
    FinishStops(env, h, evs, st, View(SeeAll(NONE, f)));
    var (st1, f1) := F.BracketTail(env, st);
    var (b2, f2) := F.CloseBoth(st1.blocks);
    var tail := [MessageDelta(F.StopReason(st1.(blocks := b2))), MessageStop];
    Associate([MessageStart] + f, f1 + f2, tail);
    StopsAt(meta, ([MessageStart] + f) + (f1 + f2), F.StopReason(st1.(blocks := b2)));
  }

  /** What the collector holds after the frames of any safely ordered list of events. */
  lemma CollectedFrames(meta: Meta, env: F.Env, h: F.ThinkingHandling, evs: seq<KiroEvent>)
    requires F.SafeOrder(h, evs)
    ensures var c := CollectFrames(meta, F.Frames(env, h, evs));
      && c.messageId == meta.messageId && c.stopReason == ExpectedStop(env, evs)
      && c.order == ReadOff(F.Frames(env, h, evs))
      && View(SeenIn(c.order)) ==
           Shown(ShownText(h, evs), ShownThinking(h, evs),
                 Named(env, EventTools(evs) + env.brackets(ContentText(evs))), ShownRedacted(h, evs))
  {
    F.WellFormedIff(env, h, evs);
    CollectorSees(meta, F.Frames(env, h, evs));
    CollectorReadsOff(meta, F.Frames(env, h, evs));
    FramesShow(env, h, evs);
    FramesStop(meta, env, h, evs);
  }
}
