/** From events to bytes to the non-streaming reply. Main result: the reply holds exactly the text, the
    thinking, the redacted blocks and the tool calls of the stream. */
module Replies {
  import opened Options
  import opened Text
  import opened Json
  import opened Pipeline
  import opened Protocol
  import opened Wire
  import opened Collect
  import opened NonStreaming
  import opened Pipelines
  import opened Formatters
  import opened StreamWriters
  import F = Formatter
  import JsonReader
  import Sse
  import Streams
  import Thinking
  import T = ToolCalls

  // ----- bytes -----

  function Payload(meta: Meta, f: Frame): string { Print(Obj(FrameMembers(meta, f)), false) }

  function ToEvents(meta: Meta, frames: seq<Frame>): (events: seq<Sse.Event>)
    ensures |events| == |frames|
    ensures forall i :: 0 <= i < |frames| ==> events[i] == Sse.Event(EventName(frames[i]), Payload(meta, frames[i]))
  {
    seq(|frames|, i requires 0 <= i < |frames| => Sse.Event(EventName(frames[i]), Payload(meta, frames[i])))
  }

  /** The bytes of a list of frames. */
  function Bytes(meta: Meta, frames: seq<Frame>): string { Sse.Framed(ToEvents(meta, frames)) }

  /** writeEvent: print the payload, frame it, write it at the end of the buffer. */
  method WriteEvent(buffer: string, meta: Meta, f: Frame) returns (out: string)
    ensures out == buffer + (Sse.EventText(EventName(f), Payload(meta, f)) + Sse.BLANK_LINE)
  {
    var formatted := WriteValue("", Obj(FrameMembers(meta, f)), false);
    assert formatted == Payload(meta, f);
    var event := Sse.FormatEvent(EventName(f), formatted);
    out := buffer + event;
  }

  lemma {:induction false} FramedSnoc(events: seq<Sse.Event>, e: Sse.Event)
    ensures Sse.Framed(events + [e]) == Sse.Framed(events) + (Sse.EventText(e.name, e.data) + Sse.BLANK_LINE)
  {
    var last := Sse.EventText(e.name, e.data) + Sse.BLANK_LINE;
    if events == [] {
      assert [e][1..] == [];
      Associate(last, "", "");
    } else {
      FramedSnoc(events[1..], e);
      assert (events + [e])[1..] == events[1..] + [e];
      Associate(Sse.EventText(events[0].name, events[0].data) + Sse.BLANK_LINE, Sse.Framed(events[1..]), last);
    }
  }

  lemma EventsNext(meta: Meta, frames: seq<Frame>, i: nat)
    requires i < |frames|
    ensures ToEvents(meta, frames[..i + 1]) ==
      ToEvents(meta, frames[..i]) + [Sse.Event(EventName(frames[i]), Payload(meta, frames[i]))]
  {
    var a, b := ToEvents(meta, frames[..i + 1]), ToEvents(meta, frames[..i]);
    forall k | 0 <= k < i ensures a[k] == b[k] {
      assert frames[..i + 1][k] == frames[..i][k];
    }
    assert frames[..i + 1][i] == frames[i];
  }

  lemma BytesNext(meta: Meta, frames: seq<Frame>, i: nat)
    requires i < |frames|
    ensures Bytes(meta, frames[..i + 1]) ==
      Bytes(meta, frames[..i]) + (Sse.EventText(EventName(frames[i]), Payload(meta, frames[i])) + Sse.BLANK_LINE)
  {
    EventsNext(meta, frames, i);
    FramedSnoc(ToEvents(meta, frames[..i]), Sse.Event(EventName(frames[i]), Payload(meta, frames[i])));
  }

  /** A whole response written to a buffer. */
  method WriteAll(meta: Meta, frames: seq<Frame>) returns (out: string)
    ensures out == Bytes(meta, frames)
  {
    out := "";
    for i := 0 to |frames|
      invariant out == Bytes(meta, frames[..i])
    {
      BytesNext(meta, frames, i);
      out := WriteEvent(out, meta, frames[i]);
    }
    assert frames[..|frames|] == frames;
  }

  // ----- the collector gets the frames back -----

  lemma PayloadGood(meta: Meta, f: Frame)
    requires ValidMeta(meta)
    ensures Sse.GoodPayload(Payload(meta, f)) && Sse.OneLine(EventName(f))
  {
    FrameValid(meta, f);
    PrintPrintable(Obj(FrameMembers(meta, f)), false);
    ObjectEnds(FrameMembers(meta, f), false);
    NameOnOneLine(f);
  }

  lemma {:induction false} PayloadAt(events: seq<Sse.Event>, i: nat)
    requires i < |events|
    ensures |Sse.Payloads(events)| == |events| && Sse.Payloads(events)[i] == events[i].data
  {
    if |events| > 1 {
      PayloadAt(events[1..], if i > 0 then i - 1 else 0);
    } else {
      assert events[1..] == [];
    }
  }

  lemma {:induction false} TakesAll(meta: Meta, datas: seq<string>, frames: seq<Frame>)
    requires |datas| == |frames|
    requires forall i :: 0 <= i < |frames| ==> ReadPayload(datas[i]) == FrameIn(meta, frames[i])
    ensures TakeAll(datas) == CollectFrames(meta, frames)
  {
    if frames != [] { TakesAll(meta, datas[..|datas| - 1], frames[..|frames| - 1]); }
  }

  lemma ReadsBack(meta: Meta, f: Frame)
    requires ValidMeta(meta)
    ensures ReadPayload(Payload(meta, f)) == FrameIn(meta, f)
  {
    FrameValid(meta, f);
    FrameShallow(meta, f);
    JsonReader.ParsePrinted(Obj(FrameMembers(meta, f)), false);
    ReadFrame(meta, f);
  }

  /** Writing, framing, splitting, parsing and reading is the identity on frames. */
  lemma CollectorGetsFrames(meta: Meta, frames: seq<Frame>)
    requires ValidMeta(meta)
    ensures TakeAll(Sse.SseData(Bytes(meta, frames))) == CollectFrames(meta, frames)
  {
    var events := ToEvents(meta, frames);
    forall i | 0 <= i < |events| ensures Sse.OneLine(events[i].name) && Sse.GoodPayload(events[i].data) {
      PayloadGood(meta, frames[i]);
    }
    Sse.SplitOfFramed(events);
    var datas := Sse.Payloads(events);
    if frames == [] {
      assert datas == [];
    } else {
      PayloadAt(events, 0);
      forall i | 0 <= i < |frames| ensures ReadPayload(datas[i]) == FrameIn(meta, frames[i]) {
        PayloadAt(events, i);
        ReadsBack(meta, frames[i]);
      }
      TakesAll(meta, datas, frames);
    }
  }

  // ----- the reply -----

  function ReplyText(content: seq<OutBlock>): string
  {
    if content == [] then ""
    else
      var last := content[|content| - 1];
      ReplyText(content[..|content| - 1]) + if last.OutText? then last.text else ""
  }

  function ReplyThinking(content: seq<OutBlock>): string
  {
    if content == [] then ""
    else
      var last := content[|content| - 1];
      ReplyThinking(content[..|content| - 1]) + if last.OutThinking? then last.thinking else ""
  }

  function ReplyTools(content: seq<OutBlock>): seq<Tool>
  {
    if content == [] then []
    else
      var last := content[|content| - 1];
      ReplyTools(content[..|content| - 1]) + if last.OutTool? then [Tool(last.id, last.name, last.input)] else []
  }

  function ReplyRedacted(content: seq<OutBlock>): seq<string>
  {
    if content == [] then []
    else
      var last := content[|content| - 1];
      ReplyRedacted(content[..|content| - 1]) + if last.OutRedacted? then [last.data] else []
  }

  /** Tool calls with their inputs as the reply gives them. */
  function WithInputs(tools: seq<Tool>): seq<Tool>
  {
    if tools == [] then []
    else
      var last := tools[|tools| - 1];
      WithInputs(tools[..|tools| - 1]) + [last.(json := ToolInput(last.json))]
  }

  lemma WithInputsSnoc(tools: seq<Tool>, t: Tool)
    ensures WithInputs(tools + [t]) == WithInputs(tools) + [t.(json := ToolInput(t.json))]
  {
    assert (tools + [t])[..|tools|] == tools;
  }

  /** What the reply says is what the accumulators hold. */
  lemma {:induction false} ReplySays(order: seq<Acc>)
    ensures var content, seen := Blocks(order), SeenIn(order);
      && ReplyText(content) == seen.text && ReplyThinking(content) == seen.thinking
      && ReplyTools(content) == WithInputs(seen.tools) && ReplyRedacted(content) == seen.redacted
  {
    if order != [] {
      var front, a := order[..|order| - 1], order[|order| - 1];
      ReplySays(front);
      AccSays(Blocks(front), SeenIn(front), a);
    }
  }

  lemma ReplySnoc(content: seq<OutBlock>, b: OutBlock)
    ensures var all := content + [b];
      && ReplyText(all) == ReplyText(content) + (if b.OutText? then b.text else "")
      && ReplyThinking(all) == ReplyThinking(content) + (if b.OutThinking? then b.thinking else "")
      && ReplyTools(all) == ReplyTools(content) + (if b.OutTool? then [Tool(b.id, b.name, b.input)] else [])
      && ReplyRedacted(all) == ReplyRedacted(content) + (if b.OutRedacted? then [b.data] else [])
  {
    assert (content + [b])[..|content|] == content;
  }

  lemma Unchanged(text: string, thinking: string, tools: seq<Tool>, redacted: seq<string>)
    ensures text + "" == text && thinking + "" == thinking && tools + [] == tools && redacted + [] == redacted
  {
  }

  lemma AccSays(content: seq<OutBlock>, seen: Seen, a: Acc)
    requires ReplyText(content) == seen.text && ReplyThinking(content) == seen.thinking
    requires ReplyTools(content) == WithInputs(seen.tools) && ReplyRedacted(content) == seen.redacted
    ensures var content', seen' := content + OutOf(a), SeeAcc(seen, a);
      && ReplyText(content') == seen'.text && ReplyThinking(content') == seen'.thinking
      && ReplyTools(content') == WithInputs(seen'.tools) && ReplyRedacted(content') == seen'.redacted
  {
    Unchanged(ReplyText(content), ReplyThinking(content), ReplyTools(content), ReplyRedacted(content));
    match a.blockType
    case ThinkingType => ReplySnoc(content, OutThinking(a.text, a.signature));
    case RedactedType => ReplySnoc(content, OutRedacted(a.data));
    case TextType => ReplySnoc(content, OutText(a.text));
    case ToolType =>
      ReplySnoc(content, OutTool(a.id, a.name, ToolInput(a.partial)));
      WithInputsSnoc(seen.tools, Tool(a.id, a.name, a.partial));
    case OtherType => Associate(content, [], []);
  }

  // ----- the inputs of the tool calls -----

  predicate SameCall(sent: Tool, got: Tool)
  {
    got.id == sent.id && got.name == sent.name && InputFor(sent.json, got.json)
  }

  /** `got` are the calls `sent`, ids and names, each with the input its deltas made. */
  predicate SameCalls(sent: seq<Tool>, got: seq<Tool>)
  {
    |got| == |sent| && forall i :: 0 <= i < |sent| ==> SameCall(sent[i], got[i])
  }

  lemma SameCallsSnoc(sent: seq<Tool>, got: seq<Tool>, t: Tool, u: Tool)
    requires SameCalls(sent, got) && SameCall(t, u)
    ensures SameCalls(sent + [t], got + [u])
  {
  }

  lemma {:induction false} WithInputsIs(tools: seq<Tool>)
    ensures SameCalls(tools, WithInputs(tools))
  {
    if tools != [] {
      var front, last := tools[..|tools| - 1], tools[|tools| - 1];
      WithInputsIs(front);
      InputIs(last.json);
      SameCallsSnoc(front, WithInputs(front), last, last.(json := ToolInput(last.json)));
      assert tools == front + [last];
    }
  }

  /** `text` is a printed object, not nested too deeply. */
  ghost predicate PrintsObject(text: string)
  {
    exists v, ascii ::
      text == Print(v, ascii) && v.Obj? && ValidJson(v) && JsonReader.Nesting(v) <= JsonReader.NESTING_LIMIT
  }

  lemma PrintedStays(text: string)
    requires PrintsObject(text)
    ensures Sse.TrimSpace(text) == text && JsonReader.Parse(text).Some?
  {
    var v, ascii :|
      text == Print(v, ascii) && v.Obj? && ValidJson(v) && JsonReader.Nesting(v) <= JsonReader.NESTING_LIMIT;
    ObjectEnds(v.members, ascii);
    Sse.TrimKeeps(text);
    JsonReader.ParsePrinted(v, ascii);
  }

  /** The same calls, inputs and all, where every input sent is a printed object. */
  lemma PrintedCalls(sent: seq<Tool>, got: seq<Tool>)
    requires SameCalls(sent, got) && forall t :: t in sent ==> PrintsObject(t.json)
    ensures got == sent
  {
    forall i | 0 <= i < |sent| ensures got[i] == sent[i] {
      assert sent[i] in sent && SameCall(sent[i], got[i]);
      PrintedStays(sent[i].json);
    }
  }

  ghost predicate DumpsObjects(env: F.Env, calls: seq<F.BracketCall>)
  {
    forall c :: c in calls ==> PrintsObject(env.dump(c.input))
  }

  lemma {:induction false} NamedPrints(env: F.Env, calls: seq<F.BracketCall>)
    requires DumpsObjects(env, calls)
    ensures forall t :: t in Named(env, calls) ==> PrintsObject(t.json)
  {
    if calls != [] { NamedPrints(env, calls[..|calls| - 1]); }
  }

  /** The calls of a stream: its tool events, then the bracket calls in its text. */
  function CallsIn(env: F.Env, evs: seq<KiroEvent>): seq<F.BracketCall>
  {
    EventTools(evs) + env.brackets(ContentText(evs))
  }

  lemma ToolsSaid(env: F.Env, calls: seq<F.BracketCall>, got: seq<Tool>)
    requires got == WithInputs(Named(env, calls))
    ensures SameCalls(Named(env, calls), got) && (DumpsObjects(env, calls) ==> got == Named(env, calls))
  {
    WithInputsIs(Named(env, calls));
    if DumpsObjects(env, calls) {
      NamedPrints(env, calls);
      PrintedCalls(Named(env, calls), got);
    }
  }

  // ----- the reply and the stream -----

  /** The reply says what the events say: its text is the text of the events, its thinking their thinking,
      its tool calls those of the stream and then the bracket calls, with exactly the inputs sent where these
      are printed objects, and its stop reason the one the events call for. */
  ghost predicate Says(r: Response, meta: Meta, env: F.Env, h: F.ThinkingHandling, evs: seq<KiroEvent>)
  {
    var calls := CallsIn(env, evs);
    && r.id == meta.messageId
    && r.stopReason == ExpectedStop(env, evs)
    && ReplyText(r.content) == ShownText(h, evs)
    && ReplyThinking(r.content) == ShownThinking(h, evs)
    && SameCalls(Named(env, calls), ReplyTools(r.content))
    && (DumpsObjects(env, calls) ==> ReplyTools(r.content) == Named(env, calls))
    && ReplyRedacted(r.content) == ShownRedacted(h, evs)
  }

  /** The reply to a complete stream, for every byte stream, chunking and handling: it says what the events
      say, and its blocks are, one by one and in order, those a streaming client reads off the frames. */
  lemma ReplyMatchesStream(meta: Meta, o: T.Codec, cfg: Thinking.Config, env: F.Env,
                           h: F.ThinkingHandling, chunks: seq<string>)
    requires ValidMeta(meta) && Thinking.UsableTags(cfg.openTags)
    requires StringIds(FinalCalls(o, Run(o, cfg, chunks).0))
    ensures var frames := Streams.Sent(o, cfg, env, h, chunks, false);
      var r := ResponseOf(TakeAll(Sse.SseData(Bytes(meta, frames))));
      Says(r, meta, env, h, Events(o, cfg, chunks)) && r.content == Blocks(ReadOff(frames))
  {
    var evs := Events(o, cfg, chunks);
    ThinkingBeforeContent(o, cfg, chunks);
    F.ThinkingFirstIsSafe(h, evs);
    ReplyMatchesEvents(meta, env, h, evs);
  }

  lemma ReplyMatchesEvents(meta: Meta, env: F.Env, h: F.ThinkingHandling, evs: seq<KiroEvent>)
    requires ValidMeta(meta) && F.SafeOrder(h, evs)
    ensures var frames := F.Frames(env, h, evs);
      var r := ResponseOf(TakeAll(Sse.SseData(Bytes(meta, frames))));
      Says(r, meta, env, h, evs) && r.content == Blocks(ReadOff(frames))
  {
    var frames := F.Frames(env, h, evs);
    CollectorGetsFrames(meta, frames);
    CollectedFrames(meta, env, h, evs);
    ReplySays(CollectFrames(meta, frames).order);
    ToolsSaid(env, CallsIn(env, evs), ReplyTools(Blocks(CollectFrames(meta, frames).order)));
  }

  /** serveNonStreaming: the stream goes to a buffer and the reply is rebuilt from its bytes. None is the
      error answer to a body that broke, or no answer after a tool id that is not a string. */
  method ServeNonStreaming(meta: Meta, chunks: seq<string>, failed: bool, p: StreamPipeline, f: StreamFormatter,
                           buffer: StreamWriter)
    returns (reply: Option<Response>)
    requires p.Valid() && p.Abs() == START && f.Abs() == F.START && buffer.Valid() && buffer.frames == []
    modifies p.parser, p.thinking, f, f.blocks, buffer
    ensures reply.Some? <==> !failed && StringIds(FinalCalls(p.o, Run(p.o, p.cfg, chunks).0))
    ensures reply.Some? && ValidMeta(meta) ==>
      && Says(reply.value, meta, f.env, f.handling, Events(p.o, p.cfg, chunks))
      && reply.value.content == Blocks(ReadOff(Streams.Sent(p.o, p.cfg, f.env, f.handling, chunks, false)))
  {
    var done := Streams.Drive(chunks, failed, p, f, buffer);
    if !done { return None; }
    var bytes := WriteAll(meta, buffer.frames);
    var response := CollectResponse(bytes);
    if ValidMeta(meta) { ReplyMatchesStream(meta, p.o, p.cfg, f.env, f.handling, chunks); }
    return Some(response);
  }
}
