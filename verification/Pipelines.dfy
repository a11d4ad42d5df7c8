/** The pipeline object: it drives the two parser objects and appends to the events. */
module Pipelines {
  import opened ToolCalls
  import opened Pipeline
  import EventParser
  import Thinking
  import opened StreamParsers
  import opened ThinkingParsers

  class StreamPipeline {
    const o: Codec
    const cfg: Thinking.Config
    const parser: StreamParser
    const thinking: ThinkingParser

    ghost predicate Valid() { parser.o == o && thinking.cfg == cfg && thinking.Valid() }

    function Abs(): State
      reads parser, thinking
    {
      State(parser.buffer, parser.Abs(), thinking.Abs())
    }

    constructor (o: Codec, handling: Thinking.Handling, initialBufferSize: int)
      ensures Valid() && fresh(parser) && fresh(thinking) && Abs() == START
      ensures this.o == o && cfg == Thinking.Config(handling, initialBufferSize, Thinking.DEFAULT_TAGS)
    {
      Thinking.DefaultTagsValid();
      var p := new StreamParser(o);
      var t := new ThinkingParser(handling, initialBufferSize, Thinking.DEFAULT_TAGS);
      this.o, this.cfg, parser, thinking := o, t.cfg, p, t;
    }

    method Feed(chunk: string) returns (events: seq<KiroEvent>)
      requires Valid()
      modifies parser, thinking
      ensures (Abs(), events) == Pipeline.Feed(o, cfg, old(Abs()), chunk)
    {
      var parserEvents := parser.Feed(chunk);
      events := LiftEvents(parserEvents);
      events := AppendDiagnosis(events);
    }

    /** Feed's loop over the parser's events. */
    method LiftEvents(parserEvents: seq<EventParser.Event>) returns (events: seq<KiroEvent>)
      requires Valid()
      modifies thinking
      ensures (thinking.Abs(), events) == LiftAll(cfg, old(thinking.Abs()), parserEvents)
    {
      events := [];
      ghost var fsm := thinking.Abs();
      for i := 0 to |parserEvents|
        invariant (thinking.Abs(), events) == LiftAll(cfg, fsm, parserEvents[..i])
      {
        assert parserEvents[..i + 1] == parserEvents[..i] + [parserEvents[i]];
        LiftAllOne(cfg, fsm, parserEvents[..i], parserEvents[i]);
        var now := LiftEvent(parserEvents[i]);
        events := events + now;
      }
      assert parserEvents[..|parserEvents|] == parserEvents;
    }

    /** One round of that loop. */
    method LiftEvent(ev: EventParser.Event) returns (now: seq<KiroEvent>)
      requires Valid()
      modifies thinking
      ensures (thinking.Abs(), now) == Lift(cfg, old(thinking.Abs()), ev)
    {
      now := [];
      match ev.kind {
        case Content =>
          var think, content := thinking.Feed(StringField(ev.value, "content"));
          now := AppendTexts(now, think, content);
          assert now == NonEmpty(think, content);
        case Usage => now := [Usage(ev.raw)];
        case ContextUsage =>
          var c := Field(ev.value, "contextUsagePercentage");
          if c.Num? { now := [ContextUsage(c.text)]; }
        case ReasoningText =>
          var text := StringField(ev.value, "text");
          if text != "" { now := [NativeThinking(text)]; }
        case ReasoningSignature =>
          var sig := StringField(ev.value, "signature");
          if sig != "" { now := [Signature(sig)]; }
        case ReasoningRedacted =>
          var data := StringField(ev.value, "redactedContent");
          if data != "" { now := [Redacted(data)]; }
        case Metadata => now := [Refusal];
        case _ =>
      }
    }

    method AppendTexts(before: seq<KiroEvent>, think: string, content: string) returns (events: seq<KiroEvent>)
      ensures events == before + NonEmpty(think, content)
    {
      events := before;
      if think != "" { events := events + [Thinking(think)]; }
      if content != "" { events := events + [Content(content)]; }
    }

    method AppendDiagnosis(before: seq<KiroEvent>) returns (events: seq<KiroEvent>)
      ensures events == before + Diagnoses(parser.Abs())
    {
      events := before;
      if parser.lastTruncation.Some? { events := events + [Diagnosis(parser.lastTruncation.value)]; }
    }

    /** Finish's loop over the tool calls. The conversion panics on an id that is not a string. */
    method AppendTools(before: seq<KiroEvent>, calls: seq<ToolCall>) returns (events: seq<KiroEvent>, panicked: bool)
      ensures panicked == !StringIds(calls)
      ensures !panicked ==> events == before + ToolUses(o, calls)
    {
      events := before;
      for i := 0 to |calls|
        invariant StringIds(calls[..i]) && |events| == |before| + i
        invariant events[..|before|] == before
        invariant forall j :: 0 <= j < i ==> events[|before| + j] == ToolUse(ToToolUse(o, calls[..i][j]))
      {
        if !calls[i].id.Str? { return events, true; }
        events := events + [ToolUse(ToToolUse(o, calls[i]))];
        assert forall j :: 0 <= j < i ==> calls[..i + 1][j] == calls[..i][j];
      }
      assert calls[..|calls|] == calls;
      return events, false;
    }

    /** The remaining events, unless reporting the tool calls panics. */
    method Finish() returns (events: seq<KiroEvent>, panicked: bool)
      requires Valid()
      modifies parser, thinking
      ensures panicked == !StringIds(FinalCalls(o, old(Abs())))
      ensures !panicked ==> events == Pipeline.Finish(o, cfg, old(Abs()))
    {
      var think, content := thinking.Finish();
      events := AppendTexts([], think, content);
      assert events == NonEmpty(think, content);
      var calls := parser.GetToolCalls();
      events, panicked := AppendTools(events, calls);
      if panicked { return; }
      events := AppendDiagnosis(events);
    }
  }
}
