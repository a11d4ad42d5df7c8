/** From the upstream's content objects to the client's text: the text of a reply is the one-shot reading
    of the concatenated content strings, whatever the pieces they arrive in. */
module EndToEnd {
  import opened Text
  import opened ToolCalls
  import opened Pipeline
  import EventParser
  import Thinking
  import F = Formatter
  import N = NonStreaming
  import Wire
  import Collect
  import Replies
  import Protocol
  import Sse
  import SseClient
  import Streams

  /** The content strings of the parser's events, in order. */
  function ContentStrings(evs: seq<EventParser.Event>): seq<string>
  {
    if evs == [] then []
    else
      var last := evs[|evs| - 1];
      ContentStrings(evs[..|evs| - 1]) + if last.kind.Content? then [StringField(last.value, "content")] else []
  }

  /** The texts of the thinking events that the thinking parser split off. */
  function SplitThinking(evs: seq<KiroEvent>): string
  {
    if evs == [] then ""
    else SplitThinking(evs[..|evs| - 1]) + if evs[|evs| - 1].Thinking? then evs[|evs| - 1].text else ""
  }

  /** Thinking and content of a list of events. */
  function Texts(evs: seq<KiroEvent>): (string, string) { (SplitThinking(evs), N.ContentText(evs)) }

  lemma TextsSnoc(evs: seq<KiroEvent>, ev: KiroEvent)
    ensures Texts(evs + [ev]) ==
      (SplitThinking(evs) + (if ev.Thinking? then ev.text else ""), N.ContentText(evs) + N.TextOf(F.Strip, ev))
  {
    assert (evs + [ev])[..|evs|] == evs;
  }

  lemma {:induction false} TextsAppend(a: seq<KiroEvent>, b: seq<KiroEvent>)
    ensures Texts(a + b) == (SplitThinking(a) + SplitThinking(b), N.ContentText(a) + N.ContentText(b))
  {
    if b == [] {
      assert a + b == a;
      Associate(SplitThinking(a), "", "");
      Associate(N.ContentText(a), "", "");
    } else {
      var front, last := b[..|b| - 1], b[|b| - 1];
      TextsAppend(a, front);
      assert b == front + [last] && a + b == (a + front) + [last];
      TextsSnoc(a + front, last);
      TextsSnoc(front, last);
      Associate(SplitThinking(a), SplitThinking(front), if last.Thinking? then last.text else "");
      Associate(N.ContentText(a), N.ContentText(front), N.TextOf(F.Strip, last));
    }
  }

  lemma NonEmptyTexts(thinking: string, content: string)
    ensures Texts(NonEmpty(thinking, content)) == (thinking, content)
  {
    var a: seq<KiroEvent> := if thinking != "" then [Thinking(thinking)] else [];
    var b: seq<KiroEvent> := if content != "" then [Content(content)] else [];
    OneText(Thinking(thinking));
    OneText(Content(content));
    TextsAppend(a, b);
    assert Texts(a) == (thinking, "") && Texts(b) == ("", content);
    Associate(thinking, "", "");
    Associate(content, "", "");
  }

  lemma OneText(ev: KiroEvent)
    ensures Texts([ev]) == (if ev.Thinking? then ev.text else "", N.TextOf(F.Strip, ev))
  {
    var none: seq<KiroEvent> := [];
    TextsSnoc(none, ev);
    assert none + [ev] == [ev] && SplitThinking(none) == "" && N.ContentText(none) == "";
    Associate(if ev.Thinking? then ev.text else "", "", "");
    Associate(N.TextOf(F.Strip, ev), "", "");
  }

  /** Other parser events give at most one event, without text. */
  lemma LiftOther(cfg: Thinking.Config, fsm: Thinking.State, ev: EventParser.Event)
    requires Thinking.ValidTags(cfg.openTags) && !ev.kind.Content?
    ensures var (fsm', now) := Lift(cfg, fsm, ev);
      && fsm' == fsm && |now| <= 1
      && (|now| == 1 ==> !now[0].Thinking? && !now[0].Content?)
  {
  }

  lemma LiftTexts(cfg: Thinking.Config, fsm: Thinking.State, ev: EventParser.Event)
    requires Thinking.ValidTags(cfg.openTags)
    ensures var (fsm', now) := Lift(cfg, fsm, ev);
      if ev.kind.Content? then
        (fsm', Texts(now).0, Texts(now).1) == Thinking.Feed(cfg, fsm, StringField(ev.value, "content"))
      else fsm' == fsm && Texts(now) == ("", "")
  {
    if ev.kind.Content? {
      var (_, t, c) := Thinking.Feed(cfg, fsm, StringField(ev.value, "content"));
      NonEmptyTexts(t, c);
    } else {
      var now := Lift(cfg, fsm, ev).1;
      LiftOther(cfg, fsm, ev);
      if |now| == 1 {
        OneText(now[0]);
        assert now == [now[0]];
      } else {
        assert now == [];
      }
    }
  }

  lemma RunSnoc(cfg: Thinking.Config, chunks: seq<string>, x: string)
    requires Thinking.ValidTags(cfg.openTags)
    ensures var (s, t, c) := Thinking.Run(cfg, chunks); var (s', t', c') := Thinking.Feed(cfg, s, x);
      Thinking.Run(cfg, chunks + [x]) == (s', t + t', c + c')
  {
    assert (chunks + [x])[..|chunks|] == chunks;
  }

  /** Lifting a list of events runs the thinking parser on their content strings. */
  lemma {:induction false} LiftedRun(cfg: Thinking.Config, evs: seq<EventParser.Event>)
    requires Thinking.ValidTags(cfg.openTags)
    ensures var (fsm, all) := LiftAll(cfg, Thinking.INITIAL, evs);
      (fsm, Texts(all).0, Texts(all).1) == Thinking.Run(cfg, ContentStrings(evs))
  {
    if evs != [] {
      var front, last := evs[..|evs| - 1], evs[|evs| - 1];
      LiftedRun(cfg, front);
      var (fsm, all) := LiftAll(cfg, Thinking.INITIAL, front);
      LiftTexts(cfg, fsm, last);
      TextsAppend(all, Lift(cfg, fsm, last).1);
      RunSnoc(cfg, ContentStrings(front), StringField(last.value, "content"));
      Associate(ContentStrings(front), [], []);
      Associate(Texts(all).0, "", "");
      Associate(Texts(all).1, "", "");
    }
  }

  lemma {:induction false} VisibleTexts(evs: seq<KiroEvent>)
    ensures Texts(Visible(evs)) == Texts(evs)
  {
    if evs != [] {
      var front, last := evs[..|evs| - 1], evs[|evs| - 1];
      VisibleTexts(front);
      assert evs == front + [last];
      TextsSnoc(front, last);
      TextsSnoc(Visible(front), last);
      Associate(Visible(front), [], []);
      Associate(SplitThinking(front), "", "");
      Associate(N.ContentText(front), "", "");
    }
  }

  lemma {:induction false} OthersHaveNoText(evs: seq<KiroEvent>)
    requires forall i :: 0 <= i < |evs| ==> evs[i].ToolUse? || evs[i].Diagnosis?
    ensures Texts(evs) == ("", "")
  {
    if evs != [] {
      OthersHaveNoText(evs[..|evs| - 1]);
      assert evs == evs[..|evs| - 1] + [evs[|evs| - 1]];
      TextsSnoc(evs[..|evs| - 1], evs[|evs| - 1]);
    }
  }

  lemma ToolsHaveNoText(o: Codec, calls: seq<ToolCall>, core: EventParser.Core)
    requires StringIds(calls)
    ensures Texts(ToolUses(o, calls) + Diagnoses(core)) == ("", "")
  {
    OthersHaveNoText(ToolUses(o, calls) + Diagnoses(core));
  }

  lemma FinishTexts(o: Codec, cfg: Thinking.Config, s: State)
    requires StringIds(FinalCalls(o, s))
    ensures Texts(Finish(o, cfg, s)) == Thinking.Finish(cfg, s.fsm)
  {
    var (t, c) := Thinking.Finish(cfg, s.fsm);
    var calls, core := FinalCalls(o, s), EventParser.Finalize(o, s.core);
    NonEmptyTexts(t, c);
    ToolsHaveNoText(o, calls, core);
    TextsThen(NonEmpty(t, c), ToolUses(o, calls), Diagnoses(core));
  }

  lemma TextsThen(a: seq<KiroEvent>, b: seq<KiroEvent>, c: seq<KiroEvent>)
    requires Texts(b + c) == ("", "")
    ensures Texts(a + b + c) == Texts(a)
  {
    Associate(a, b, c);
    TextsAppend(a, b + c);
    Associate(SplitThinking(a), "", "");
    Associate(N.ContentText(a), "", "");
  }

  /** The thinking and the content of all events of a stream are what the one-shot specification makes of
      the concatenated content strings. */
  lemma StreamTexts(o: Codec, cfg: Thinking.Config, chunks: seq<string>)
    requires Thinking.ValidTags(cfg.openTags)
    requires StringIds(FinalCalls(o, Run(o, cfg, chunks).0))
    ensures var pieces := ContentStrings(EventParser.Run(o, EventParser.EVENT_PATTERNS, chunks).2);
      Texts(Events(o, cfg, chunks)) ==
      (Thinking.ThinkingSpec(cfg, Concat(pieces)), Thinking.ContentSpec(cfg, pieces))
  {
    var parsed := EventParser.Run(o, EventParser.EVENT_PATTERNS, chunks).2;
    var (s, evs) := Run(o, cfg, chunks);
    RunVisible(o, cfg, chunks);
    LiftedRun(cfg, parsed);
    VisibleTexts(evs);
    FinishTexts(o, cfg, s);
    TextsAppend(evs, Finish(o, cfg, s));
    Thinking.EmittedMeetsSpec(cfg, ContentStrings(parsed));
  }

  lemma {:induction false} ShownTextIsContent(h: F.ThinkingHandling, evs: seq<KiroEvent>)
    requires h != F.IncludeAsText
    ensures N.ShownText(h, evs) == N.ContentText(evs)
  {
    if evs != [] { ShownTextIsContent(h, evs[..|evs| - 1]); }
  }

  /** The text of the non-streaming reply, where thinking is not written as text: the content part of the
      upstream's concatenated content strings, read in one piece. */
  lemma ReplyTextIsContent(meta: Wire.Meta, o: Codec, cfg: Thinking.Config, env: F.Env,
                           h: F.ThinkingHandling, chunks: seq<string>)
    requires Wire.ValidMeta(meta) && Thinking.ValidTags(cfg.openTags)
    requires h != F.IncludeAsText && StringIds(FinalCalls(o, Run(o, cfg, chunks).0))
    ensures var bytes := Replies.Bytes(meta, Streams.Sent(o, cfg, env, h, chunks, false));
      var r := Collect.ResponseOf(Collect.TakeAll(Sse.SseData(bytes)));
      Replies.ReplyText(r.content) ==
      Thinking.ContentSpec(cfg, ContentStrings(EventParser.Run(o, EventParser.EVENT_PATTERNS, chunks).2))
  {
    Replies.ReplyMatchesStream(meta, o, cfg, env, h, chunks);
    StreamTexts(o, cfg, chunks);
    ShownTextIsContent(h, Events(o, cfg, chunks));
  }

  // ----- the mode the handler derives from the configuration -----

  /** Handler.thinkingHandling. */
  function HandlerMode(h: Thinking.Handling): F.ThinkingHandling
  {
    if h == Thinking.AsReasoningContent then F.AsReasoningContent else F.Strip
  }

  lemma {:induction false} StripShowsNoThinking(evs: seq<KiroEvent>)
    ensures N.ShownThinking(F.Strip, evs) == ""
  {
    if evs != [] { StripShowsNoThinking(evs[..|evs| - 1]); }
  }

  /** In every mode but as_reasoning_content the handler shows no thinking at all. The pipeline does
      deliver it, tags and all in `pass` mode, and the formatter drops it. */
  lemma OtherModesDropThinking(o: Codec, cfg: Thinking.Config, chunks: seq<string>)
    requires Thinking.ValidTags(cfg.openTags) && cfg.handling != Thinking.AsReasoningContent
    requires StringIds(FinalCalls(o, Run(o, cfg, chunks).0))
    ensures var evs, h := Events(o, cfg, chunks), HandlerMode(cfg.handling);
      var pieces := ContentStrings(EventParser.Run(o, EventParser.EVENT_PATTERNS, chunks).2);
      && SplitThinking(evs) == Thinking.ThinkingSpec(cfg, Concat(pieces))
      && N.ShownThinking(h, evs) == ""
      && N.ShownText(h, evs) == Thinking.ContentSpec(cfg, pieces)
  {
    var evs := Events(o, cfg, chunks);
    StreamTexts(o, cfg, chunks);
    StripShowsNoThinking(evs);
    ShownTextIsContent(F.Strip, evs);
  }

  /** A client that reads the bytes of a response gets one event per frame, named for it, whose data say what
      the frame says. */
  lemma ClientGetsFrames(meta: Wire.Meta, frames: seq<Protocol.Frame>)
    requires Wire.ValidMeta(meta)
    ensures var events := SseClient.ClientEvents(Replies.Bytes(meta, frames));
      |events| == |frames| && forall i :: 0 <= i < |frames| ==>
        && events[i].name == Wire.EventName(frames[i])
        && Collect.ReadPayload(events[i].data) == Wire.FrameIn(meta, frames[i])
  {
    var events := Replies.ToEvents(meta, frames);
    forall i | 0 <= i < |frames| ensures Sse.OneLine(events[i].name) && Sse.GoodPayload(events[i].data)
      ensures Collect.ReadPayload(events[i].data) == Wire.FrameIn(meta, frames[i])
    {
      Replies.PayloadGood(meta, frames[i]);
      Replies.ReadsBack(meta, frames[i]);
    }
    SseClient.ClientReadsBack(events);
  }
}
