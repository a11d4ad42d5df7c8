/** Streams on which the code does not do what one may expect. The decoder is any that reads the one object
    of the stream as what it says. */
module Counterexamples {
  import opened Options
  import opened Text
  import opened Json
  import opened ToolCalls
  import opened Pipeline
  import opened Protocol
  import ChunkBorders
  import EndToEnd
  import EventParser
  import F = Formatter
  import N = NonStreaming
  import Streams
  import Thinking

  /** What a stream that is one printed object with a known first key of kind `kind` comes to. */
  predicate OneObjectRun(o: Codec, cfg: Thinking.Config, kind: EventParser.Kind, raw: string)
    requires Thinking.UsableTags(cfg.openTags)
  {
    var (core, evs) := EventParser.Process(o, EventParser.EMPTY, kind, raw);
    && EventParser.Run(o, EventParser.EVENT_PATTERNS, [raw]).2 == evs
    && Run(o, cfg, [raw]).0.core == core
    && Visible(Run(o, cfg, [raw]).1) == LiftAll(cfg, Thinking.INITIAL, evs).1
  }

  lemma OneObjectRuns(o: Codec, cfg: Thinking.Config, members: seq<Member>, k: nat, kind: EventParser.Kind)
    requires Thinking.UsableTags(cfg.openTags) && k < |EventParser.EVENT_PATTERNS|
    requires ValidJson(Obj(members)) && members != [] && ChunkBorders.PlainKey(members[0].key)
    requires EventParser.EVENT_PATTERNS[k] == EventParser.Pattern(EventParser.FirstKey(members[0].key), kind)
    ensures OneObjectRun(o, cfg, kind, Print(Obj(members), true))
  {
    EventParser.EventPatternsGood();
    ChunkBorders.FirstKeyLeads(members, true);
    ChunkBorders.OneObject(o, EventParser.EVENT_PATTERNS, Obj(members), k);
    RunVisible(o, cfg, [Print(Obj(members), true)]);
  }

  // ----- a tool id that is not a string -----

  function StartMembers(id: Json): seq<Member> { [Member("name", Str("t")), Member("toolUseId", id)] }

  lemma StartValid(id: Json)
    requires ValidJson(id)
    ensures ValidJson(Obj(StartMembers(id))) && ChunkBorders.PlainKey(StartMembers(id)[0].key)
  {
  }

  lemma StartObjectRuns(o: Codec, cfg: Thinking.Config, id: Json)
    requires Thinking.UsableTags(cfg.openTags) && ValidJson(id)
    ensures OneObjectRun(o, cfg, EventParser.ToolStart, Print(Obj(StartMembers(id)), true))
  {
    StartValid(id);
    EventParser.TableEntries();
    OneObjectRuns(o, cfg, StartMembers(id), 1, EventParser.ToolStart);
  }

  /** The pending call that a start object leaves. */
  lemma StartPends(o: Codec, raw: string, id: Json)
    requires o.decode(raw) == Some(map["name" := Str("t"), "toolUseId" := id])
    ensures var (core, evs) := EventParser.Process(o, EventParser.EMPTY, EventParser.ToolStart, raw);
      && evs == [] && core.truncation.None?
      && core.calls == [] && core.current == Some(EventParser.ToolAcc(id, Str("t"), o.argText(raw)))
  {
  }

  lemma PendingFinalized(o: Codec, core: EventParser.Core, acc: EventParser.ToolAcc)
    requires core.calls == [] && core.current == Some(acc)
    ensures var calls := EventParser.Finalize(o, core).calls; |calls| == 1 && calls[0].id == acc.id
  {
  }

  lemma OneCallReported(o: Codec, s: State, calls: seq<ToolCall>)
    requires calls == EventParser.Finalize(o, s.core).calls && |calls| == 1
    ensures FinalCalls(o, s) == calls
  {
    assert calls == [calls[0]];
    DedupOne(o, calls[0]);
  }

  lemma PendingIsReported(o: Codec, s: State, acc: EventParser.ToolAcc)
    requires s.core.calls == [] && s.core.current == Some(acc) && !acc.id.Str?
    ensures !StringIds(FinalCalls(o, s))
  {
    PendingFinalized(o, s.core, acc);
    OneCallReported(o, s, EventParser.Finalize(o, s.core).calls);
  }

  lemma StartRuns(o: Codec, cfg: Thinking.Config, id: Json)
    requires Thinking.UsableTags(cfg.openTags) && ValidJson(id) && !id.Str?
    requires o.decode(Print(Obj(StartMembers(id)), true)) == Some(map["name" := Str("t"), "toolUseId" := id])
    ensures var (s, evs) := Run(o, cfg, [Print(Obj(StartMembers(id)), true)]);
      !StringIds(FinalCalls(o, s)) && Visible(evs) == []
  {
    var raw := Print(Obj(StartMembers(id)), true);
    StartObjectRuns(o, cfg, id);
    StartPends(o, raw, id);
    PendingIsReported(o, Run(o, cfg, [raw]).0, EventParser.ToolAcc(id, Str("t"), o.argText(raw)));
  }

  lemma NothingShown(env: F.Env, h: F.ThinkingHandling, evs: seq<KiroEvent>)
    requires Visible(evs) == []
    ensures [MessageStart] + F.HandleAll(env, h, evs).1 == [MessageStart]
  {
    Streams.DiagnosesDoNotShow(env, h, evs);
    Associate([MessageStart], [], []);
  }

  /** One tool start with an id that is a number, say: the pipeline's Finish panics, and all the client ever
      gets is message_start. */
  lemma NonStringIdStops(o: Codec, cfg: Thinking.Config, env: F.Env, h: F.ThinkingHandling, id: Json)
    requires Thinking.UsableTags(cfg.openTags) && ValidJson(id) && !id.Str?
    requires o.decode(Print(Obj(StartMembers(id)), true)) == Some(map["name" := Str("t"), "toolUseId" := id])
    ensures var chunks := [Print(Obj(StartMembers(id)), true)];
      && !StringIds(FinalCalls(o, Run(o, cfg, chunks).0))
      && Streams.Sent(o, cfg, env, h, chunks, false) == [MessageStart]
      && !WellFormed(Streams.Sent(o, cfg, env, h, chunks, false))
  {
    var chunks := [Print(Obj(StartMembers(id)), true)];
    StartRuns(o, cfg, id);
    NothingShown(env, h, Run(o, cfg, chunks).1);
    Streams.EveryStreamIsWellFormed(o, cfg, env, h, chunks, false);
  }

  // ----- thinking outside as_reasoning_content -----

  const BLOCK := "<think>a</think>"

  function BlockMembers(): seq<Member> { [Member("content", Str(BLOCK))] }

  lemma BlockValid()
    ensures ValidJson(Obj(BlockMembers())) && ChunkBorders.PlainKey(BlockMembers()[0].key)
  {
  }

  lemma BlockObjectRuns(o: Codec, cfg: Thinking.Config)
    requires Thinking.UsableTags(cfg.openTags)
    ensures OneObjectRun(o, cfg, EventParser.Content, Print(Obj(BlockMembers()), true))
  {
    BlockValid();
    EventParser.TableEntries();
    OneObjectRuns(o, cfg, BlockMembers(), 0, EventParser.Content);
  }

  lemma BlockProcessed(o: Codec, raw: string)
    requires o.decode(raw) == Some(map["content" := Str(BLOCK)]) && !o.same(Str(BLOCK), Null)
    ensures var (core, evs) := EventParser.Process(o, EventParser.EMPTY, EventParser.Content, raw);
      && core.calls == [] && core.current.None?
      && evs == [EventParser.Event(EventParser.Content, raw, map["content" := Str(BLOCK)])]
  {
  }

  lemma NoCallsReported(o: Codec, s: State)
    requires s.core.calls == [] && s.core.current.None?
    ensures FinalCalls(o, s) == []
  {
  }

  lemma OneContentString(ev: EventParser.Event, text: string)
    requires ev.kind.Content? && StringField(ev.value, "content") == text
    ensures EndToEnd.ContentStrings([ev]) == [text] && Concat([text]) == text
  {
    assert [ev][..0] == [] && [text][..0] == [];
    Associate([text], [], []);
    Associate(text, "", "");
  }

  lemma BlockRuns(o: Codec, cfg: Thinking.Config)
    requires Thinking.UsableTags(cfg.openTags)
    requires var raw := Print(Obj(BlockMembers()), true);
      o.decode(raw) == Some(map["content" := Str(BLOCK)]) && !o.same(Str(BLOCK), Null)
    ensures var chunks := [Print(Obj(BlockMembers()), true)];
      && FinalCalls(o, Run(o, cfg, chunks).0) == []
      && EndToEnd.ContentStrings(EventParser.Run(o, EventParser.EVENT_PATTERNS, chunks).2) == [BLOCK]
  {
    var raw := Print(Obj(BlockMembers()), true);
    BlockObjectRuns(o, cfg);
    BlockProcessed(o, raw);
    NoCallsReported(o, Run(o, cfg, [raw]).0);
    OneContentString(EventParser.Event(EventParser.Content, raw, map["content" := Str(BLOCK)]), BLOCK);
  }

  lemma BlockReads(h: Thinking.Handling, size: int)
    requires h == Thinking.Pass || h == Thinking.StripTags
    ensures Thinking.ValidTags(Thinking.DEFAULT_TAGS)
    ensures Thinking.ThinkingSpec(Thinking.Config(h, size, Thinking.DEFAULT_TAGS), BLOCK) ==
      if h == Thinking.Pass then BLOCK else "a"
  {
    Thinking.DefaultBlock(h, size);
    ClosedSpec(Thinking.Config(h, size, Thinking.DEFAULT_TAGS), BLOCK, "<think>", "a");
    BlockText();
  }

  lemma BlockText()
    ensures "<think>" + "a" + Thinking.CloseOf("<think>") == BLOCK
  {
    assert Thinking.CloseOf("<think>") == "</think>";
  }

  lemma ClosedSpec(cfg: Thinking.Config, text: string, tag: string, thought: string)
    requires Thinking.UsableTags(cfg.openTags) && tag != "" && thought != ""
    requires Thinking.Read(cfg, text) == Thinking.Closed(tag, thought, "")
    ensures cfg.handling == Thinking.Pass ==>
      Thinking.ThinkingSpec(cfg, text) == tag + thought + Thinking.CloseOf(tag)
    ensures cfg.handling == Thinking.StripTags ==> Thinking.ThinkingSpec(cfg, text) == thought
  {
  }

  /** In the modes pass and strip_tags the pipeline hands over the thinking of a content string, and the
      client is shown none of it. */
  lemma ThinkingIsDelivered(o: Codec, h: Thinking.Handling, size: int)
    requires h == Thinking.Pass || h == Thinking.StripTags
    requires var raw := Print(Obj(BlockMembers()), true);
      o.decode(raw) == Some(map["content" := Str(BLOCK)]) && !o.same(Str(BLOCK), Null)
    ensures Thinking.ValidTags(Thinking.DEFAULT_TAGS)
    ensures var cfg, chunks := Thinking.Config(h, size, Thinking.DEFAULT_TAGS), [Print(Obj(BlockMembers()), true)];
      && StringIds(FinalCalls(o, Run(o, cfg, chunks).0))
      && EndToEnd.SplitThinking(Events(o, cfg, chunks)) == (if h == Thinking.Pass then BLOCK else "a")
      && N.ShownThinking(EndToEnd.HandlerMode(h), Events(o, cfg, chunks)) == ""
  {
    var cfg, chunks := Thinking.Config(h, size, Thinking.DEFAULT_TAGS), [Print(Obj(BlockMembers()), true)];
    BlockReads(h, size);
    BlockRuns(o, cfg);
    OneText(BLOCK);
    EndToEnd.OtherModesDropThinking(o, cfg, chunks);
  }

  lemma OneText(text: string)
    ensures Concat([text]) == text
  {
    assert [text][..0] == [];
    Associate(text, "", "");
  }
}
