/** What a stream's tool calls become: the events, and the frames of a stream that is one tool call. */
module ToolReports {
  import opened Options
  import opened Text
  import Json
  import opened ToolCalls
  import opened Pipeline
  import opened Protocol
  import EventParser
  import ToolAssembly
  import ChunkBorders
  import Counterexamples
  import Thinking
  import Utf8
  import F = Formatter
  import Streams

  // ----- the tool events of any stream -----

  /** The tool calls among the events, in order. */
  function ToolEvents(evs: seq<KiroEvent>): seq<ToolUseData>
  {
    if evs == [] then []
    else
      var last := evs[|evs| - 1];
      ToolEvents(evs[..|evs| - 1]) + if last.ToolUse? then [last.tool] else []
  }

  lemma {:induction false} ToolEventsAppend(a: seq<KiroEvent>, b: seq<KiroEvent>)
    ensures ToolEvents(a + b) == ToolEvents(a) + ToolEvents(b)
    decreases |b|
  {
    if b == [] {
      assert a + b == a;
    } else {
      var front, last := b[..|b| - 1], b[|b| - 1];
      assert (a + b)[..|a + b| - 1] == a + front && (a + b)[|a + b| - 1] == last;
      ToolEventsAppend(a, front);
      Associate(ToolEvents(a), ToolEvents(front), if last.ToolUse? then [last.tool] else []);
    }
  }

  predicate NoTools(evs: seq<KiroEvent>) { forall i :: 0 <= i < |evs| ==> !evs[i].ToolUse? }

  lemma {:induction false} NoToolEvents(evs: seq<KiroEvent>)
    requires NoTools(evs)
    ensures ToolEvents(evs) == []
  {
    if evs != [] { NoToolEvents(evs[..|evs| - 1]); }
  }

  lemma NoToolsAppend(a: seq<KiroEvent>, b: seq<KiroEvent>)
    requires NoTools(a) && NoTools(b)
    ensures NoTools(a + b)
  {
  }

  lemma {:induction false} OnlyToolEvents(evs: seq<KiroEvent>)
    requires forall i :: 0 <= i < |evs| ==> evs[i].ToolUse?
    ensures |ToolEvents(evs)| == |evs| && forall i :: 0 <= i < |evs| ==> ToolEvents(evs)[i] == evs[i].tool
  {
    if evs != [] { OnlyToolEvents(evs[..|evs| - 1]); }
  }

  lemma LiftHasNoTools(cfg: Thinking.Config, fsm: Thinking.State, ev: EventParser.Event)
    requires Thinking.UsableTags(cfg.openTags)
    ensures NoTools(Lift(cfg, fsm, ev).1)
  {
  }

  lemma {:induction false} LiftedHasNoTools(cfg: Thinking.Config, fsm: Thinking.State, evs: seq<EventParser.Event>)
    requires Thinking.UsableTags(cfg.openTags)
    ensures NoTools(LiftAll(cfg, fsm, evs).1)
  {
    if evs != [] {
      var front, last := evs[..|evs| - 1], evs[|evs| - 1];
      LiftedHasNoTools(cfg, fsm, front);
      var (fsm1, before) := LiftAll(cfg, fsm, front);
      LiftHasNoTools(cfg, fsm1, last);
      NoToolsAppend(before, Lift(cfg, fsm1, last).1);
    }
  }

  lemma FeedHasNoTools(o: Codec, cfg: Thinking.Config, s: State, x: string)
    requires Thinking.UsableTags(cfg.openTags)
    ensures NoTools(Feed(o, cfg, s, x).1)
  {
    var (_, core, parsed) := EventParser.Feed(o, EventParser.EVENT_PATTERNS, s.buffer, s.core, x);
    LiftedHasNoTools(cfg, s.fsm, parsed);
    NoToolsAppend(LiftAll(cfg, s.fsm, parsed).1, Diagnoses(core));
  }

  lemma {:induction false} RunHasNoTools(o: Codec, cfg: Thinking.Config, chunks: seq<string>)
    requires Thinking.UsableTags(cfg.openTags)
    ensures NoTools(Run(o, cfg, chunks).1)
  {
    if chunks != [] {
      var front, x := chunks[..|chunks| - 1], chunks[|chunks| - 1];
      RunHasNoTools(o, cfg, front);
      var (s, evs) := Run(o, cfg, front);
      FeedHasNoTools(o, cfg, s, x);
      NoToolsAppend(evs, Feed(o, cfg, s, x).1);
    }
  }

  /** `tool` reports the call `tc`: its id and name, the object its arguments decode to, or an empty one. */
  predicate Reports(o: Codec, tc: ToolCall, tool: ToolUseData)
  {
    && tc.id == Json.Str(tool.id)
    && (if tc.name.Str? then tc.name.s == tool.name else tool.name == "")
    && (match o.decode(tc.arguments) case Some(v) => tool.input == v case None => tool.input == map[])
    && tool.truncation == tc.truncated
  }

  /** `tools` report `calls`, one by one and in order. */
  predicate ReportAll(o: Codec, calls: seq<ToolCall>, tools: seq<ToolUseData>)
  {
    |tools| == |calls| && forall i :: 0 <= i < |calls| ==> Reports(o, calls[i], tools[i])
  }

  lemma UsesReport(o: Codec, calls: seq<ToolCall>)
    requires StringIds(calls)
    ensures ReportAll(o, calls, ToolEvents(ToolUses(o, calls)))
  {
    OnlyToolEvents(ToolUses(o, calls));
  }

  lemma Between(all: seq<KiroEvent>, a: seq<KiroEvent>, b: seq<KiroEvent>, c: seq<KiroEvent>)
    requires ToolEvents(a) == [] && ToolEvents(c) == [] && all == a + b + c
    ensures ToolEvents(all) == ToolEvents(b)
  {
    ToolEventsAppend(a, b);
    ToolEventsAppend(a + b, c);
    Associate([], ToolEvents(b), []);
    Associate(ToolEvents(b), [], []);
  }

  lemma TextsAndDiagnoses(thinking: string, content: string, core: EventParser.Core)
    ensures ToolEvents(NonEmpty(thinking, content)) == [] && ToolEvents(Diagnoses(core)) == []
  {
    NoToolEvents(NonEmpty(thinking, content));
    NoToolEvents(Diagnoses(core));
  }

  lemma FinishReports(o: Codec, cfg: Thinking.Config, s: State, last: seq<KiroEvent>, uses: seq<KiroEvent>)
    requires StringIds(FinalCalls(o, s)) && last == Finish(o, cfg, s) && uses == ToolUses(o, FinalCalls(o, s))
    ensures ToolEvents(last) == ToolEvents(uses)
  {
    var (thinking, content) := Thinking.Finish(cfg, s.fsm);
    var core := EventParser.Finalize(o, s.core);
    TextsAndDiagnoses(thinking, content, core);
    Between(last, NonEmpty(thinking, content), uses, Diagnoses(core));
  }

  lemma EventsReport(o: Codec, cfg: Thinking.Config, s: State, evs: seq<KiroEvent>)
    requires StringIds(FinalCalls(o, s)) && ToolEvents(evs) == []
    ensures ReportAll(o, FinalCalls(o, s), ToolEvents(evs + Finish(o, cfg, s)))
  {
    var last, uses := Finish(o, cfg, s), ToolUses(o, FinalCalls(o, s));
    FinishReports(o, cfg, s, last, uses);
    UsesReport(o, FinalCalls(o, s));
    ToolEventsAppend(evs, last);
    assert [] + ToolEvents(uses) == ToolEvents(uses);
  }

  /** The tool events of a stream report the pipeline's calls. */
  lemma CallsAreReported(o: Codec, cfg: Thinking.Config, chunks: seq<string>)
    requires Thinking.UsableTags(cfg.openTags)
    requires StringIds(FinalCalls(o, Run(o, cfg, chunks).0))
    ensures ReportAll(o, FinalCalls(o, Run(o, cfg, chunks).0), ToolEvents(Events(o, cfg, chunks)))
  {
    RunHasNoTools(o, cfg, chunks);
    NoToolEvents(Run(o, cfg, chunks).1);
    EventsReport(o, cfg, Run(o, cfg, chunks).0, Run(o, cfg, chunks).1);
  }

  // ----- a stream that is one tool call -----

  /** The objects of a stream are a start, fragments and a stop that together give the call `id`, `name`,
      whose argument text decodes to `input`. */
  predicate OneCall(o: Codec, cuts: seq<EventParser.Cut>, frags: seq<EventParser.Cut>, id: string, name: string,
                    input: Fields)
  {
    && |cuts| >= 2 && cuts == [cuts[0]] + frags + [cuts[|cuts| - 1]]
    && ToolAssembly.Starts(o, cuts[0]) && ToolAssembly.Stops(o, cuts[|cuts| - 1])
    && (forall i :: 0 <= i < |frags| ==> ToolAssembly.Continues(o, frags[i]))
    && (var v := o.decode(cuts[0].raw).value;
        && "toolUseId" in v && v["toolUseId"] == Json.Str(id) && "name" in v && v["name"] == Json.Str(name))
    && (var args := o.argText(cuts[0].raw) + ToolAssembly.ArgTexts(o, frags);
        && !o.blank(args) && o.reformat(args).Some? && o.decode(o.reformat(args).value) == Some(input))
  }

  /** `calls` is one call with these parts. */
  predicate Made(o: Codec, calls: seq<ToolCall>, id: string, name: string, input: Fields)
  {
    |calls| == 1 && calls[0].id == Json.Str(id) && calls[0].name == Json.Str(name)
    && o.decode(calls[0].arguments) == Some(input) && calls[0].truncated.None?
  }

  lemma OneCallMade(o: Codec, cuts: seq<EventParser.Cut>, frags: seq<EventParser.Cut>, id: string, name: string,
                    input: Fields, s: State)
    requires OneCall(o, cuts, frags, id, name, input)
    requires s.core == EventParser.ProcessAll(o, EventParser.EMPTY, cuts).0
    ensures EventParser.ProcessAll(o, EventParser.EMPTY, cuts).1 == []
    ensures Made(o, FinalCalls(o, s), id, name, input)
  {
    ToolAssembly.CallAssembled(o, EventParser.EMPTY, cuts[0], frags, cuts[|cuts| - 1]);
    Counterexamples.OneCallReported(o, s, s.core.calls);
  }

  lemma FinishIsTools(o: Codec, cfg: Thinking.Config, s: State)
    requires s.fsm == Thinking.INITIAL && StringIds(FinalCalls(o, s))
    ensures Finish(o, cfg, s) == ToolUses(o, FinalCalls(o, s)) + Diagnoses(EventParser.Finalize(o, s.core))
  {
    var uses := ToolUses(o, FinalCalls(o, s));
    assert NonEmpty("", "") + uses == uses;
  }

  lemma VisibleTools(o: Codec, calls: seq<ToolCall>, rest: seq<KiroEvent>)
    requires |calls| == 1 && calls[0].id.Str? && Visible(rest) == []
    ensures Visible(ToolUses(o, calls) + rest) == [ToolUse(ToToolUse(o, calls[0]))]
  {
    var use := ToolUse(ToToolUse(o, calls[0]));
    assert ToolUses(o, calls) == [use];
    OneThenNothing(use, rest);
  }

  lemma OneThenNothing(ev: KiroEvent, rest: seq<KiroEvent>)
    requires !ev.Diagnosis? && Visible(rest) == []
    ensures Visible([ev] + rest) == [ev]
  {
    VisibleAppend([ev], rest);
    VisibleAll([ev]);
    Associate([ev], [], []);
  }

  lemma NothingBefore(evs: seq<KiroEvent>, last: seq<KiroEvent>)
    requires Visible(evs) == []
    ensures Visible(evs + last) == Visible(last)
  {
    VisibleAppend(evs, last);
    Associate([], Visible(last), []);
  }

  lemma OnlyTheCall(evs: seq<KiroEvent>, o: Codec, cfg: Thinking.Config, s: State, calls: seq<ToolCall>)
    requires Visible(evs) == [] && s.fsm == Thinking.INITIAL && calls == FinalCalls(o, s)
    requires |calls| == 1 && calls[0].id.Str?
    ensures Visible(evs + Finish(o, cfg, s)) == [ToolUse(ToToolUse(o, calls[0]))]
  {
    var rest := Diagnoses(EventParser.Finalize(o, s.core));
    NothingBefore(evs, Finish(o, cfg, s));
    FinishIsTools(o, cfg, s);
    DiagnosesInvisible(EventParser.Finalize(o, s.core));
    VisibleTools(o, calls, rest);
  }

  /** The frames of a message that is one tool call. */
  function CallFrames(id: string, name: string, json: string): seq<Frame>
  {
    [MessageStart, BlockStart(0, ToolBlock(id, name)), BlockDelta(0, JsonDelta(json)), BlockStop(0),
     MessageDelta("tool_use"), MessageStop]
  }

  lemma ToolFramed(env: F.Env, h: F.ThinkingHandling, tool: ToolUseData)
    requires env.brackets("") == [] && tool.id != ""
    ensures F.Frames(env, h, [ToolUse(tool)]) == CallFrames(tool.id, tool.name, env.dump(tool.input))
  {
    var none: seq<KiroEvent> := [];
    assert [ToolUse(tool)][..0] == none;
    assert F.HandleAll(env, h, none) == (F.START, []);
  }

  /** A stream whose objects give no event leaves the thinking parser alone. */
  lemma SilentRun(o: Codec, cfg: Thinking.Config, chunks: seq<string>, core: EventParser.Core)
    requires Thinking.UsableTags(cfg.openTags)
    requires var (_, c, evs) := EventParser.Run(o, EventParser.EVENT_PATTERNS, chunks); c == core && evs == []
    ensures var (s, evs) := Run(o, cfg, chunks); Visible(evs) == [] && s.fsm == Thinking.INITIAL && s.core == core
  {
    RunVisible(o, cfg, chunks);
  }

  lemma CallPending(o: Codec, cfg: Thinking.Config, chunks: seq<string>, cuts: seq<EventParser.Cut>,
                    frags: seq<EventParser.Cut>, id: string, name: string, input: Fields)
    requires Thinking.UsableTags(cfg.openTags) && OneCall(o, cuts, frags, id, name, input)
    requires var (_, c, evs) := EventParser.Run(o, EventParser.EVENT_PATTERNS, chunks);
      (c, evs) == EventParser.ProcessAll(o, EventParser.EMPTY, cuts)
    ensures var (s, evs) := Run(o, cfg, chunks);
      Made(o, FinalCalls(o, s), id, name, input) && Visible(evs) == [] && s.fsm == Thinking.INITIAL
  {
    var core := EventParser.ProcessAll(o, EventParser.EMPTY, cuts).0;
    OneCallMade(o, cuts, frags, id, name, input, State("", core, Thinking.INITIAL));
    SilentRun(o, cfg, chunks, core);
    OneCallMade(o, cuts, frags, id, name, input, Run(o, cfg, chunks).0);
  }

  lemma MadeIs(o: Codec, calls: seq<ToolCall>, id: string, name: string, input: Fields)
    requires Made(o, calls, id, name, input)
    ensures StringIds(calls) && ToToolUse(o, calls[0]) == ToolUseData(id, name, input, None)
  {
  }

  lemma CallEvents(o: Codec, cfg: Thinking.Config, chunks: seq<string>, cuts: seq<EventParser.Cut>,
                   frags: seq<EventParser.Cut>, id: string, name: string, input: Fields)
    requires Thinking.UsableTags(cfg.openTags) && OneCall(o, cuts, frags, id, name, input)
    requires var (_, c, evs) := EventParser.Run(o, EventParser.EVENT_PATTERNS, chunks);
      (c, evs) == EventParser.ProcessAll(o, EventParser.EMPTY, cuts)
    ensures StringIds(FinalCalls(o, Run(o, cfg, chunks).0))
    ensures Visible(Events(o, cfg, chunks)) == [ToolUse(ToolUseData(id, name, input, None))]
  {
    CallPending(o, cfg, chunks, cuts, frags, id, name, input);
    var (s, evs) := Run(o, cfg, chunks);
    MadeIs(o, FinalCalls(o, s), id, name, input);
    OnlyTheCall(evs, o, cfg, s, FinalCalls(o, s));
  }

  lemma CallShown(o: Codec, cfg: Thinking.Config, env: F.Env, h: F.ThinkingHandling, chunks: seq<string>,
                  tool: ToolUseData)
    requires Thinking.UsableTags(cfg.openTags) && StringIds(FinalCalls(o, Run(o, cfg, chunks).0))
    requires Visible(Events(o, cfg, chunks)) == [ToolUse(tool)] && env.brackets("") == [] && tool.id != ""
    ensures Streams.Sent(o, cfg, env, h, chunks, false) == CallFrames(tool.id, tool.name, env.dump(tool.input))
  {
    VisibleAll([ToolUse(tool)]);
    Streams.SameFrames(env, h, Events(o, cfg, chunks), [ToolUse(tool)]);
    ToolFramed(env, h, tool);
  }

  /** Noise around the objects of one tool call, in chunks that cut no character: the client gets one tool
      block with the call's id and name and the printed form of its decoded arguments, and nothing else. */
  lemma CallReachesClient(o: Codec, cfg: Thinking.Config, env: F.Env, h: F.ThinkingHandling,
                          pieces: seq<EventParser.Piece>, ascii: bool, tail: string, chunks: seq<string>,
                          frags: seq<EventParser.Cut>, id: string, name: string, input: Fields)
    requires Thinking.UsableTags(cfg.openTags) && EventParser.BraceFree(tail)
    requires forall i :: 0 <= i < |pieces| ==> EventParser.GoodPiece(EventParser.EVENT_PATTERNS, pieces[i], ascii)
    requires Utf8.Whole(chunks) && Utf8.Clean(Concat(chunks)) == EventParser.Stream(pieces, ascii, tail)
    requires OneCall(o, EventParser.Objects(EventParser.EVENT_PATTERNS, pieces, ascii), frags, id, name, input)
    requires id != "" && env.brackets("") == []
    ensures Streams.Sent(o, cfg, env, h, chunks, false) == CallFrames(id, name, env.dump(input))
  {
    ChunkBorders.StreamGivesObjects(o, pieces, ascii, tail, chunks);
    CallEvents(o, cfg, chunks, EventParser.Objects(EventParser.EVENT_PATTERNS, pieces, ascii), frags, id, name, input);
    CallShown(o, cfg, env, h, chunks, ToolUseData(id, name, input, None));
  }

  // ----- all calls and all events of any stream -----

  /** The objects of a stream, cut by cut. */
  function ObjectsOf(chunks: seq<string>): seq<EventParser.Cut>
  {
    EventParser.CutAll(EventParser.EVENT_PATTERNS, Utf8.CleanEach(chunks)).1
  }

  lemma StreamObjects(o: Codec, chunks: seq<string>)
    ensures var (_, core, evs) := EventParser.Run(o, EventParser.EVENT_PATTERNS, chunks);
      (core, evs) == EventParser.ProcessAll(o, EventParser.EMPTY, ObjectsOf(chunks))
  {
    EventParser.EventPatternsGood();
    EventParser.RunIsDrain(o, EventParser.EVENT_PATTERNS, chunks);
  }

  /** For every stream: the calls are those of its starts with their fragments, deduplicated, and the events
      before the pipeline are those its objects report. */
  lemma StreamIsAssembled(o: Codec, cfg: Thinking.Config, chunks: seq<string>)
    requires Thinking.UsableTags(cfg.openTags)
    ensures var (s, cuts) := (Run(o, cfg, chunks).0, ObjectsOf(chunks));
      var calls := ToolAssembly.CallsOf(o, ToolAssembly.Assemblies(o, cuts));
      && FinalCalls(o, s) == Dedup(o, calls)
      && EventParser.Finalize(o, s.core).truncation == ToolAssembly.LastReason(calls)
      && EventParser.Run(o, EventParser.EVENT_PATTERNS, chunks).2 == ToolAssembly.Reported(o, cuts)
  {
    StreamObjects(o, chunks);
    RunVisible(o, cfg, chunks);
    ToolAssembly.CallsAreAssemblies(o, ObjectsOf(chunks));
    ToolAssembly.EventsAreReported(o, ObjectsOf(chunks));
  }

  // ----- the diagnosis -----

  lemma ReasonStays(o: Codec, s: EventParser.Core, kind: EventParser.Kind, raw: string)
    ensures s.truncation.Some? ==> EventParser.Process(o, s, kind, raw).0.truncation.Some?
    ensures s.truncation.Some? ==> EventParser.Finalize(o, s).truncation.Some?
  {
  }

  lemma {:induction false} ReasonsStay(o: Codec, s: EventParser.Core, cuts: seq<EventParser.Cut>)
    ensures s.truncation.Some? ==> EventParser.ProcessAll(o, s, cuts).0.truncation.Some?
  {
    if cuts != [] {
      var front, last := cuts[..|cuts| - 1], cuts[|cuts| - 1];
      ReasonsStay(o, s, front);
      ReasonStays(o, EventParser.ProcessAll(o, s, front).0, last.kind, last.raw);
    }
  }

  lemma FeedDiagnoses(o: Codec, cfg: Thinking.Config, s: State, x: string)
    requires Thinking.UsableTags(cfg.openTags)
    ensures var (s', now) := Feed(o, cfg, s, x);
      && (s.core.truncation.Some? ==> s'.core.truncation.Some?)
      && (s'.core.truncation.None? ==> NoDiagnosis(now))
  {
    var (left, cuts) := EventParser.CutAll(EventParser.EVENT_PATTERNS, s.buffer + Utf8.Clean(x));
    var (_, core, parsed) := EventParser.Feed(o, EventParser.EVENT_PATTERNS, s.buffer, s.core, x);
    ReasonsStay(o, s.core, cuts);
    LiftAllVisible(cfg, s.fsm, parsed);
    if core.truncation.None? { NoDiagnosisAppend(LiftAll(cfg, s.fsm, parsed).1, Diagnoses(core)); }
  }

  lemma {:induction false} RunDiagnoses(o: Codec, cfg: Thinking.Config, chunks: seq<string>)
    requires Thinking.UsableTags(cfg.openTags)
    ensures var (s, evs) := Run(o, cfg, chunks); s.core.truncation.None? ==> NoDiagnosis(evs)
  {
    if chunks != [] {
      var front, x := chunks[..|chunks| - 1], chunks[|chunks| - 1];
      RunDiagnoses(o, cfg, front);
      var (s, evs) := Run(o, cfg, front);
      FeedDiagnoses(o, cfg, s, x);
      if NoDiagnosis(evs) && NoDiagnosis(Feed(o, cfg, s, x).1) { NoDiagnosisAppend(evs, Feed(o, cfg, s, x).1); }
    }
  }

  lemma NoneDiagnosed(thinking: string, content: string, o: Codec, calls: seq<ToolCall>)
    requires StringIds(calls)
    ensures NoDiagnosis(NonEmpty(thinking, content)) && NoDiagnosis(ToolUses(o, calls))
  {
  }

  lemma DiagnosisEnds(last: seq<KiroEvent>, texts: seq<KiroEvent>, uses: seq<KiroEvent>, core: EventParser.Core)
    requires NoDiagnosis(texts) && NoDiagnosis(uses) && last == texts + uses + Diagnoses(core)
    ensures if core.truncation.Some? then last != [] && last[|last| - 1] == Diagnosis(core.truncation.value)
            else NoDiagnosis(last)
  {
    NoDiagnosisAppend(texts, uses);
    if core.truncation.None? { assert last == texts + uses; }
  }

  lemma FinishDiagnoses(o: Codec, cfg: Thinking.Config, s: State, last: seq<KiroEvent>)
    requires StringIds(FinalCalls(o, s)) && last == Finish(o, cfg, s)
    ensures var reason := EventParser.Finalize(o, s.core).truncation;
      if reason.Some? then last != [] && last[|last| - 1] == Diagnosis(reason.value) else NoDiagnosis(last)
  {
    var (thinking, content) := Thinking.Finish(cfg, s.fsm);
    NoneDiagnosed(thinking, content, o, FinalCalls(o, s));
    DiagnosisEnds(last, NonEmpty(thinking, content), ToolUses(o, FinalCalls(o, s)), EventParser.Finalize(o, s.core));
  }

  /** A stream's last event is the diagnosis of the last call that was truncated; without one there is no
      diagnosis at all. */
  lemma DiagnosisIff(o: Codec, cfg: Thinking.Config, chunks: seq<string>)
    requires Thinking.UsableTags(cfg.openTags)
    requires StringIds(FinalCalls(o, Run(o, cfg, chunks).0))
    ensures var calls := ToolAssembly.CallsOf(o, ToolAssembly.Assemblies(o, ObjectsOf(chunks)));
      var reason := ToolAssembly.LastReason(calls);
      var evs := Events(o, cfg, chunks);
      if reason.Some? then evs != [] && evs[|evs| - 1] == Diagnosis(reason.value) else NoDiagnosis(evs)
  {
    var (s, evs) := Run(o, cfg, chunks);
    StreamIsAssembled(o, cfg, chunks);
    RunDiagnoses(o, cfg, chunks);
    FinishDiagnoses(o, cfg, s, Finish(o, cfg, s));
    ReasonStays(o, s.core, EventParser.Content, "");
    if EventParser.Finalize(o, s.core).truncation.None? { NoDiagnosisAppend(evs, Finish(o, cfg, s)); }
  }
}
