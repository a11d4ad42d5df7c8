/** The pipeline as a function: parser events pass through the thinking parser and become the unified
    events the formatters consume. Main results: no thinking event ever follows a content event, and
    the events do not depend on how the byte stream is cut into chunks. */
module Pipeline {
  import opened Options
  import opened Text
  import opened ToolCalls
  import EventParser
  import Thinking
  import Utf8

  datatype ToolUseData = ToolUseData(id: string, name: string, input: Fields, truncation: Option<string>)

  /** streamingcore.KiroEvent. */
  datatype KiroEvent =
    | Content(text: string)
    | Thinking(text: string)
    | ToolUse(tool: ToolUseData)
    | Usage(raw: string)
    | ContextUsage(percent: string)
    | Refusal
    | NativeThinking(text: string)
    | Signature(signature: string)
    | Redacted(data: string)
    | Diagnosis(reason: string)   // Kind "error"

  /** A string field, or "" when it is absent or of another type. */
  function StringField(v: Fields, key: string): string
  {
    if Field(v, key).Str? then Field(v, key).s else ""
  }

  function NonEmpty(thinking: string, content: string): seq<KiroEvent>
  {
    (if thinking != "" then [Thinking(thinking)] else []) + (if content != "" then [Content(content)] else [])
  }

  /** What one parser event becomes. */
  function Lift(cfg: Thinking.Config, fsm: Thinking.State, ev: EventParser.Event): (Thinking.State, seq<KiroEvent>)
    requires Thinking.UsableTags(cfg.openTags)
  {
    var v := ev.value;
    match ev.kind
    case Content =>
      var (fsm', thinking, content) := Thinking.Feed(cfg, fsm, StringField(v, "content"));
      (fsm', NonEmpty(thinking, content))
    case Usage => (fsm, [Usage(ev.raw)])
    case ContextUsage =>
      var c := Field(v, "contextUsagePercentage");
      (fsm, if c.Num? then [ContextUsage(c.text)] else [])
    case ReasoningText =>
      (fsm, if StringField(v, "text") != "" then [NativeThinking(StringField(v, "text"))] else [])
    case ReasoningSignature =>
      (fsm, if StringField(v, "signature") != "" then [Signature(StringField(v, "signature"))] else [])
    case ReasoningRedacted =>
      (fsm, if StringField(v, "redactedContent") != "" then [Redacted(StringField(v, "redactedContent"))] else [])
    case Metadata => (fsm, [Refusal])
    case _ => (fsm, [])
  }

  function LiftAll(cfg: Thinking.Config, fsm: Thinking.State, evs: seq<EventParser.Event>)
    : (Thinking.State, seq<KiroEvent>)
    requires Thinking.UsableTags(cfg.openTags)
  {
    if evs == [] then (fsm, [])
    else
      var n := |evs| - 1;
      var (fsm1, before) := LiftAll(cfg, fsm, evs[..n]);
      var (fsm2, now) := Lift(cfg, fsm1, evs[n]);
      (fsm2, before + now)
  }

  datatype State = State(buffer: string, core: EventParser.Core, fsm: Thinking.State)

  const START := State("", EventParser.EMPTY, Thinking.INITIAL)

  function Diagnoses(core: EventParser.Core): seq<KiroEvent>
  {
    if core.truncation.Some? then [Diagnosis(core.truncation.value)] else []
  }

  /** Pipeline.Feed. */
  function Feed(o: Codec, cfg: Thinking.Config, s: State, chunk: string): (State, seq<KiroEvent>)
    requires Thinking.UsableTags(cfg.openTags)
  {
    var (buf, core, evs) := EventParser.Feed(o, EventParser.EVENT_PATTERNS, s.buffer, s.core, chunk);
    var (fsm, lifted) := LiftAll(cfg, s.fsm, evs);
    (State(buf, core, fsm), lifted + Diagnoses(core))
  }

  /** extractToolUseData asserts that the id is a string: the call panics on any other id. */
  predicate StringIds(calls: seq<ToolCall>) { forall i :: 0 <= i < |calls| ==> calls[i].id.Str? }

  function ToToolUse(o: Codec, tc: ToolCall): ToolUseData
    requires tc.id.Str?
  {
    var input := o.decode(tc.arguments);
    ToolUseData(tc.id.s, if tc.name.Str? then tc.name.s else "", if input.Some? then input.value else map[],
                tc.truncated)
  }

  function ToolUses(o: Codec, calls: seq<ToolCall>): (r: seq<KiroEvent>)
    requires StringIds(calls)
    ensures |r| == |calls| && forall i :: 0 <= i < |r| ==> r[i] == ToolUse(ToToolUse(o, calls[i]))
  {
    seq(|calls|, i requires 0 <= i < |calls| => ToolUse(ToToolUse(o, calls[i])))
  }

  /** The tool calls Pipeline.Finish reports. */
  ghost function FinalCalls(o: Codec, s: State): seq<ToolCall>
  {
    Dedup(o, EventParser.Finalize(o, s.core).calls)
  }

  /** Pipeline.Finish. */
  ghost function Finish(o: Codec, cfg: Thinking.Config, s: State): seq<KiroEvent>
    requires StringIds(FinalCalls(o, s))
  {
    var (thinking, content) := Thinking.Finish(cfg, s.fsm);
    NonEmpty(thinking, content) + ToolUses(o, FinalCalls(o, s)) + Diagnoses(EventParser.Finalize(o, s.core))
  }

  /** Feeding a list of chunks to a new pipeline. */
  function Run(o: Codec, cfg: Thinking.Config, chunks: seq<string>): (State, seq<KiroEvent>)
    requires Thinking.UsableTags(cfg.openTags)
  {
    if chunks == [] then (START, [])
    else
      var (s, evs) := Run(o, cfg, chunks[..|chunks| - 1]);
      var (s', now) := Feed(o, cfg, s, chunks[|chunks| - 1]);
      (s', evs + now)
  }

  /** All events of a stream: every Feed, then Finish. */
  ghost function Events(o: Codec, cfg: Thinking.Config, chunks: seq<string>): seq<KiroEvent>
    requires Thinking.UsableTags(cfg.openTags)
    requires StringIds(FinalCalls(o, Run(o, cfg, chunks).0))
  {
    Run(o, cfg, chunks).1 + Finish(o, cfg, Run(o, cfg, chunks).0)
  }

  // ----- thinking before content -----

  ghost predicate HasContent(evs: seq<KiroEvent>) { exists i :: 0 <= i < |evs| && evs[i].Content? }

  ghost predicate HasThinking(evs: seq<KiroEvent>) { exists i :: 0 <= i < |evs| && evs[i].Thinking? }

  /** No thinking event follows a content event. */
  ghost predicate ThinkingFirst(evs: seq<KiroEvent>)
  {
    forall i, j :: 0 <= i < j < |evs| && evs[i].Content? ==> !evs[j].Thinking?
  }

  lemma Append(a: seq<KiroEvent>, b: seq<KiroEvent>)
    requires ThinkingFirst(a) && ThinkingFirst(b) && (HasContent(a) ==> !HasThinking(b))
    ensures ThinkingFirst(a + b)
    ensures HasContent(a + b) <==> HasContent(a) || HasContent(b)
  {
    var c := a + b;
    if HasContent(a) { var i :| 0 <= i < |a| && a[i].Content?; assert c[i].Content?; }
    if HasContent(b) { var i :| 0 <= i < |b| && b[i].Content?; assert c[|a| + i].Content?; }
    forall i, j | 0 <= i < j < |c| && c[i].Content? ensures !c[j].Thinking? {
      if i < |a| <= j { assert a[i].Content?; assert b[j - |a|] == c[j]; }
    }
  }

  /** Content is only emitted in, or on entering, the streaming phase; that phase emits no thinking. */
  ghost predicate Ordered(fsm: Thinking.State, evs: seq<KiroEvent>)
  {
    ThinkingFirst(evs) && (HasContent(evs) ==> fsm.phase == Thinking.Streaming)
  }

  lemma LiftOrdered(cfg: Thinking.Config, fsm: Thinking.State, ev: EventParser.Event)
    requires Thinking.UsableTags(cfg.openTags)
    ensures var (fsm', now) := Lift(cfg, fsm, ev);
      && Ordered(fsm', now)
      && (fsm.phase == Thinking.Streaming ==> fsm'.phase == Thinking.Streaming && !HasThinking(now))
  {
    Thinking.ContentEndsThinking(cfg, fsm, StringField(ev.value, "content"));
  }

  lemma {:induction false} LiftAllOrdered(cfg: Thinking.Config, fsm: Thinking.State, evs: seq<EventParser.Event>)
    requires Thinking.UsableTags(cfg.openTags)
    ensures var (fsm', all) := LiftAll(cfg, fsm, evs);
      && Ordered(fsm', all)
      && (fsm.phase == Thinking.Streaming ==> fsm'.phase == Thinking.Streaming && !HasThinking(all))
  {
    if evs != [] {
      var n := |evs| - 1;
      LiftAllOrdered(cfg, fsm, evs[..n]);
      var (fsm1, before) := LiftAll(cfg, fsm, evs[..n]);
      LiftOrdered(cfg, fsm1, evs[n]);
      var (fsm2, now) := Lift(cfg, fsm1, evs[n]);
      Append(before, now);
      NoThinkingAppend(before, now);
    }
  }

  lemma NoThinkingAppend(a: seq<KiroEvent>, b: seq<KiroEvent>)
    ensures HasThinking(a + b) ==> HasThinking(a) || HasThinking(b)
  {
    if HasThinking(a + b) {
      var i :| 0 <= i < |a + b| && (a + b)[i].Thinking?;
      if i < |a| { assert a[i].Thinking?; } else { assert b[i - |a|].Thinking?; }
    }
  }

  lemma {:induction false} RunOrdered(o: Codec, cfg: Thinking.Config, chunks: seq<string>)
    requires Thinking.UsableTags(cfg.openTags)
    ensures Ordered(Run(o, cfg, chunks).0.fsm, Run(o, cfg, chunks).1)
  {
    if chunks != [] {
      var before, x := chunks[..|chunks| - 1], chunks[|chunks| - 1];
      RunOrdered(o, cfg, before);
      var (s, evs) := Run(o, cfg, before);
      FeedOrdered(o, cfg, s, x);
      Append(evs, Feed(o, cfg, s, x).1);
    }
  }

  lemma FeedOrdered(o: Codec, cfg: Thinking.Config, s: State, x: string)
    requires Thinking.UsableTags(cfg.openTags)
    ensures var (s', now) := Feed(o, cfg, s, x);
      && Ordered(s'.fsm, now)
      && (s.fsm.phase == Thinking.Streaming ==> s'.fsm.phase == Thinking.Streaming && !HasThinking(now))
  {
    var (_, core, evs) := EventParser.Feed(o, EventParser.EVENT_PATTERNS, s.buffer, s.core, x);
    LiftAllOrdered(cfg, s.fsm, evs);
    var lifted := LiftAll(cfg, s.fsm, evs).1;
    Append(lifted, Diagnoses(core));
    NoThinkingAppend(lifted, Diagnoses(core));
  }

  /** For every byte stream, every chunking and every decoder: no thinking event follows a content
      event, in what Feed returns and in what Finish adds. */
  lemma ThinkingBeforeContent(o: Codec, cfg: Thinking.Config, chunks: seq<string>)
    requires Thinking.UsableTags(cfg.openTags)
    requires StringIds(FinalCalls(o, Run(o, cfg, chunks).0))
    ensures ThinkingFirst(Events(o, cfg, chunks))
  {
    var (s, evs) := Run(o, cfg, chunks);
    RunOrdered(o, cfg, chunks);
    FinishOrdered(o, cfg, s);
    Append(evs, Finish(o, cfg, s));
  }

  lemma FinishOrdered(o: Codec, cfg: Thinking.Config, s: State)
    requires StringIds(FinalCalls(o, s))
    ensures ThinkingFirst(Finish(o, cfg, s))
    ensures s.fsm.phase == Thinking.Streaming ==> !HasThinking(Finish(o, cfg, s))
  {
    var (thinking, content) := Thinking.Finish(cfg, s.fsm);
    var tools, diagnoses := ToolUses(o, FinalCalls(o, s)), Diagnoses(EventParser.Finalize(o, s.core));
    Append(NonEmpty(thinking, content), tools);
    NoThinkingAppend(NonEmpty(thinking, content), tools);
    Append(NonEmpty(thinking, content) + tools, diagnoses);
    NoThinkingAppend(NonEmpty(thinking, content) + tools, diagnoses);
  }

  // ----- chunk borders do not matter -----

  /** The events without the diagnoses, which repeat with every Feed after a truncation. */
  function Visible(evs: seq<KiroEvent>): seq<KiroEvent>
  {
    if evs == [] then []
    else
      var n := |evs| - 1;
      Visible(evs[..n]) + if evs[n].Diagnosis? then [] else [evs[n]]
  }

  lemma {:induction false} VisibleAppend(a: seq<KiroEvent>, b: seq<KiroEvent>)
    ensures Visible(a + b) == Visible(a) + Visible(b)
  {
    if b == [] {
      assert a + b == a;
    } else {
      var n := |b| - 1;
      assert (a + b)[..|a| + n] == a + b[..n] && (a + b)[|a| + n] == b[n];
      VisibleAppend(a, b[..n]);
      Associate(Visible(a), Visible(b[..n]), if b[n].Diagnosis? then [] else [b[n]]);
    }
  }

  predicate NoDiagnosis(evs: seq<KiroEvent>) { forall i :: 0 <= i < |evs| ==> !evs[i].Diagnosis? }

  lemma NoDiagnosisAppend(a: seq<KiroEvent>, b: seq<KiroEvent>)
    requires NoDiagnosis(a) && NoDiagnosis(b)
    ensures NoDiagnosis(a + b)
  {
  }

  lemma {:induction false} VisibleAll(evs: seq<KiroEvent>)
    requires NoDiagnosis(evs)
    ensures Visible(evs) == evs
  {
    if evs != [] {
      VisibleAll(evs[..|evs| - 1]);
      assert evs == evs[..|evs| - 1] + [evs[|evs| - 1]];
    }
  }

  lemma {:induction false} LiftAllVisible(cfg: Thinking.Config, fsm: Thinking.State, evs: seq<EventParser.Event>)
    requires Thinking.UsableTags(cfg.openTags)
    ensures NoDiagnosis(LiftAll(cfg, fsm, evs).1)
  {
    if evs != [] {
      var n := |evs| - 1;
      LiftAllVisible(cfg, fsm, evs[..n]);
      var (fsm1, before) := LiftAll(cfg, fsm, evs[..n]);
      LiftVisible(cfg, fsm1, evs[n]);
      NoDiagnosisAppend(before, Lift(cfg, fsm1, evs[n]).1);
    }
  }

  lemma LiftVisible(cfg: Thinking.Config, fsm: Thinking.State, ev: EventParser.Event)
    requires Thinking.UsableTags(cfg.openTags)
    ensures NoDiagnosis(Lift(cfg, fsm, ev).1)
  {
  }

  lemma LiftAllOne(cfg: Thinking.Config, fsm: Thinking.State, evs: seq<EventParser.Event>, ev: EventParser.Event)
    requires Thinking.UsableTags(cfg.openTags)
    ensures var (fsm1, before) := LiftAll(cfg, fsm, evs); var (fsm2, now) := Lift(cfg, fsm1, ev);
      LiftAll(cfg, fsm, evs + [ev]) == (fsm2, before + now)
  {
    assert (evs + [ev])[..|evs|] == evs;
  }

  /** What lifting `evs` comes to. */
  predicate Lifts(cfg: Thinking.Config, fsm: Thinking.State, evs: seq<EventParser.Event>, fsm': Thinking.State,
                  out: seq<KiroEvent>)
    requires Thinking.UsableTags(cfg.openTags)
  {
    LiftAll(cfg, fsm, evs) == (fsm', out)
  }

  lemma LiftsSnoc(cfg: Thinking.Config, fsm: Thinking.State, evs: seq<EventParser.Event>, ev: EventParser.Event,
                  fsm1: Thinking.State, out: seq<KiroEvent>)
    requires Thinking.UsableTags(cfg.openTags) && Lifts(cfg, fsm, evs, fsm1, out)
    ensures var (fsm2, now) := Lift(cfg, fsm1, ev); Lifts(cfg, fsm, evs + [ev], fsm2, out + now)
  {
    LiftAllOne(cfg, fsm, evs, ev);
  }

  lemma {:induction false} LiftAllAppend(cfg: Thinking.Config, fsm: Thinking.State,
                                         a: seq<EventParser.Event>, b: seq<EventParser.Event>)
    requires Thinking.UsableTags(cfg.openTags)
    ensures var (fsm1, x) := LiftAll(cfg, fsm, a); var (fsm2, y) := LiftAll(cfg, fsm1, b);
      Lifts(cfg, fsm, a + b, fsm2, x + y)
    decreases |b|
  {
    var (fsm1, x) := LiftAll(cfg, fsm, a);
    if b == [] {
      Associate(a, [], []);
      Associate(x, [], []);
    } else {
      var front, last := b[..|b| - 1], b[|b| - 1];
      var (fsm2, y) := LiftAll(cfg, fsm1, front);
      assert b == front + [last];
      Associate(a, front, [last]);
      LiftAllAppend(cfg, fsm, a, front);
      LiftsSnoc(cfg, fsm1, front, last, fsm2, y);
      LiftsSnoc(cfg, fsm, a + front, last, fsm2, x + y);
      Associate(x, y, Lift(cfg, fsm2, last).1);
    }
  }

  /** The visible events of a run are the parser's events lifted in one go. */
  lemma {:induction false} RunVisible(o: Codec, cfg: Thinking.Config, chunks: seq<string>)
    requires Thinking.UsableTags(cfg.openTags)
    ensures var (buf, core, evs) := EventParser.Run(o, EventParser.EVENT_PATTERNS, chunks);
      var (fsm, lifted) := LiftAll(cfg, Thinking.INITIAL, evs);
      Run(o, cfg, chunks).0 == State(buf, core, fsm) && Visible(Run(o, cfg, chunks).1) == lifted
  {
    if chunks != [] {
      var before, x := chunks[..|chunks| - 1], chunks[|chunks| - 1];
      RunVisible(o, cfg, before);
      var (s, evs) := Run(o, cfg, before);
      var parsed := EventParser.Run(o, EventParser.EVENT_PATTERNS, before).2;
      var (_, core, now) := EventParser.Feed(o, EventParser.EVENT_PATTERNS, s.buffer, s.core, x);
      LiftAllAppend(cfg, Thinking.INITIAL, parsed, now);
      FeedVisible(LiftAll(cfg, s.fsm, now).1, core, cfg, s.fsm, now);
      VisibleAppend(evs, Feed(o, cfg, s, x).1);
    }
  }

  lemma FeedVisible(lifted: seq<KiroEvent>, core: EventParser.Core, cfg: Thinking.Config, fsm: Thinking.State,
                    now: seq<EventParser.Event>)
    requires Thinking.UsableTags(cfg.openTags) && lifted == LiftAll(cfg, fsm, now).1
    ensures Visible(lifted + Diagnoses(core)) == lifted
  {
    LiftAllVisible(cfg, fsm, now);
    VisibleAll(lifted);
    VisibleAppend(lifted, Diagnoses(core));
    DiagnosesInvisible(core);
  }

  lemma DiagnosesInvisible(core: EventParser.Core)
    ensures Visible(Diagnoses(core)) == []
  {
    if core.truncation.Some? { assert Diagnoses(core)[..0] == []; }
  }

  /** Two ways of cutting one byte stream between characters lead to the same state and, diagnoses aside,
      to the same events. */
  lemma EventsIndependentOfChunking(o: Codec, cfg: Thinking.Config, a: seq<string>, b: seq<string>)
    requires Thinking.UsableTags(cfg.openTags) && Concat(a) == Concat(b)
    requires Utf8.Whole(a) && Utf8.Whole(b)
    ensures Run(o, cfg, a).0 == Run(o, cfg, b).0 && Visible(Run(o, cfg, a).1) == Visible(Run(o, cfg, b).1)
    ensures StringIds(FinalCalls(o, Run(o, cfg, a).0)) ==>
      Visible(Events(o, cfg, a)) == Visible(Events(o, cfg, b))
  {
    EventParser.EventPatternsGood();
    EventParser.ChunkingIrrelevant(o, EventParser.EVENT_PATTERNS, a);
    EventParser.ChunkingIrrelevant(o, EventParser.EVENT_PATTERNS, b);
    RunVisible(o, cfg, a);
    RunVisible(o, cfg, b);
    if StringIds(FinalCalls(o, Run(o, cfg, a).0)) {
      VisibleAppend(Run(o, cfg, a).1, Finish(o, cfg, Run(o, cfg, a).0));
      VisibleAppend(Run(o, cfg, b).1, Finish(o, cfg, Run(o, cfg, b).0));
    }
  }
}
