/** What passes the pipeline beside the content: native thinking, signatures, redacted blocks, usage and
    refusals, each read from its own field of its own kind of object. */
module NativeEvents {
  import opened Text
  import opened ToolCalls
  import opened Pipeline
  import EventParser
  import F = Formatter
  import Thinking

  /** The strings of each kind in order, and whether a refusal came. */
  datatype Heard = Heard(
    thinking: seq<string>, signatures: seq<string>, redacted: seq<string>, usage: seq<string>,
    percents: seq<string>, refused: bool)

  const SILENCE := Heard([], [], [], [], [], false)

  function Both(a: Heard, b: Heard): Heard
  {
    Heard(a.thinking + b.thinking, a.signatures + b.signatures, a.redacted + b.redacted, a.usage + b.usage,
          a.percents + b.percents, a.refused || b.refused)
  }

  lemma BothAssociate(a: Heard, b: Heard, c: Heard)
    ensures Both(Both(a, b), c) == Both(a, Both(b, c))
    ensures Both(a, SILENCE) == a && Both(SILENCE, a) == a
  {
    Associate(a.thinking, b.thinking, c.thinking);
    Associate(a.signatures, b.signatures, c.signatures);
    Associate(a.redacted, b.redacted, c.redacted);
    Associate(a.usage, b.usage, c.usage);
    Associate(a.percents, b.percents, c.percents);
  }

  // ----- what the objects say -----

  /** The string under `key`, if there is one that is not empty. */
  function Said(v: Fields, key: string): seq<string>
  {
    if key in v && v[key].Str? && v[key].s != "" then [v[key].s] else []
  }

  function SaidBy(ev: EventParser.Event): Heard
  {
    var v := ev.value;
    match ev.kind
    case ReasoningText => SILENCE.(thinking := Said(v, "text"))
    case ReasoningSignature => SILENCE.(signatures := Said(v, "signature"))
    case ReasoningRedacted => SILENCE.(redacted := Said(v, "redactedContent"))
    case Usage => SILENCE.(usage := [ev.raw])
    case ContextUsage =>
      SILENCE.(percents := if "contextUsagePercentage" in v && v["contextUsagePercentage"].Num?
                           then [v["contextUsagePercentage"].text] else [])
    case Metadata => SILENCE.(refused := true)
    case _ => SILENCE
  }

  function SaidByAll(evs: seq<EventParser.Event>): Heard
  {
    if evs == [] then SILENCE else Both(SaidByAll(evs[..|evs| - 1]), SaidBy(evs[|evs| - 1]))
  }

  // ----- what the events carry -----

  function CarriedBy(ev: KiroEvent): Heard
  {
    match ev
    case NativeThinking(t) => SILENCE.(thinking := [t])
    case Signature(s) => SILENCE.(signatures := [s])
    case Redacted(d) => SILENCE.(redacted := [d])
    case Usage(raw) => SILENCE.(usage := [raw])
    case ContextUsage(p) => SILENCE.(percents := [p])
    case Refusal => SILENCE.(refused := true)
    case _ => SILENCE
  }

  function Carried(evs: seq<KiroEvent>): Heard
  {
    if evs == [] then SILENCE else Both(Carried(evs[..|evs| - 1]), CarriedBy(evs[|evs| - 1]))
  }

  lemma CarriedSnoc(evs: seq<KiroEvent>, ev: KiroEvent)
    ensures Carried(evs + [ev]) == Both(Carried(evs), CarriedBy(ev))
  {
    assert (evs + [ev])[..|evs|] == evs;
  }

  lemma {:induction false} CarriedAppend(a: seq<KiroEvent>, b: seq<KiroEvent>)
    ensures Carried(a + b) == Both(Carried(a), Carried(b))
    decreases |b|
  {
    if b == [] {
      assert a + b == a;
      BothAssociate(Carried(a), SILENCE, SILENCE);
    } else {
      var front, last := b[..|b| - 1], b[|b| - 1];
      assert b == front + [last] && a + b == (a + front) + [last];
      CarriedAppend(a, front);
      CarriedSnoc(a + front, last);
      CarriedSnoc(front, last);
      BothAssociate(Carried(a), Carried(front), CarriedBy(last));
    }
  }

  lemma CarriedOne(ev: KiroEvent)
    ensures Carried([ev]) == CarriedBy(ev)
  {
    CarriedSnoc([], ev);
    assert [] + [ev] == [ev];
    BothAssociate(CarriedBy(ev), SILENCE, SILENCE);
  }

  predicate Bare(evs: seq<KiroEvent>) { forall i :: 0 <= i < |evs| ==> CarriedBy(evs[i]) == SILENCE }

  lemma {:induction false} BareCarries(evs: seq<KiroEvent>)
    requires Bare(evs)
    ensures Carried(evs) == SILENCE
  {
    if evs != [] { BareCarries(evs[..|evs| - 1]); }
  }

  lemma {:induction false} VisibleCarries(evs: seq<KiroEvent>)
    ensures Carried(Visible(evs)) == Carried(evs)
  {
    if evs != [] {
      var front, last := evs[..|evs| - 1], evs[|evs| - 1];
      VisibleCarries(front);
      CarriedSnoc(Visible(front), last);
      Associate(Visible(front), [], []);
      BothAssociate(Carried(front), SILENCE, SILENCE);
    }
  }

  lemma LiftCarries(cfg: Thinking.Config, fsm: Thinking.State, ev: EventParser.Event)
    requires Thinking.UsableTags(cfg.openTags)
    ensures Carried(Lift(cfg, fsm, ev).1) == SaidBy(ev)
  {
    var now := Lift(cfg, fsm, ev).1;
    if ev.kind.Content? {
      BareCarries(now);
    } else if |now| == 1 {
      CarriedOne(now[0]);
      assert now == [now[0]];
    } else {
      assert now == [];
    }
  }

  lemma {:induction false} LiftedCarries(cfg: Thinking.Config, fsm: Thinking.State, evs: seq<EventParser.Event>)
    requires Thinking.UsableTags(cfg.openTags)
    ensures Carried(LiftAll(cfg, fsm, evs).1) == SaidByAll(evs)
  {
    if evs != [] {
      var front, last := evs[..|evs| - 1], evs[|evs| - 1];
      LiftedCarries(cfg, fsm, front);
      var (fsm1, before) := LiftAll(cfg, fsm, front);
      LiftCarries(cfg, fsm1, last);
      CarriedAppend(before, Lift(cfg, fsm1, last).1);
    }
  }

  lemma BareAppend(a: seq<KiroEvent>, b: seq<KiroEvent>)
    requires Bare(a) && Bare(b)
    ensures Bare(a + b)
  {
  }

  lemma PartsAreBare(thinking: string, content: string, o: Codec, calls: seq<ToolCall>, core: EventParser.Core)
    requires StringIds(calls)
    ensures Bare(NonEmpty(thinking, content)) && Bare(ToolUses(o, calls)) && Bare(Diagnoses(core))
  {
  }

  lemma FinishIsBare(o: Codec, cfg: Thinking.Config, s: State)
    requires StringIds(FinalCalls(o, s))
    ensures Bare(Finish(o, cfg, s))
  {
    var (thinking, content) := Thinking.Finish(cfg, s.fsm);
    var calls, core := FinalCalls(o, s), EventParser.Finalize(o, s.core);
    PartsAreBare(thinking, content, o, calls, core);
    BareAppend(NonEmpty(thinking, content), ToolUses(o, calls));
    BareAppend(NonEmpty(thinking, content) + ToolUses(o, calls), Diagnoses(core));
  }

  /** For every stream: the events carry exactly the native thinking, signatures, redacted data, usage and
      refusals that its objects say, each kind in order. */
  lemma NativeArrives(o: Codec, cfg: Thinking.Config, chunks: seq<string>)
    requires Thinking.UsableTags(cfg.openTags)
    requires StringIds(FinalCalls(o, Run(o, cfg, chunks).0))
    ensures Carried(Events(o, cfg, chunks)) ==
      SaidByAll(EventParser.Run(o, EventParser.EVENT_PATTERNS, chunks).2)
  {
    var (s, evs) := Run(o, cfg, chunks);
    var parsed := EventParser.Run(o, EventParser.EVENT_PATTERNS, chunks).2;
    RunVisible(o, cfg, chunks);
    LiftedCarries(cfg, Thinking.INITIAL, parsed);
    VisibleCarries(evs);
    FinishIsBare(o, cfg, s);
    BareCarries(Finish(o, cfg, s));
    CarriedAppend(evs, Finish(o, cfg, s));
    BothAssociate(Carried(evs), SILENCE, SILENCE);
  }

  lemma {:induction false} CarriesIt(evs: seq<KiroEvent>, ev: KiroEvent)
    requires ev in evs && ev.NativeThinking?
    ensures ev.text in Carried(evs).thinking
    decreases |evs|
  {
    var front, last := evs[..|evs| - 1], evs[|evs| - 1];
    assert evs == front + [last];
    if ev != last { CarriesIt(front, ev); }
  }

  lemma {:induction false} NothingEmptySaid(evs: seq<EventParser.Event>)
    ensures "" !in SaidByAll(evs).thinking
  {
    if evs != [] { NothingEmptySaid(evs[..|evs| - 1]); }
  }

  /** No stream makes the client a delta without text. */
  lemma StreamHasNoEmptyDelta(o: Codec, cfg: Thinking.Config, env: F.Env, h: F.ThinkingHandling,
                              chunks: seq<string>)
    requires Thinking.UsableTags(cfg.openTags)
    requires StringIds(FinalCalls(o, Run(o, cfg, chunks).0))
    ensures F.NoneEmpty(F.HandleAll(env, h, Events(o, cfg, chunks)).1)
  {
    var evs := Events(o, cfg, chunks);
    NativeArrives(o, cfg, chunks);
    NothingEmptySaid(EventParser.Run(o, EventParser.EVENT_PATTERNS, chunks).2);
    if KiroEvent.NativeThinking("") in evs { CarriesIt(evs, KiroEvent.NativeThinking("")); }
    F.NoEmptyDeltas(env, h, evs);
  }
}
