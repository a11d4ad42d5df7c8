/** Driving one response: message_start, the read loop, the drain, the formatter's tail. The end-to-end
    results: every byte stream gives a well-formed stream, and chunk borders do not show in it. */
module Streams {
  import opened Text
  import opened ToolCalls
  import opened Pipeline
  import opened Protocol
  import opened StreamWriters
  import Formatter
  import Thinking
  import Utf8
  import opened Pipelines
  import opened Formatters

  lemma HandleAllOne(env: Formatter.Env, h: Formatter.ThinkingHandling, evs: seq<KiroEvent>, ev: KiroEvent)
    ensures var (s, f) := Formatter.HandleAll(env, h, evs);
      var (s', f') := Formatter.Handle(env, h, s, ev);
      Formatter.HandleAll(env, h, evs + [ev]) == (s', f + f')
  {
    assert (evs + [ev])[..|evs|] == evs;
  }

  /** Handing a batch of events to the formatter. */
  method HandleEach(f: StreamFormatter, events: seq<KiroEvent>, w: StreamWriter,
                    ghost base: seq<Frame>, ghost before: seq<KiroEvent>)
    requires w.Valid() && Handled(f.env, f.handling, f.Abs(), w.frames, base, before)
    modifies f, f.blocks, w
    ensures w.Valid() && Handled(f.env, f.handling, f.Abs(), w.frames, base, before + events)
  {
    assert before + events[..0] == before;
    for i := 0 to |events|
      invariant w.Valid() && Handled(f.env, f.handling, f.Abs(), w.frames, base, before + events[..i])
    {
      assert before + events[..i + 1] == (before + events[..i]) + [events[i]];
      HandledOne(f.env, f.handling, f.Abs(), w.frames, base, before + events[..i], events[i]);
      f.Handle(events[i], w);
    }
    assert events[..|events|] == events;
  }

  /** `frames` is `base` and then what the formatter wrote for `evs`. */
  ghost predicate Handled(env: Formatter.Env, h: Formatter.ThinkingHandling, s: Formatter.State,
                          frames: seq<Frame>, base: seq<Frame>, evs: seq<KiroEvent>)
  {
    var (s', f) := Formatter.HandleAll(env, h, evs);
    s == s' && frames == base + f
  }

  lemma HandledOne(env: Formatter.Env, h: Formatter.ThinkingHandling, s: Formatter.State,
                   frames: seq<Frame>, base: seq<Frame>, evs: seq<KiroEvent>, ev: KiroEvent)
    requires Handled(env, h, s, frames, base, evs)
    ensures var (s', f) := Formatter.Handle(env, h, s, ev); Handled(env, h, s', frames + f, base, evs + [ev])
  {
    HandleAllOne(env, h, evs, ev);
    Associate(base, Formatter.HandleAll(env, h, evs).1, Formatter.Handle(env, h, s, ev).1);
  }

  /** `evs` are the events of the chunks so far and `s` is the pipeline's state. */
  ghost predicate Fed(o: Codec, cfg: Thinking.Config, chunks: seq<string>, s: State, evs: seq<KiroEvent>)
    requires Thinking.UsableTags(cfg.openTags)
  {
    Run(o, cfg, chunks) == (s, evs)
  }

  lemma FedNext(o: Codec, cfg: Thinking.Config, chunks: seq<string>, i: nat, s: State, evs: seq<KiroEvent>)
    requires Thinking.UsableTags(cfg.openTags) && i < |chunks| && Fed(o, cfg, chunks[..i], s, evs)
    ensures var (s', now) := Feed(o, cfg, s, chunks[i]); Fed(o, cfg, chunks[..i + 1], s', evs + now)
  {
    assert chunks[..i + 1][..i] == chunks[..i];
  }

  /** The read loop of drivePipeline. */
  method FeedAll(chunks: seq<string>, p: StreamPipeline, f: StreamFormatter, w: StreamWriter)
    returns (ghost events: seq<KiroEvent>)
    requires p.Valid() && p.Abs() == START && f.Abs() == Formatter.START && w.Valid()
    modifies p.parser, p.thinking, f, f.blocks, w
    ensures w.Valid() && Fed(p.o, p.cfg, chunks, p.Abs(), events)
    ensures Handled(f.env, f.handling, f.Abs(), w.frames, old(w.frames), events)
  {
    ghost var base := w.frames;
    events := [];
    for i := 0 to |chunks|
      invariant w.Valid() && Fed(p.o, p.cfg, chunks[..i], p.Abs(), events)
      invariant Handled(f.env, f.handling, f.Abs(), w.frames, base, events)
    {
      FedNext(p.o, p.cfg, chunks, i, p.Abs(), events);
      var now := p.Feed(chunks[i]);
      HandleEach(f, now, w, base, events);
      events := events + now;
    }
    assert chunks[..|chunks|] == chunks;
  }

  /** What has been written when drivePipeline returns: the whole message, or only what the bytes gave
      if the body broke or a tool call could not be reported. */
  ghost function Concluded(o: Codec, cfg: Thinking.Config, env: Formatter.Env, h: Formatter.ThinkingHandling,
                           s: State, evs: seq<KiroEvent>, failed: bool): seq<Frame>
  {
    if failed || !StringIds(FinalCalls(o, s)) then [MessageStart] + Formatter.HandleAll(env, h, evs).1
    else Formatter.Frames(env, h, evs + Finish(o, cfg, s))
  }

  ghost function Sent(o: Codec, cfg: Thinking.Config, env: Formatter.Env, h: Formatter.ThinkingHandling,
                      chunks: seq<string>, failed: bool): seq<Frame>
    requires Thinking.UsableTags(cfg.openTags)
  {
    var (s, evs) := Run(o, cfg, chunks);
    Concluded(o, cfg, env, h, s, evs, failed)
  }

  /** The end of drivePipeline, after the read loop. `done` says that it returns without an error. */
  method Conclude(failed: bool, p: StreamPipeline, f: StreamFormatter, w: StreamWriter, ghost events: seq<KiroEvent>)
    returns (done: bool)
    requires p.Valid() && w.Valid()
    requires Handled(f.env, f.handling, f.Abs(), w.frames, [MessageStart], events)
    modifies p.parser, p.thinking, f, f.blocks, w
    ensures w.Valid()
    ensures w.frames == Concluded(p.o, p.cfg, f.env, f.handling, old(p.Abs()), events, failed)
    ensures done <==> !failed && StringIds(FinalCalls(p.o, old(p.Abs())))
  {
    if failed { return false; }
    var last, panicked := p.Finish();
    if panicked { return false; }
    HandleEach(f, last, w, [MessageStart], events);
    f.Finish(w);
    return true;
  }

  /** drivePipeline. `chunks` are the reads that returned bytes; `failed` says that the body then
      broke instead of ending. */
  method Drive(chunks: seq<string>, failed: bool, p: StreamPipeline, f: StreamFormatter, w: StreamWriter)
    returns (done: bool)
    requires p.Valid() && p.Abs() == START && f.Abs() == Formatter.START && w.Valid() && w.frames == []
    modifies p.parser, p.thinking, f, f.blocks, w
    ensures w.Valid()
    ensures w.frames == Sent(p.o, p.cfg, f.env, f.handling, chunks, failed)
    ensures done <==> !failed && StringIds(FinalCalls(p.o, Run(p.o, p.cfg, chunks).0))
  {
    f.EmitMessageStart(w);
    assert w.frames == [MessageStart];
    ghost var events := FeedAll(chunks, p, f, w);
    done := Conclude(failed, p, f, w, events);
  }

  /** For every byte stream, chunking, decoder and configuration: the client never sees a violation of
      the block protocol, and the message is complete exactly when the body did not break and every
      tool call could be reported. */
  lemma EveryStreamIsWellFormed(o: Codec, cfg: Thinking.Config, env: Formatter.Env,
                                h: Formatter.ThinkingHandling, chunks: seq<string>, failed: bool)
    requires Thinking.UsableTags(cfg.openTags)
    ensures var frames := Sent(o, cfg, env, h, chunks, failed);
      && After(Fresh, frames) != Violated
      && (WellFormed(frames) <==> !failed && StringIds(FinalCalls(o, Run(o, cfg, chunks).0)))
  {
    var (s, evs) := Run(o, cfg, chunks);
    if failed || !StringIds(FinalCalls(o, s)) {
      BrokenStream(o, cfg, env, h, chunks, evs);
    } else {
      WholeStream(o, cfg, env, h, chunks);
    }
  }

  lemma WholeStream(o: Codec, cfg: Thinking.Config, env: Formatter.Env,
                    h: Formatter.ThinkingHandling, chunks: seq<string>)
    requires Thinking.UsableTags(cfg.openTags)
    requires StringIds(FinalCalls(o, Run(o, cfg, chunks).0))
    ensures WellFormed(Formatter.Frames(env, h, Events(o, cfg, chunks)))
  {
    var evs := Events(o, cfg, chunks);
    ThinkingBeforeContent(o, cfg, chunks);
    Formatter.ThinkingFirstIsSafe(h, evs);
    Formatter.WellFormedIff(env, h, evs);
  }

  lemma BrokenStream(o: Codec, cfg: Thinking.Config, env: Formatter.Env,
                     h: Formatter.ThinkingHandling, chunks: seq<string>, evs: seq<KiroEvent>)
    requires Thinking.UsableTags(cfg.openTags) && evs == Run(o, cfg, chunks).1
    ensures var stage := After(Fresh, [MessageStart] + Formatter.HandleAll(env, h, evs).1);
      stage.Between? || stage.Inside?
  {
    RunOrdered(o, cfg, chunks);
    Formatter.ThinkingFirstIsSafe(h, evs);
    Formatter.ClientAfter(env, h, evs);
    AfterOne(Fresh, MessageStart);
    AfterAppend(Fresh, [MessageStart], Formatter.HandleAll(env, h, evs).1);
  }

  /** One event more shows what Visible keeps of it. */
  lemma DiagnosisStep(env: Formatter.Env, h: Formatter.ThinkingHandling, shown: seq<KiroEvent>,
                      front: seq<KiroEvent>, last: KiroEvent)
    requires Formatter.HandleAll(env, h, shown) == Formatter.HandleAll(env, h, front)
    ensures Formatter.HandleAll(env, h, shown + if last.Diagnosis? then [] else [last]) ==
      Formatter.HandleAll(env, h, front + [last])
  {
    HandleAllOne(env, h, front, last);
    HandleAllOne(env, h, shown, last);
    Associate(shown, [], []);
    Associate(Formatter.HandleAll(env, h, front).1, [], []);
  }

  lemma VisibleSnoc(front: seq<KiroEvent>, last: KiroEvent)
    ensures Visible(front + [last]) == Visible(front) + if last.Diagnosis? then [] else [last]
  {
    assert (front + [last])[..|front|] == front;
  }

  lemma {:induction false} DiagnosesDoNotShow(env: Formatter.Env, h: Formatter.ThinkingHandling, evs: seq<KiroEvent>)
    ensures Formatter.HandleAll(env, h, Visible(evs)) == Formatter.HandleAll(env, h, evs)
    decreases |evs|
  {
    if evs != [] {
      var front, last := evs[..|evs| - 1], evs[|evs| - 1];
      assert evs == front + [last];
      DiagnosesDoNotShow(env, h, front);
      VisibleSnoc(front, last);
      DiagnosisStep(env, h, Visible(front), front, last);
    }
  }

  lemma SameFrames(env: Formatter.Env, h: Formatter.ThinkingHandling, a: seq<KiroEvent>, b: seq<KiroEvent>)
    requires Visible(a) == Visible(b)
    ensures Formatter.HandleAll(env, h, a) == Formatter.HandleAll(env, h, b)
    ensures Formatter.Frames(env, h, a) == Formatter.Frames(env, h, b)
  {
    DiagnosesDoNotShow(env, h, a);
    DiagnosesDoNotShow(env, h, b);
  }

  /** Two ways of cutting one byte stream between characters write exactly the same frames. */
  lemma OutputIndependentOfChunking(o: Codec, cfg: Thinking.Config, env: Formatter.Env,
                                    h: Formatter.ThinkingHandling, a: seq<string>, b: seq<string>, failed: bool)
    requires Thinking.UsableTags(cfg.openTags) && Concat(a) == Concat(b)
    requires Utf8.Whole(a) && Utf8.Whole(b)
    ensures Sent(o, cfg, env, h, a, failed) == Sent(o, cfg, env, h, b, failed)
  {
    EventsIndependentOfChunking(o, cfg, a, b);
    SameFrames(env, h, Run(o, cfg, a).1, Run(o, cfg, b).1);
    if StringIds(FinalCalls(o, Run(o, cfg, a).0)) {
      SameFrames(env, h, Events(o, cfg, a), Events(o, cfg, b));
    }
  }

  // ----- with the pinger running -----

  predicate NoPing(frames: seq<Frame>) { forall i :: 0 <= i < |frames| ==> frames[i] != Ping }

  lemma HandleNoPing(env: Formatter.Env, h: Formatter.ThinkingHandling, s: Formatter.State, ev: KiroEvent)
    ensures NoPing(Formatter.Handle(env, h, s, ev).1)
  {
  }

  lemma {:induction false} HandleAllNoPing(env: Formatter.Env, h: Formatter.ThinkingHandling, evs: seq<KiroEvent>)
    ensures NoPing(Formatter.HandleAll(env, h, evs).1)
  {
    if evs != [] {
      HandleAllNoPing(env, h, evs[..|evs| - 1]);
      HandleNoPing(env, h, Formatter.HandleAll(env, h, evs[..|evs| - 1]).0, evs[|evs| - 1]);
    }
  }

  lemma {:induction false} BracketsNoPing(env: Formatter.Env, s: Formatter.State, calls: seq<Formatter.BracketCall>)
    ensures NoPing(Formatter.EmitBrackets(env, s, calls).1)
  {
    if calls != [] { BracketsNoPing(env, s, calls[..|calls| - 1]); }
  }

  lemma ConcludedNoPing(o: Codec, cfg: Thinking.Config, env: Formatter.Env, h: Formatter.ThinkingHandling,
                        s: State, evs: seq<KiroEvent>, failed: bool)
    ensures NoPing(Concluded(o, cfg, env, h, s, evs, failed))
    ensures Concluded(o, cfg, env, h, s, evs, failed) != []
    ensures Concluded(o, cfg, env, h, s, evs, failed)[0] == MessageStart
  {
    HandleAllNoPing(env, h, evs);
    if !failed && StringIds(FinalCalls(o, s)) {
      FramesNoPing(env, h, evs + Finish(o, cfg, s));
    }
  }

  lemma FramesNoPing(env: Formatter.Env, h: Formatter.ThinkingHandling, evs: seq<KiroEvent>)
    ensures NoPing(Formatter.Frames(env, h, evs)) && Formatter.Frames(env, h, evs)[0] == MessageStart
  {
    HandleAllNoPing(env, h, evs);
    var s := Formatter.HandleAll(env, h, evs).0;
    var (b, _) := Formatter.CloseBoth(s.blocks);
    BracketsNoPing(env, s.(blocks := b), env.brackets(s.fullContent));
  }

  /** Whatever the ticker does while a response is written: deleting the pings gives exactly the frames
      of the pipeline, the first frame is message_start, and the client sees no violation; the message
      it sees is complete exactly when the pipeline's is. */
  lemma EveryPingedStreamIsWellFormed(o: Codec, cfg: Thinking.Config, env: Formatter.Env,
                                      h: Formatter.ThinkingHandling, chunks: seq<string>, failed: bool,
                                      schedule: seq<Step>)
    requires Thinking.UsableTags(cfg.openTags)
    requires Written(schedule) == Sent(o, cfg, env, h, chunks, failed)
    ensures var all := Received(schedule);
      && WithoutPings(all) == Sent(o, cfg, env, h, chunks, failed)
      && all != [] && all[0] == MessageStart
      && After(Fresh, all) != Violated
      && (WellFormed(all) <==> !failed && StringIds(FinalCalls(o, Run(o, cfg, chunks).0)))
  {
    var (s, evs) := Run(o, cfg, chunks);
    ConcludedNoPing(o, cfg, env, h, s, evs, failed);
    NeverPut(schedule);
    PingsAreHarmless(schedule);
    EveryStreamIsWellFormed(o, cfg, env, h, chunks, failed);
  }

  lemma {:induction false} NeverPut(schedule: seq<Step>)
    requires NoPing(Written(schedule))
    ensures Put(Ping) !in schedule
  {
    if schedule != [] {
      var n := |schedule| - 1;
      var front := Written(schedule[..n]);
      assert NoPing(front) by {
        assert forall i :: 0 <= i < |front| ==> front[i] == Written(schedule)[i];
      }
      NeverPut(schedule[..n]);
      assert schedule[n].Put? ==> Written(schedule)[|front|] == schedule[n].frame;
    }
  }
}
