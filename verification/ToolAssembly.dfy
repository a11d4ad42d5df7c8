/** How the parser assembles one tool call from a start object, any number of input fragments and a stop
    object. */
module ToolAssembly {
  import opened Options
  import opened Text
  import opened Json
  import opened ToolCalls
  import opened EventParser

  /** A decodable start object that does not itself say stop. */
  predicate Starts(o: Codec, cut: Cut)
  {
    cut.kind == ToolStart && o.decode(cut.raw).Some? && !Truthy(o, Field(o.decode(cut.raw).value, "stop"))
  }

  predicate Continues(o: Codec, cut: Cut) { cut.kind == ToolInput && o.decode(cut.raw).Some? }

  predicate Stops(o: Codec, cut: Cut)
  {
    cut.kind == ToolStop && o.decode(cut.raw).Some? && Truthy(o, Field(o.decode(cut.raw).value, "stop"))
  }

  /** The argument texts of the fragments, in order. */
  function ArgTexts(o: Codec, cuts: seq<Cut>): string
  {
    if cuts == [] then "" else ArgTexts(o, cuts[..|cuts| - 1]) + o.argText(cuts[|cuts| - 1].raw)
  }

  /** The call made of a start object and the text of its fragments. `drawn` ids were drawn before. */
  function Assembled(o: Codec, start: Cut, args: string, drawn: nat): ToolCall
    requires Starts(o, start)
  {
    var v := o.decode(start.raw).value;
    var reformatted := o.reformat(args);
    ToolCall(
      if "toolUseId" in v then v["toolUseId"] else Str(o.callId(drawn)),
      if "name" in v then v["name"] else Str(""),
      if o.blank(args) then "{}" else if reformatted.Some? then reformatted.value else "{}",
      if o.blank(args) || reformatted.Some? then None else o.diagnose(args))
  }

  lemma ProcessSnoc(o: Codec, s: Core, cuts: seq<Cut>, cut: Cut)
    ensures var (s1, evs) := ProcessAll(o, s, cuts); var (s2, now) := Process(o, s1, cut.kind, cut.raw);
      ProcessAll(o, s, cuts + [cut]) == (s2, evs + now)
  {
    assert (cuts + [cut])[..|cuts|] == cuts;
  }

  /** The state with more argument text on the pending call. */
  function WithArgs(s: Core, more: string): Core
    requires s.current.Some?
  {
    s.(current := Some(s.current.value.(arguments := s.current.value.arguments + more)))
  }

  lemma WithNoArgs(s: Core)
    requires s.current.Some?
    ensures WithArgs(s, "") == s
  {
    assert s.current.value.arguments + "" == s.current.value.arguments;
  }

  lemma WithArgsTwice(s: Core, a: string, b: string)
    requires s.current.Some?
    ensures WithArgs(WithArgs(s, a), b) == WithArgs(s, a + b)
  {
    Associate(s.current.value.arguments, a, b);
  }

  lemma ContinueStep(o: Codec, s: Core, cut: Cut)
    requires s.current.Some? && Continues(o, cut)
    ensures Process(o, s, cut.kind, cut.raw) == (WithArgs(s, o.argText(cut.raw)), [])
  {
  }

  lemma ProcessNone(o: Codec, s: Core, cuts: seq<Cut>)
    requires cuts == []
    ensures ProcessAll(o, s, cuts) == (s, [])
  {
  }

  lemma SilentSnoc(o: Codec, s: Core, cuts: seq<Cut>, s1: Core, cut: Cut, s2: Core)
    requires ProcessAll(o, s, cuts) == (s1, []) && Process(o, s1, cut.kind, cut.raw) == (s2, [])
    ensures ProcessAll(o, s, cuts + [cut]) == (s2, [])
  {
    ProcessSnoc(o, s, cuts, cut);
    var none: seq<Event> := [];
    assert none + none == none;
  }

  lemma {:induction false} FragmentsAppend(o: Codec, s: Core, frags: seq<Cut>)
    requires s.current.Some? && forall i :: 0 <= i < |frags| ==> Continues(o, frags[i])
    ensures ProcessAll(o, s, frags) == (WithArgs(s, ArgTexts(o, frags)), [])
    decreases |frags|
  {
    if frags == [] {
      WithNoArgs(s);
      ProcessNone(o, s, frags);
    } else {
      var front, last := frags[..|frags| - 1], frags[|frags| - 1];
      FragmentsAppend(o, s, front);
      var s1 := WithArgs(s, ArgTexts(o, front));
      ContinueStep(o, s1, last);
      WithArgsTwice(s, ArgTexts(o, front), o.argText(last.raw));
      SilentSnoc(o, s, front, s1, last, WithArgs(s1, o.argText(last.raw)));
      assert frags == front + [last];
    }
  }

  /** Whatever came before, a start, its fragments and a stop add exactly one call, behind the one that
      was still pending: the start's id and name, and the argument texts in order. They give no event. */
  lemma CallAssembled(o: Codec, s: Core, start: Cut, frags: seq<Cut>, stop: Cut)
    requires Starts(o, start) && Stops(o, stop) && forall i :: 0 <= i < |frags| ==> Continues(o, frags[i])
    ensures var (r, evs) := ProcessAll(o, s, [start] + frags + [stop]);
      var before := Finalize(o, s);
      && r.calls == before.calls + [Assembled(o, start, o.argText(start.raw) + ArgTexts(o, frags), before.drawn)]
      && r.current.None? && r.drawn == before.drawn + 1 && r.lastContent == s.lastContent && evs == []
  {
    var s1 := ProcessToolStart(o, s, o.decode(start.raw).value, start.raw);
    var s2 := WithArgs(s1, ArgTexts(o, frags));
    StartProcessed(o, s, start);
    StopFinalizes(o, s, start, ArgTexts(o, frags), stop);
    FragmentsAppend(o, s1, frags);
    SilentThen(o, s, [start], s1, frags, s2);
    SilentSnoc(o, s, [start] + frags, s2, stop, Process(o, s2, stop.kind, stop.raw).0);
  }

  lemma StartProcessed(o: Codec, s: Core, start: Cut)
    requires Starts(o, start)
    ensures ProcessAll(o, s, [start]) == (ProcessToolStart(o, s, o.decode(start.raw).value, start.raw), [])
  {
    var none: seq<Cut> := [];
    ProcessNone(o, s, none);
    SilentSnoc(o, s, none, s, start, ProcessToolStart(o, s, o.decode(start.raw).value, start.raw));
    assert none + [start] == [start];
  }

  lemma SilentThen(o: Codec, s: Core, a: seq<Cut>, s1: Core, b: seq<Cut>, s2: Core)
    requires ProcessAll(o, s, a) == (s1, []) && ProcessAll(o, s1, b) == (s2, [])
    ensures ProcessAll(o, s, a + b) == (s2, [])
  {
    ProcessAllAppend(o, s, a, b);
  }

  lemma StopFinalizes(o: Codec, s: Core, start: Cut, more: string, stop: Cut)
    requires Starts(o, start) && Stops(o, stop)
    ensures var s1 := ProcessToolStart(o, s, o.decode(start.raw).value, start.raw);
      var before := Finalize(o, s);
      && s1.current.Some?
      && (var (r, evs) := Process(o, WithArgs(s1, more), stop.kind, stop.raw);
          && r.calls == before.calls + [Assembled(o, start, o.argText(start.raw) + more, before.drawn)]
          && r.current.None? && r.drawn == before.drawn + 1 && r.lastContent == s.lastContent && evs == [])
  {
  }

  // ----- all calls of a stream -----

  /** A decodable start object, the argument texts that belong to it, and whether more may follow. */
  datatype Assembly = Assembly(start: Cut, args: string, open: bool)

  predicate IsStart(o: Codec, cut: Cut) { cut.kind == ToolStart && o.decode(cut.raw).Some? }

  predicate SaysStop(o: Codec, cut: Cut)
  {
    o.decode(cut.raw).Some? && Truthy(o, Field(o.decode(cut.raw).value, "stop"))
  }

  /** The starts among the objects. A fragment goes to the last start, unless a stop came since. */
  function Assemblies(o: Codec, cuts: seq<Cut>): seq<Assembly>
  {
    if cuts == [] then []
    else
      var before, cut := Assemblies(o, cuts[..|cuts| - 1]), cuts[|cuts| - 1];
      if IsStart(o, cut) then before + [Assembly(cut, o.argText(cut.raw), !SaysStop(o, cut))]
      else if before == [] || !before[|before| - 1].open then before
      else
        var front, last := before[..|before| - 1], before[|before| - 1];
        if Continues(o, cut) then front + [last.(args := last.args + o.argText(cut.raw))]
        else if Stops(o, cut) then front + [last.(open := false)]
        else before
  }

  /** The call of an assembly; `n` starts came before it. */
  function CallOf(o: Codec, a: Assembly, n: nat): ToolCall
  {
    var v := if o.decode(a.start.raw).Some? then o.decode(a.start.raw).value else map[];
    var parsed := if o.blank(a.args) then Some("{}") else o.reformat(a.args);
    ToolCall(
      if "toolUseId" in v then v["toolUseId"] else Str(o.callId(n)),
      if "name" in v then v["name"] else Str(""),
      if parsed.Some? then parsed.value else "{}",
      if parsed.Some? then None else o.diagnose(a.args))
  }

  function CallsOf(o: Codec, list: seq<Assembly>): (r: seq<ToolCall>)
    ensures |r| == |list| && forall i :: 0 <= i < |r| ==> r[i] == CallOf(o, list[i], i)
  {
    seq(|list|, i requires 0 <= i < |list| => CallOf(o, list[i], i))
  }

  /** The reason given for the last truncated call. */
  function LastReason(calls: seq<ToolCall>): Option<string>
  {
    if calls == [] then None
    else
      var last := calls[|calls| - 1];
      if last.truncated.Some? then last.truncated else LastReason(calls[..|calls| - 1])
  }

  /** The parser's state holds the assemblies: all but an open last one are finished calls. */
  predicate HoldsAll(o: Codec, s: Core, list: seq<Assembly>)
  {
    && s.drawn == |list|
    && s.truncation == LastReason(s.calls)
    && if list != [] && list[|list| - 1].open then
         var n := |list| - 1;
         && s.calls == CallsOf(o, list[..n])
         && s.current.Some? && s.current.value.arguments == list[n].args
         && CallOf(o, list[n], n).id == s.current.value.id && CallOf(o, list[n], n).name == s.current.value.name
       else s.calls == CallsOf(o, list) && s.current.None?
  }

  lemma CallsSnoc(o: Codec, list: seq<Assembly>, a: Assembly)
    ensures CallsOf(o, list + [a]) == CallsOf(o, list) + [CallOf(o, a, |list|)]
  {
  }

  lemma ReasonSnoc(calls: seq<ToolCall>, tc: ToolCall)
    ensures LastReason(calls + [tc]) == if tc.truncated.Some? then tc.truncated else LastReason(calls)
  {
    assert (calls + [tc])[..|calls|] == calls;
  }

  /** The list with its last assembly closed. */
  function Closed(list: seq<Assembly>): (r: seq<Assembly>)
  {
    if list == [] then [] else list[..|list| - 1] + [list[|list| - 1].(open := false)]
  }

  lemma ClosedCalls(o: Codec, list: seq<Assembly>)
    ensures CallsOf(o, Closed(list)) == CallsOf(o, list)
  {
  }

  lemma NothingOpen(o: Codec, s: Core, list: seq<Assembly>)
    requires HoldsAll(o, s, list) && (list != [] ==> !list[|list| - 1].open)
    ensures Finalize(o, s) == s && Closed(list) == list && s.calls == CallsOf(o, list)
  {
  }

  lemma LastOpen(o: Codec, s: Core, front: seq<Assembly>, last: Assembly)
    requires HoldsAll(o, s, front + [last]) && last.open
    ensures var s', call := Finalize(o, s), CallOf(o, last, |front|);
      && s'.calls == CallsOf(o, front) + [call] && s'.current.None? && s'.drawn == s.drawn
      && s'.truncation == if call.truncated.Some? then call.truncated else LastReason(CallsOf(o, front))
  {
    assert (front + [last])[..|front|] == front;
  }

  /** Finalizing closes the last assembly. */
  lemma FinalizeHolds(o: Codec, s: Core, list: seq<Assembly>)
    requires HoldsAll(o, s, list)
    ensures HoldsAll(o, Finalize(o, s), Closed(list)) && Finalize(o, s).calls == CallsOf(o, list)
  {
    if list != [] && list[|list| - 1].open {
      var front, last := list[..|list| - 1], list[|list| - 1];
      assert list == front + [last];
      LastOpen(o, s, front, last);
      CallsSnoc(o, front, last);
      CallsSnoc(o, front, last.(open := false));
      ReasonSnoc(CallsOf(o, front), CallOf(o, last, |front|));
    } else {
      NothingOpen(o, s, list);
    }
  }

  /** The state behind a start object, before its own stop is looked at. */
  function Started(o: Codec, done: Core, cut: Cut): Core
  {
    var call := CallOf(o, Assembly(cut, "", true), done.drawn);
    done.(current := Some(ToolAcc(call.id, call.name, o.argText(cut.raw))), drawn := done.drawn + 1)
  }

  lemma StartIs(o: Codec, s: Core, cut: Cut)
    requires IsStart(o, cut)
    ensures var started := Started(o, Finalize(o, s), cut);
      Process(o, s, cut.kind, cut.raw).0 == if SaysStop(o, cut) then Finalize(o, started) else started
  {
  }

  lemma StartHolds(o: Codec, s: Core, list: seq<Assembly>, cut: Cut)
    requires HoldsAll(o, s, list) && IsStart(o, cut)
    ensures HoldsAll(o, Process(o, s, cut.kind, cut.raw).0,
                     list + [Assembly(cut, o.argText(cut.raw), !SaysStop(o, cut))])
  {
    var done := Finalize(o, s);
    var a := Assembly(cut, o.argText(cut.raw), true);
    FinalizeHolds(o, s, list);
    StartIs(o, s, cut);
    StartedHolds(o, done, Started(o, done, cut), list, a);
    if SaysStop(o, cut) {
      FinalizeHolds(o, Started(o, done, cut), list + [a]);
      assert Closed(list + [a]) == list + [a.(open := false)];
    }
  }

  lemma StartedHolds(o: Codec, done: Core, started: Core, list: seq<Assembly>, a: Assembly)
    requires done.calls == CallsOf(o, list) && done.drawn == |list| && done.truncation == LastReason(done.calls)
    requires a.open && started.calls == done.calls && started.drawn == done.drawn + 1
    requires started.truncation == done.truncation
    requires var call := CallOf(o, a, |list|); started.current == Some(ToolAcc(call.id, call.name, a.args))
    ensures HoldsAll(o, started, list + [a])
  {
    assert (list + [a])[..|list|] == list;
  }

  lemma MoreHolds(o: Codec, s: Core, front: seq<Assembly>, last: Assembly, text: string)
    requires HoldsAll(o, s, front + [last]) && last.open
    ensures s.current.Some? && HoldsAll(o, WithArgs(s, text), front + [last.(args := last.args + text)])
  {
    var more := last.(args := last.args + text);
    assert (front + [last])[..|front|] == front && (front + [more])[..|front|] == front;
  }

  lemma OtherHolds(o: Codec, s: Core, list: seq<Assembly>, cut: Cut)
    requires HoldsAll(o, s, list) && !IsStart(o, cut)
    requires list == [] || !list[|list| - 1].open || (!Continues(o, cut) && !Stops(o, cut))
    ensures HoldsAll(o, Process(o, s, cut.kind, cut.raw).0, list)
  {
  }

  lemma ObjectHolds(o: Codec, s: Core, front: seq<Cut>, cut: Cut)
    requires HoldsAll(o, s, Assemblies(o, front))
    ensures HoldsAll(o, Process(o, s, cut.kind, cut.raw).0, Assemblies(o, front + [cut]))
  {
    var list := Assemblies(o, front);
    assert (front + [cut])[..|front|] == front;
    if IsStart(o, cut) {
      StartHolds(o, s, list, cut);
    } else if list == [] || !list[|list| - 1].open || (!Continues(o, cut) && !Stops(o, cut)) {
      OtherHolds(o, s, list, cut);
    } else {
      var before, last := list[..|list| - 1], list[|list| - 1];
      assert list == before + [last];
      if Continues(o, cut) {
        MoreHolds(o, s, before, last, o.argText(cut.raw));
        ContinueStep(o, s, cut);
      } else {
        FinalizeHolds(o, s, list);
        StopStep(o, s, cut);
      }
    }
  }

  lemma StopStep(o: Codec, s: Core, cut: Cut)
    requires s.current.Some? && Stops(o, cut)
    ensures Process(o, s, cut.kind, cut.raw) == (Finalize(o, s), [])
  {
  }

  lemma {:induction false} AllHeld(o: Codec, cuts: seq<Cut>)
    ensures HoldsAll(o, ProcessAll(o, EMPTY, cuts).0, Assemblies(o, cuts))
    decreases |cuts|
  {
    if cuts == [] {
      assert CallsOf(o, []) == [];
    } else {
      var front, cut := cuts[..|cuts| - 1], cuts[|cuts| - 1];
      assert cuts == front + [cut];
      AllHeld(o, front);
      ProcessSnoc(o, EMPTY, front, cut);
      ObjectHolds(o, ProcessAll(o, EMPTY, front).0, front, cut);
    }
  }

  /** For every list of objects: the calls at the end are those of its starts, in order, each with its own id
      and name and all the fragments up to the next start or stop; the diagnosis is that of the last of them
      whose arguments were truncated. */
  lemma CallsAreAssemblies(o: Codec, cuts: seq<Cut>)
    ensures var s := Finalize(o, ProcessAll(o, EMPTY, cuts).0);
      && s.calls == CallsOf(o, Assemblies(o, cuts)) && s.current.None?
      && s.truncation == LastReason(CallsOf(o, Assemblies(o, cuts)))
  {
    AllHeld(o, cuts);
    FinalizeHolds(o, ProcessAll(o, EMPTY, cuts).0, Assemblies(o, cuts));
    ClosedCalls(o, Assemblies(o, cuts));
  }

  // ----- all events of a stream -----

  /** The content that was reported last. */
  function LastSaid(o: Codec, cuts: seq<Cut>): Json
    decreases |cuts|, 0
  {
    if cuts == [] then Null
    else
      var front, cut := cuts[..|cuts| - 1], cuts[|cuts| - 1];
      if Speaks(o, front, cut) then Field(o.decode(cut.raw).value, "content") else LastSaid(o, front)
  }

  /** A content object that is no follow-up and does not repeat what was reported last. */
  predicate Speaks(o: Codec, front: seq<Cut>, cut: Cut)
    decreases |front|, 1
  {
    && cut.kind == Content && o.decode(cut.raw).Some?
    && !Truthy(o, Field(o.decode(cut.raw).value, "followupPrompt"))
    && !o.same(Field(o.decode(cut.raw).value, "content"), LastSaid(o, front))
  }

  /** What one object reports, whatever the tool calls are. */
  predicate IsReported(o: Codec, front: seq<Cut>, cut: Cut)
  {
    o.decode(cut.raw).Some? &&
    match cut.kind
    case Content => Speaks(o, front, cut)
    case Metadata => Field(o.decode(cut.raw).value, "stopReason") == Str("CONTENT_FILTERED")
    case Usage => true
    case ContextUsage => true
    case ReasoningText => true
    case ReasoningSignature => true
    case ReasoningRedacted => true
    case _ => false
  }

  function Reported(o: Codec, cuts: seq<Cut>): seq<Event>
  {
    if cuts == [] then []
    else
      var front, cut := cuts[..|cuts| - 1], cuts[|cuts| - 1];
      Reported(o, front) +
      if IsReported(o, front, cut) then [Event(cut.kind, cut.raw, o.decode(cut.raw).value)] else []
  }

  lemma ObjectReports(o: Codec, s: Core, front: seq<Cut>, cut: Cut)
    requires s.lastContent == LastSaid(o, front)
    ensures var (s', now) := Process(o, s, cut.kind, cut.raw);
      && s'.lastContent == LastSaid(o, front + [cut])
      && now == if IsReported(o, front, cut) then [Event(cut.kind, cut.raw, o.decode(cut.raw).value)] else []
  {
    assert (front + [cut])[..|front|] == front;
  }

  /** For every list of objects: content is reported unless it is a follow-up or repeats what was reported
      last, metadata if it is a refusal, reasoning and usage always, each with its bytes and its decoded
      value, in order; tool objects report nothing. */
  lemma {:induction false} EventsAreReported(o: Codec, cuts: seq<Cut>)
    ensures ProcessAll(o, EMPTY, cuts).1 == Reported(o, cuts)
    ensures ProcessAll(o, EMPTY, cuts).0.lastContent == LastSaid(o, cuts)
    decreases |cuts|
  {
    if cuts != [] {
      var front, cut := cuts[..|cuts| - 1], cuts[|cuts| - 1];
      assert cuts == front + [cut];
      EventsAreReported(o, front);
      ProcessSnoc(o, EMPTY, front, cut);
      ObjectReports(o, ProcessAll(o, EMPTY, front).0, front, cut);
    }
  }
}
