/** The upstream parser object: the same transitions, made in place on its fields. */
module StreamParsers {
  import opened Options
  import opened Text
  import opened Json
  import opened Braces
  import opened ToolCalls
  import opened EventParser
  import Utf8

  class StreamParser {
    const o: Codec
    var buffer: string
    var lastContent: Json
    var currentToolCall: Option<ToolAcc>
    var toolCalls: seq<ToolCall>
    var lastTruncation: Option<string>
    var drawn: nat

    function Abs(): Core
      reads this
    {
      Core(lastContent, currentToolCall, toolCalls, lastTruncation, drawn)
    }

    constructor (o: Codec)
      ensures this.o == o && buffer == "" && Abs() == EMPTY
    {
      this.o := o;
      buffer, lastContent, currentToolCall, toolCalls, lastTruncation, drawn := "", Null, None, [], None, 0;
    }

    method Feed(chunk: string) returns (events: seq<Event>)
      modifies this
      ensures (buffer, Abs(), events) == EventParser.Feed(o, EVENT_PATTERNS, old(buffer), old(Abs()), chunk)
    {
      buffer := buffer + Utf8.Clean(chunk);
      events := Drain(EVENT_PATTERNS);
    }

    /** The loop of Feed over a pattern table. */
    method Drain(pats: seq<Pattern>) returns (events: seq<Event>)
      modifies this
      ensures (buffer, Abs(), events) == EventParser.Drain(o, pats, old(buffer), old(Abs()))
    {
      events := [];
      ghost var start, before, done := buffer, Abs(), [];
      Associate(CutAll(pats, start).1, [], []);
      while true
        invariant CutSoFar(pats, start, done, buffer)
        invariant (Abs(), events) == ProcessAll(o, before, done)
        decreases |buffer|
      {
        var next := FindNext(pats, buffer);
        if next.None? { break; }
        var (cut, n) := next.value;
        CutMore(pats, start, done, buffer);
        ProcessMore(o, before, done, cut);
        buffer := buffer[n..];
        var now := ProcessObject(cut.kind, cut.raw);
        events := events + now;
        done := done + [cut];
      }
      Associate(done, [], []);
    }

    method ProcessObject(kind: Kind, raw: string) returns (now: seq<Event>)
      modifies this
      ensures (Abs(), now) == Process(o, old(Abs()), kind, raw) && buffer == old(buffer)
    {
      now := [];
      match o.decode(raw) {
        case None =>
        case Some(value) =>
          match kind {
            case Content => now := ProcessContent(value, raw);
            case ToolStart => ProcessToolStart(value, raw);
            case ToolInput => ProcessToolInput(raw);
            case ToolStop => ProcessToolStop(value);
            case Followup =>
            case Metadata =>
              if Field(value, "stopReason") == Str("CONTENT_FILTERED") { now := [Event(Metadata, raw, value)]; }
            case _ => now := [Event(kind, raw, value)];
          }
      }
    }

    method ProcessContent(value: Fields, raw: string) returns (now: seq<Event>)
      modifies this
      ensures (Abs(), now) == EventParser.ProcessContent(o, old(Abs()), value, raw) && buffer == old(buffer)
    {
      var content := Field(value, "content");
      if Truthy(o, Field(value, "followupPrompt")) { return []; }
      if o.same(content, lastContent) { return []; }
      lastContent := content;
      return [Event(Content, raw, value)];
    }

    method ProcessToolStart(value: Fields, raw: string)
      modifies this
      ensures Abs() == EventParser.ProcessToolStart(o, old(Abs()), value, raw) && buffer == old(buffer)
    {
      if currentToolCall.Some? { FinalizeToolCall(); }
      var inputStr := o.argText(raw);
      var generated := o.callId(drawn);
      drawn := drawn + 1;
      var id := if "toolUseId" in value then value["toolUseId"] else Str(generated);
      var name := if "name" in value then value["name"] else Str("");
      currentToolCall := Some(ToolAcc(id, name, inputStr));
      if Truthy(o, Field(value, "stop")) { FinalizeToolCall(); }
    }

    method ProcessToolInput(raw: string)
      modifies this
      ensures Abs() == EventParser.ProcessToolInput(o, old(Abs()), raw) && buffer == old(buffer)
    {
      if currentToolCall.None? { return; }
      var acc := currentToolCall.value;
      currentToolCall := Some(acc.(arguments := acc.arguments + o.argText(raw)));
    }

    method ProcessToolStop(value: Fields)
      modifies this
      ensures Abs() == EventParser.ProcessToolStop(o, old(Abs()), value) && buffer == old(buffer)
    {
      if currentToolCall.Some? && Truthy(o, Field(value, "stop")) { FinalizeToolCall(); }
    }

    method FinalizeToolCall()
      modifies this
      ensures Abs() == Finalize(o, old(Abs())) && buffer == old(buffer)
    {
      if currentToolCall.None? { return; }
      var acc := currentToolCall.value;
      currentToolCall := None;
      var finalArgs, trunc: Option<string> := "{}", None;
      if !o.blank(acc.arguments) {
        var reformatted := o.reformat(acc.arguments);
        if reformatted.Some? {
          finalArgs := reformatted.value;
        } else {
          trunc := o.diagnose(acc.arguments);
        }
      }
      if trunc.Some? { lastTruncation := trunc; }
      toolCalls := toolCalls + [ToolCall(acc.id, acc.name, finalArgs, trunc)];
    }

    /** GetToolCalls and Finish: close the pending call, return the deduplicated calls; the stored list
        stays as it is. */
    method GetToolCalls() returns (calls: seq<ToolCall>)
      modifies this
      ensures Abs() == Finalize(o, old(Abs())) && buffer == old(buffer)
      ensures calls == Dedup(o, toolCalls)
    {
      if currentToolCall.Some? { FinalizeToolCall(); }
      calls := DeduplicateToolCalls(o, toolCalls);
    }
  }

  /** `done` has been cut from the front of `start` and `buf` is what remains. */
  predicate CutSoFar(pats: seq<Pattern>, start: string, done: seq<Cut>, buf: string)
  {
    CutAll(pats, start) == (CutAll(pats, buf).0, done + CutAll(pats, buf).1)
  }

  lemma CutMore(pats: seq<Pattern>, start: string, done: seq<Cut>, buf: string)
    requires CutSoFar(pats, start, done, buf) && Next(pats, buf).Some?
    ensures var (cut, n) := Next(pats, buf).value; CutSoFar(pats, start, done + [cut], buf[n..])
  {
    var (cut, n) := Next(pats, buf).value;
    Associate(done, [cut], CutAll(pats, buf[n..]).1);
  }

  lemma ProcessMore(o: Codec, s: Core, done: seq<Cut>, cut: Cut)
    ensures var (s1, evs) := ProcessAll(o, s, done);
      var (s2, now) := Process(o, s1, cut.kind, cut.raw);
      ProcessAll(o, s, done + [cut]) == (s2, evs + now)
  {
    assert (done + [cut])[..|done|] == done;
  }

  /** The next complete object: the earliest pattern and its matching brace. */
  method FindNext(pats: seq<Pattern>, buf: string) returns (r: Option<(Cut, nat)>)
    ensures r == Next(pats, buf)
  {
    var earliestPos, earliest := FindEarliest(pats, buf);
    if earliestPos == -1 { return None; }
    var jsonEnd := FindMatchingBrace(buf, earliestPos);
    if jsonEnd == -1 { return None; }
    r := Some((Cut(pats[earliest].kind, buf[earliestPos..jsonEnd + 1]), jsonEnd + 1));
    assert r == CutOut(pats, buf, earliestPos, earliest, jsonEnd);
  }

  /** The pattern search at the head of Feed's loop. */
  method FindEarliest(pats: seq<Pattern>, buf: string) returns (pos: int, k: int)
    ensures (pos, k) == Earliest(buf, pats)
  {
    pos, k := -1, -1;
    for i := 0 to |pats|
      invariant (pos, k) == Earliest(buf, pats[..i])
    {
      assert pats[..i + 1][..i] == pats[..i];
      var at := Index(buf, pats[i].prefix);
      if at != -1 && (pos == -1 || at < pos) { pos, k := at, i; }
    }
    assert pats[..|pats|] == pats;
  }
}
