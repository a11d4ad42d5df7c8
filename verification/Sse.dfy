/** Server-sent event framing and its inverse. Main result: splitting what was framed gives back exactly
    the payloads, whatever they hold, because a printed payload has no newline. */
module Sse {
  import opened Text

  /** unicode.IsSpace. */
  predicate IsSpace(c: char)
  {
    var r := c as int;
    9 <= r <= 13 || r == 0x20 || r == 0x85 || r == 0xa0 || r == 0x1680 || 0x2000 <= r <= 0x200a
    || r == 0x2028 || r == 0x2029 || r == 0x202f || r == 0x205f || r == 0x3000
  }

  function TrimFront(s: string): (r: string)
    ensures r == "" || !IsSpace(r[0])
  {
    if s == "" || !IsSpace(s[0]) then s else TrimFront(s[1..])
  }

  function TrimBack(s: string): string
  {
    if s == "" || !IsSpace(s[|s| - 1]) then s else TrimBack(s[..|s| - 1])
  }

  /** bytes.TrimSpace. */
  function TrimSpace(s: string): string { TrimBack(TrimFront(s)) }

  predicate AllSpace(s: string) { forall i :: 0 <= i < |s| ==> IsSpace(s[i]) }

  lemma {:induction false} FrontSpaces(s: string) returns (front: string)
    ensures AllSpace(front) && s == front + TrimFront(s)
    ensures TrimFront(s) == "" || !IsSpace(TrimFront(s)[0])
    decreases |s|
  {
    front := "";
    if s != "" && IsSpace(s[0]) {
      var more := FrontSpaces(s[1..]);
      front := [s[0]] + more;
    }
  }

  lemma {:induction false} BackSpaces(s: string) returns (back: string)
    ensures AllSpace(back) && s == TrimBack(s) + back
    ensures TrimBack(s) == "" || !IsSpace(TrimBack(s)[|TrimBack(s)| - 1])
    decreases |s|
  {
    back := "";
    if s != "" && IsSpace(s[|s| - 1]) {
      var more := BackSpaces(s[..|s| - 1]);
      back := more + [s[|s| - 1]];
    }
  }

  /** Trimming takes spaces off both ends, all of them and nothing else. */
  lemma TrimSpaceIs(s: string) returns (front: string, back: string)
    ensures AllSpace(front) && AllSpace(back) && s == front + TrimSpace(s) + back
    ensures var t := TrimSpace(s); t == "" || (!IsSpace(t[0]) && !IsSpace(t[|t| - 1]))
  {
    front := FrontSpaces(s);
    back := BackSpaces(TrimFront(s));
    var t := TrimSpace(s);
    assert t != "" ==> t[0] == TrimFront(s)[0];
  }

  /** bytes.Split. */
  function Split(s: string, sep: string): seq<string>
    requires sep != ""
    decreases |s|
  {
    var i := Index(s, sep);
    if i < 0 then [s] else [s[..i]] + Split(s[i + |sep|..], sep)
  }

  const NEWLINE: string := ['\n']
  const BLANK_LINE: string := ['\n', '\n']
  const DATA: string := "data:"

  // ----- FormatEvent -----

  /** The lines of one event, without the blank line that ends it. */
  function EventText(name: string, data: string): string
  {
    (if name != "" then "event: " + name + NEWLINE else "") + ("data: " + data)
  }

  /** FormatEvent fills its buffer step by step. */
  method FormatEvent(name: string, data: string) returns (buf: string)
    ensures buf == EventText(name, data) + BLANK_LINE
  {
    buf := "";
    if name != "" {
      buf := buf + "event: ";
      buf := buf + name;
      buf := buf + ['\n'];
    }
    ghost var head := buf;
    buf := buf + "data: ";
    buf := buf + data;
    Associate(head, "data: ", data);
    buf := buf + ['\n', '\n'];
  }

  datatype Event = Event(name: string, data: string)

  /** The bytes of a list of events. */
  function Framed(events: seq<Event>): string
  {
    if events == [] then "" else EventText(events[0].name, events[0].data) + BLANK_LINE + Framed(events[1..])
  }

  function Payloads(events: seq<Event>): seq<string>
  {
    if events == [] then [] else [events[0].data] + Payloads(events[1..])
  }

  // ----- splitSSEData -----

  /** What one line contributes. */
  function LineData(line: string): seq<string>
  {
    var trimmed := TrimSpace(line);
    if !(DATA <= trimmed) then []
    else
      var data := TrimSpace(trimmed[|DATA|..]);
      if data != "" then [data] else []
  }

  function LinesData(lines: seq<string>): seq<string>
  {
    if lines == [] then [] else LineData(lines[0]) + LinesData(lines[1..])
  }

  function EventsData(texts: seq<string>): seq<string>
  {
    if texts == [] then [] else LinesData(Split(texts[0], NEWLINE)) + EventsData(texts[1..])
  }

  /** splitSSEData as a function of the bytes. */
  function SseData(bytes: string): seq<string> { EventsData(Split(bytes, BLANK_LINE)) }

  lemma {:induction false} LinesDataSnoc(lines: seq<string>, line: string)
    ensures LinesData(lines + [line]) == LinesData(lines) + LineData(line)
  {
    if lines == [] {
      assert [line][1..] == [];
    } else {
      LinesDataSnoc(lines[1..], line);
      assert (lines + [line])[1..] == lines[1..] + [line];
      Associate(LineData(lines[0]), LinesData(lines[1..]), LineData(line));
    }
  }

  lemma {:induction false} EventsDataSnoc(texts: seq<string>, text: string)
    ensures EventsData(texts + [text]) == EventsData(texts) + LinesData(Split(text, NEWLINE))
  {
    if texts == [] {
      assert [text][1..] == [];
    } else {
      EventsDataSnoc(texts[1..], text);
      assert (texts + [text])[1..] == texts[1..] + [text];
      Associate(LinesData(Split(texts[0], NEWLINE)), EventsData(texts[1..]), LinesData(Split(text, NEWLINE)));
    }
  }

  /** splitSSEData: the two nested loops. */
  method SplitSseData(bytes: string) returns (out: seq<string>)
    ensures out == SseData(bytes)
  {
    out := [];
    var events := Split(bytes, BLANK_LINE);
    for i := 0 to |events|
      invariant out == EventsData(events[..i])
    {
      assert events[..i + 1] == events[..i] + [events[i]];
      EventsDataSnoc(events[..i], events[i]);
      out := AppendLines(out, Split(events[i], NEWLINE));
    }
    assert events[..|events|] == events;
  }

  /** The inner loop. */
  method AppendLines(before: seq<string>, lines: seq<string>) returns (out: seq<string>)
    ensures out == before + LinesData(lines)
  {
    out := before;
    for j := 0 to |lines|
      invariant out == before + LinesData(lines[..j])
    {
      assert lines[..j + 1] == lines[..j] + [lines[j]];
      LinesDataSnoc(lines[..j], lines[j]);
      Associate(before, LinesData(lines[..j]), LineData(lines[j]));
      out := AppendLine(out, lines[j]);
    }
    assert lines[..|lines|] == lines;
  }

  method AppendLine(before: seq<string>, line: string) returns (out: seq<string>)
    ensures out == before + LineData(line)
  {
    out := before;
    var trimmed := TrimSpace(line);
    if !(DATA <= trimmed) { return; }
    var data := TrimSpace(trimmed[|DATA|..]);
    if |data| > 0 { out := out + [data]; }
  }

  // ----- the round trip -----

  predicate OneLine(s: string) { forall i :: 0 <= i < |s| ==> s[i] != '\n' }

  /** Not empty, on one line, and with no space at either end. */
  predicate GoodPayload(s: string)
  {
    s != "" && OneLine(s) && !IsSpace(s[0]) && !IsSpace(s[|s| - 1])
  }

  predicate GoodEvents(events: seq<Event>)
  {
    forall i :: 0 <= i < |events| ==> OneLine(events[i].name) && GoodPayload(events[i].data)
  }

  /** Splitting at the first separator. */
  lemma SplitFirst(a: string, sep: string, b: string)
    requires sep != "" && Index(a + sep + b, sep) == |a|
    ensures Split(a + sep + b, sep) == [a] + Split(b, sep)
  {
    var s := a + sep + b;
    assert s[..|a|] == a && s[|a| + |sep|..] == b;
  }

  lemma SplitNone(s: string)
    requires OneLine(s)
    ensures Split(s, NEWLINE) == [s]
  {
    NewlineAt(s, Index(s, NEWLINE));
  }

  lemma NewlineAt(s: string, i: int)
    ensures Occurs(s, NEWLINE, i) ==> s[i] == '\n'
  {
    if Occurs(s, NEWLINE, i) { assert s[i..i + 1][0] == s[i]; }
  }

  lemma SplitLine(a: string, b: string)
    requires OneLine(a) && OneLine(b)
    ensures Split(a + NEWLINE + b, NEWLINE) == [a, b]
  {
    var s := a + NEWLINE + b;
    assert Occurs(s, NEWLINE, |a|);
    NewlineAt(s, Index(s, NEWLINE));
    SplitFirst(a, NEWLINE, b);
    SplitNone(b);
  }

  /** A text without two newlines in a row, and none at its end, ends at the first blank line. */
  lemma FirstBlankLine(a: string, b: string)
    requires a != "" && a[|a| - 1] != '\n'
    requires forall i :: 0 <= i < |a| - 1 ==> a[i] != '\n' || a[i + 1] != '\n'
    ensures Index(a + BLANK_LINE + b, BLANK_LINE) == |a|
  {
    var s := a + BLANK_LINE + b;
    assert s[|a|..|a| + 2] == BLANK_LINE;
    assert Occurs(s, BLANK_LINE, |a|);
    var i := Index(s, BLANK_LINE);
    assert s[i..i + 2][0] == s[i] && s[i..i + 2][1] == s[i + 1];
  }

  lemma NoBlankLineInside(name: string, data: string)
    requires OneLine(name) && GoodPayload(data)
    ensures var a := EventText(name, data);
      a != "" && a[|a| - 1] != '\n' && forall i :: 0 <= i < |a| - 1 ==> a[i] != '\n' || a[i + 1] != '\n'
  {
    var a, tail := EventText(name, data), "data: " + data;
    assert OneLine(tail) && tail[|tail| - 1] == data[|data| - 1];
    if name == "" {
      assert a == tail;
    } else {
      var head := "event: " + name;
      assert OneLine(head);
      assert a == head + NEWLINE + tail;
    }
  }

  lemma TrimKeeps(s: string)
    requires s != "" && !IsSpace(s[0]) && !IsSpace(s[|s| - 1])
    ensures TrimSpace(s) == s
  {
  }

  lemma DataLine(data: string)
    requires GoodPayload(data)
    ensures LineData("data: " + data) == [data]
  {
    var line := "data: " + data;
    assert line[|line| - 1] == data[|data| - 1];
    TrimKeeps(line);
    assert line[|DATA|..] == " " + data;
    assert (" " + data)[1..] == data;
    TrimKeeps(data);
  }

  lemma NameLine(name: string)
    ensures LineData("event: " + name) == []
  {
    var line := "event: " + name;
    assert line[0] == 'e';
    TrimBackFirst(line);
  }

  lemma {:induction false} TrimBackFirst(s: string)
    ensures TrimBack(s) != "" ==> s != "" && TrimBack(s)[0] == s[0]
  {
    if s != "" && IsSpace(s[|s| - 1]) { TrimBackFirst(s[..|s| - 1]); }
  }

  lemma LinesDataOf(a: string, b: string)
    ensures LinesData([a]) == LineData(a) && LinesData([a, b]) == LineData(a) + LineData(b)
  {
    assert [a][1..] == [] && [a, b][1..] == [b] && [b][1..] == [];
  }

  lemma OneLineAppend(a: string, b: string)
    requires OneLine(a) && OneLine(b)
    ensures OneLine(a + b)
  {
  }

  lemma EventLines(name: string, data: string)
    requires OneLine(name) && GoodPayload(data)
    ensures LinesData(Split(EventText(name, data), NEWLINE)) == [data]
  {
    var head, tail := "event: " + name, "data: " + data;
    OneLineAppend("event: ", name);
    OneLineAppend("data: ", data);
    DataLine(data);
    NameLine(name);
    SplitNone(tail);
    SplitLine(head, tail);
    LinesDataOf(tail, tail);
    LinesDataOf(head, tail);
    if name == "" { assert EventText(name, data) == tail; }
  }

  /** Splitting framed events gives back their payloads, in order, none lost and none added. */
  lemma {:induction false} SplitOfFramed(events: seq<Event>)
    requires GoodEvents(events)
    ensures SseData(Framed(events)) == Payloads(events)
  {
    if events == [] {
      SplitEmpty();
    } else {
      var e := events[0];
      var a, b := EventText(e.name, e.data), Framed(events[1..]);
      NoBlankLineInside(e.name, e.data);
      FirstBlankLine(a, b);
      SplitFirst(a, BLANK_LINE, b);
      assert ([a] + Split(b, BLANK_LINE))[1..] == Split(b, BLANK_LINE);
      EventLines(e.name, e.data);
      SplitOfFramed(events[1..]);
    }
  }

  lemma SplitEmpty()
    ensures SseData("") == []
  {
    assert Split("", BLANK_LINE) == [""];
    SplitNone("");
    assert [""][1..] == [];
  }
}
