/** How a client reads an event stream (section 9.2.6 of the WHATWG HTML standard), and that it reads back the
    events that were framed, names and data. */
module SseClient {
  import opened Text
  import opened Sse

  const EVENT: string := "event:"

  /** The buffers of the event being read, and the events dispatched. */
  datatype Reader = Reader(name: string, data: string, events: seq<Event>)

  const START := Reader("", "", [])

  /** The value of a field, without one leading space. */
  function Value(rest: string): string { if rest != "" && rest[0] == ' ' then rest[1..] else rest }

  /** A blank line dispatches, if there are data; other lines are fields. */
  function ReadLine(r: Reader, line: string): Reader
  {
    if line == "" then
      if r.data == "" then Reader("", "", r.events)
      else Reader("", "", r.events + [Event(r.name, r.data[..|r.data| - 1])])
    else if EVENT <= line then r.(name := Value(line[|EVENT|..]))
    else if DATA <= line then r.(data := r.data + Value(line[|DATA|..]) + NEWLINE)
    else r
  }

  function ReadLines(r: Reader, lines: seq<string>): Reader
    decreases |lines|
  {
    if lines == [] then r else ReadLines(ReadLine(r, lines[0]), lines[1..])
  }

  /** The events a client dispatches for the bytes. */
  function ClientEvents(bytes: string): seq<Event> { ReadLines(START, Split(bytes, NEWLINE)).events }

  /** The first line is read, and then the rest. */
  lemma LineRead(r: Reader, line: string, rest: string)
    requires OneLine(line)
    ensures ReadLines(r, Split(line + NEWLINE + rest, NEWLINE)) ==
      ReadLines(ReadLine(r, line), Split(rest, NEWLINE))
  {
    var s := line + NEWLINE + rest;
    assert s[|line|..|line| + 1] == NEWLINE;
    assert Occurs(s, NEWLINE, |line|);
    NewlineAt(s, Index(s, NEWLINE));
    SplitFirst(line, NEWLINE, rest);
    assert ([line] + Split(rest, NEWLINE))[1..] == Split(rest, NEWLINE);
  }

  lemma Fields(r: Reader, name: string, data: string)
    ensures ReadLine(r, "event: " + name) == r.(name := name)
    ensures ReadLine(r, "data: " + data) == r.(data := r.data + data + NEWLINE)
  {
    var event, line := "event: " + name, "data: " + data;
    assert event[|EVENT|..] == " " + name && (" " + name)[1..] == name;
    assert line[|DATA|..] == " " + data && (" " + data)[1..] == data;
    assert line[0] == 'd' && EVENT[0] == 'e';
  }

  lemma Framing(name: string, data: string, rest: string)
    ensures "data: " + data + BLANK_LINE + rest == ("data: " + data) + NEWLINE + ("" + NEWLINE + rest)
    ensures "event: " + name + NEWLINE + ("data: " + data) + BLANK_LINE + rest ==
      ("event: " + name) + NEWLINE + ("data: " + data + BLANK_LINE + rest)
  {
  }

  /** The data line and the blank line behind it. */
  lemma DataRead(name: string, events: seq<Event>, data: string, rest: string)
    requires OneLine(data)
    ensures ReadLines(Reader(name, "", events), Split("data: " + data + BLANK_LINE + rest, NEWLINE)) ==
      ReadLines(Reader("", "", events + [Event(name, data)]), Split(rest, NEWLINE))
  {
    OneLineAppend("data: ", data);
    Framing(name, data, rest);
    LineRead(Reader(name, "", events), "data: " + data, "" + NEWLINE + rest);
    Fields(Reader(name, "", events), name, data);
    assert "" + data + NEWLINE == data + NEWLINE && (data + NEWLINE)[..|data|] == data;
    LineRead(Reader(name, data + NEWLINE, events), "", rest);
  }

  /** The event line in front of a data line. */
  lemma NameRead(name: string, events: seq<Event>, data: string, rest: string)
    requires OneLine(name)
    ensures ReadLines(Reader("", "", events), Split("event: " + name + NEWLINE + ("data: " + data) + BLANK_LINE + rest,
                                                    NEWLINE)) ==
      ReadLines(Reader(name, "", events), Split("data: " + data + BLANK_LINE + rest, NEWLINE))
  {
    Framing(name, data, rest);
    OneLineAppend("event: ", name);
    LineRead(Reader("", "", events), "event: " + name, "data: " + data + BLANK_LINE + rest);
    Fields(Reader("", "", events), name, data);
  }

  lemma EventRead(events: seq<Event>, e: Event, rest: string)
    requires OneLine(e.name) && OneLine(e.data)
    ensures ReadLines(Reader("", "", events), Split(EventText(e.name, e.data) + BLANK_LINE + rest, NEWLINE)) ==
      ReadLines(Reader("", "", events + [e]), Split(rest, NEWLINE))
  {
    DataRead(e.name, events, e.data, rest);
    if e.name == "" {
      assert EventText("", e.data) == "data: " + e.data;
    } else {
      NameRead(e.name, events, e.data, rest);
    }
  }

  /** Reading these bytes between two events dispatches `events`. */
  predicate Dispatches(bytes: string, before: seq<Event>, events: seq<Event>)
  {
    ReadLines(Reader("", "", before), Split(bytes, NEWLINE)).events == before + events
  }

  lemma DispatchFirst(before: seq<Event>, e: Event, later: seq<Event>, rest: string)
    requires OneLine(e.name) && OneLine(e.data) && Dispatches(rest, before + [e], later)
    ensures Dispatches(EventText(e.name, e.data) + BLANK_LINE + rest, before, [e] + later)
  {
    EventRead(before, e, rest);
    Associate(before, [e], later);
  }

  lemma DispatchNone(before: seq<Event>)
    ensures Dispatches("", before, [])
  {
    SplitNone("");
    assert before + [] == before;
    assert [""][1..] == [];
  }

  lemma {:induction false} EventsRead(before: seq<Event>, events: seq<Event>)
    requires GoodEvents(events)
    ensures Dispatches(Framed(events), before, events)
    decreases |events|
  {
    if events == [] {
      DispatchNone(before);
    } else {
      var e, later := events[0], events[1..];
      EventsRead(before + [e], later);
      DispatchFirst(before, e, later, Framed(later));
      assert events == [e] + later;
    }
  }

  /** A client reads back exactly the events that were framed, names and data, in order. */
  lemma ClientReadsBack(events: seq<Event>)
    requires GoodEvents(events)
    ensures ClientEvents(Framed(events)) == events
  {
    EventsRead([], events);
    assert [] + events == events;
  }
}
