/** A JSON reader, as far as encoding/json accepts texts, and the proof that it inverts the printer. */
module JsonReader {
  import opened Json
  import opened Numbers
  import opened Options
  import opened Text

  /** The deepest nesting encoding/json accepts. */
  const NESTING_LIMIT: nat := 10000

  // ----- reading, after section 2 of RFC 8259 -----

  /** The characters of a string up to its closing quote, decoded, and what follows. */
  function ReadChars(s: string): (r: Option<(string, string)>)
    ensures r.Some? ==> |r.value.1| < |s|
    decreases |s|
  {
    if s == "" then None
    else if s[0] == '"' then Some(("", s[1..]))
    else
      var one := UnescapeOne(s);
      if one.None? then None
      else
        var later := ReadChars(s[one.value.1..]);
        if later.None? then None else Some(([one.value.0] + later.value.0, later.value.1))
  }

  function ReadText(s: string): (r: Option<(string, string)>)
    ensures r.Some? ==> |r.value.1| < |s|
  {
    if s == "" || s[0] != '"' then None else ReadChars(s[1..])
  }

  function TextValue(text: Option<(string, string)>): Option<(Json, string)>
  {
    if text.None? then None else Some((Str(text.value.0), text.value.1))
  }

  /** A literal or a number. */
  function ReadScalar(s: string): (r: Option<(Json, string)>)
    ensures r.Some? ==> |r.value.1| < |s|
  {
    var n := NumberLength(s);
    if "null" <= s then Some((Null, s[4..]))
    else if "true" <= s then Some((Bool(true), s[4..]))
    else if "false" <= s then Some((Bool(false), s[5..]))
    else if n > 0 then Some((Num(s[..n]), s[n..]))
    else None
  }

  /** One value and what follows it; `room` is how many brackets may still be opened. */
  function ReadValue(s: string, room: nat): (r: Option<(Json, string)>)
    ensures r.Some? ==> |r.value.1| < |s|
    decreases |s|, 0
  {
    var t := TrimLeft(s);
    if t == "" then None
    else if t[0] == '"' then TextValue(ReadText(t))
    else if t[0] == '[' then ReadArray(t[1..], room)
    else if t[0] == '{' then ReadObject(t[1..], room)
    else ReadScalar(t)
  }

  /** An array behind its opening bracket. */
  function ReadArray(s: string, room: nat): (r: Option<(Json, string)>)
    ensures r.Some? ==> |r.value.1| < |s|
    decreases |s|, 2
  {
    var t := TrimLeft(s);
    if room == 0 then None
    else if t != "" && t[0] == ']' then Some((Arr([]), t[1..]))
    else
      var items := ReadItems(s, room - 1);
      if items.None? then None else Some((Arr(items.value.0), items.value.1))
  }

  /** Values with commas between them, up to the closing bracket. */
  function ReadItems(s: string, room: nat): (r: Option<(seq<Json>, string)>)
    ensures r.Some? ==> |r.value.1| < |s|
    decreases |s|, 1
  {
    var first := ReadValue(s, room);
    if first.None? then None
    else
      var t := TrimLeft(first.value.1);
      if t == "" then None
      else if t[0] == ']' then Some(([first.value.0], t[1..]))
      else if t[0] != ',' then None
      else
        var later := ReadItems(t[1..], room);
        if later.None? then None else Some(([first.value.0] + later.value.0, later.value.1))
  }

  /** An object behind its opening brace. */
  function ReadObject(s: string, room: nat): (r: Option<(Json, string)>)
    ensures r.Some? ==> |r.value.1| < |s|
    decreases |s|, 3
  {
    var t := TrimLeft(s);
    if room == 0 then None
    else if t != "" && t[0] == '}' then Some((Obj([]), t[1..]))
    else
      var members := ReadMembers(s, room - 1);
      if members.None? then None else Some((Obj(members.value.0), members.value.1))
  }

  /** A key, a colon and a value. */
  function ReadMember(s: string, room: nat): (r: Option<(Member, string)>)
    ensures r.Some? ==> |r.value.1| < |s|
    decreases |s|, 1
  {
    var key := ReadText(TrimLeft(s));
    if key.None? then None
    else
      var t := TrimLeft(key.value.1);
      if t == "" || t[0] != ':' then None
      else
        var v := ReadValue(t[1..], room);
        if v.None? then None else Some((Member(key.value.0, v.value.0), v.value.1))
  }

  function ReadMembers(s: string, room: nat): (r: Option<(seq<Member>, string)>)
    ensures r.Some? ==> |r.value.1| < |s|
    decreases |s|, 2
  {
    var first := ReadMember(s, room);
    if first.None? then None
    else
      var t := TrimLeft(first.value.1);
      if t == "" then None
      else if t[0] == '}' then Some(([first.value.0], t[1..]))
      else if t[0] != ',' then None
      else
        var later := ReadMembers(t[1..], room);
        if later.None? then None else Some(([first.value.0] + later.value.0, later.value.1))
  }

  /** A whole text, with nothing but blanks around the value. */
  function Parse(s: string): Option<Json>
  {
    var v := ReadValue(s, NESTING_LIMIT);
    if v.None? || TrimLeft(v.value.1) != "" then None else Some(v.value.0)
  }

  // ----- how deep a value is -----

  function Max(a: nat, b: nat): nat { if a <= b then b else a }

  /** The largest number of brackets open at once. */
  function Nesting(v: Json): nat
    decreases v, 1
  {
    match v
    case Arr(items) => 1 + NestingOfItems(items)
    case Obj(members) => 1 + NestingOfMembers(members)
    case _ => 0
  }

  function NestingOfItems(items: seq<Json>): nat
    decreases items, 0
  {
    if items == [] then 0 else Max(Nesting(items[0]), NestingOfItems(items[1..]))
  }

  function NestingOfMembers(members: seq<Member>): nat
    decreases members, 0
  {
    if members == [] then 0 else Max(Nesting(members[0].value), NestingOfMembers(members[1..]))
  }

  // ----- printed texts -----

  /** A text that does not begin with a blank. */
  predicate Solid(s: string) { s != "" && !IsBlank(s[0]) }

  lemma SolidTrims(s: string)
    requires Solid(s)
    ensures TrimLeft(s) == s && TrimLeft([' '] + s) == s
  {
    LeadingBlanksIs(s, 0);
    LeadingBlanksIs([' '] + s, 1);
  }

  lemma SolidAppend(s: string, rest: string)
    requires Solid(s)
    ensures Solid(s + rest) && (s + rest)[0] == s[0]
  {
  }

  lemma PrintedIsSolid(v: Json, ascii: bool)
    requires ValidJson(v)
    ensures Solid(Print(v, ascii))
  {
  }

  /** Characters read back one by one. */
  lemma CharReads(c: char, ascii: bool, rest: string, u: string, behind: string)
    requires ReadChars(rest) == Some((u, behind))
    ensures ReadChars(Escape(c, ascii) + rest) == Some(([c] + u, behind))
  {
    UnescapeEscape(c, ascii, rest);
    DropFront(Escape(c, ascii), rest);
  }

  lemma {:induction false} CharsRead(s: string, ascii: bool, rest: string, u: string, behind: string)
    requires ReadChars(rest) == Some((u, behind))
    ensures ReadChars(EscapeAll(s, ascii) + rest) == Some((s + u, behind))
  {
    if s == "" {
      Associate(rest, "", "");
      Associate(u, "", "");
    } else {
      var front, c := s[..|s| - 1], s[|s| - 1];
      CharReads(c, ascii, rest, u, behind);
      CharsRead(front, ascii, Escape(c, ascii) + rest, [c] + u, behind);
      Associate(EscapeAll(front, ascii), Escape(c, ascii), rest);
      SnocText(s, u);
    }
  }

  lemma QuoteReads(s: string, ascii: bool, rest: string)
    ensures ReadText(Quote(s, ascii) + rest) == Some((s, rest))
  {
    var close := ['"'] + rest;
    DropFront(['"'], rest);
    CharsRead(s, ascii, close, "", rest);
    Associate(s, "", "");
    Opened(['"'], EscapeAll(s, ascii), ['"'], rest);
  }

  lemma Opened(open: string, body: string, close: string, rest: string)
    requires |open| == 1
    ensures var t := (open + body + close) + rest; t != "" && t[0] == open[0] && t[1..] == body + (close + rest)
  {
  }

  lemma NoLiteral(s: string)
    requires s != "" && IsNumChar(s[0])
    ensures !("null" <= s) && !("true" <= s) && !("false" <= s)
  {
  }

  lemma Ends(p: string, rest: string)
    ensures (p + rest)[..|p|] == p && (p + rest)[|p|..] == rest
  {
  }

  lemma NumberReads(text: string, rest: string)
    requires IsNumber(text) && EndsNumber(rest)
    ensures ReadScalar(text + rest) == Some((Num(text), rest))
  {
    NumberStops(text, rest);
    NumberIsNumChars(text);
    NoLiteral(text + rest);
    Ends(text, rest);
  }

  lemma LiteralReads(v: Json, rest: string)
    requires v.Null? || v.Bool?
    ensures ReadScalar(Print(v, false) + rest) == Some((v, rest))
  {
    var p := Print(v, false);
    var t := p + rest;
    assert t[..|p|] == p && t[|p|..] == rest;
    assert t[0] == p[0];
  }

  lemma JoinSnoc(pieces: seq<string>, p: string)
    requires pieces != []
    ensures Join(pieces + [p]) == Join(pieces) + (", " + p)
  {
    assert (pieces + [p])[..|pieces|] == pieces;
    Associate(Join(pieces), ", ", p);
  }

  lemma JoinOne(p: string)
    ensures Join([p]) == p
  {
    assert [p][..0] == [];
  }

  lemma {:induction false} JoinFront(first: string, rest: seq<string>)
    requires rest != []
    ensures Join([first] + rest) == first + (", " + Join(rest))
    decreases |rest|
  {
    var n := |rest| - 1;
    var front, last := rest[..n], rest[n];
    assert rest == front + [last];
    if front == [] {
      assert rest == [last];
      JoinOne(first);
      JoinOne(last);
      JoinSnoc([first], last);
    } else {
      JoinFront(first, front);
      JoinSnoc(front, last);
      JoinSnoc([first] + front, last);
      assert [first] + rest == ([first] + front) + [last];
      Associate(first, ", " + Join(front), ", " + last);
      Associate(", ", Join(front), ", " + last);
    }
  }

  // ----- reading a printed value back -----

  lemma BlankFront(s: string, room: nat)
    requires Solid(s)
    ensures ReadValue([' '] + s, room) == ReadValue(s, room)
    ensures ReadMember([' '] + s, room) == ReadMember(s, room)
  {
    SolidTrims(s);
  }

  /** A blank in front of several items or members is skipped with the first. */
  lemma BlankItems(s: string, room: nat)
    requires Solid(s)
    ensures ReadItems([' '] + s, room) == ReadItems(s, room)
  {
    BlankFront(s, room);
  }

  lemma BlankMembers(s: string, room: nat)
    requires Solid(s)
    ensures ReadMembers([' '] + s, room) == ReadMembers(s, room)
  {
    BlankFront(s, room);
  }

  lemma CommaBehind(tail: string)
    ensures TrimLeft(", " + tail) == ", " + tail && (", " + tail)[0] == ',' && (", " + tail)[1..] == [' '] + tail
  {
    SolidTrims(", " + tail);
  }

  lemma ItemsEnd(s: string, room: nat, v: Json, rest: string)
    requires ReadValue(s, room) == Some((v, "]" + rest))
    ensures ReadItems(s, room) == Some(([v], rest))
  {
    SolidTrims("]" + rest);
    Ends("]", rest);
  }

  lemma ItemsMore(s: string, room: nat, v: Json, tail: string)
    requires ReadValue(s, room) == Some((v, ", " + tail)) && Solid(tail)
    ensures var later := ReadItems(tail, room);
      ReadItems(s, room) == if later.None? then None else Some(([v] + later.value.0, later.value.1))
  {
    CommaBehind(tail);
    BlankItems(tail, room);
  }

  lemma MembersEnd(s: string, room: nat, m: Member, rest: string)
    requires ReadMember(s, room) == Some((m, "}" + rest))
    ensures ReadMembers(s, room) == Some(([m], rest))
  {
    SolidTrims("}" + rest);
    Ends("}", rest);
  }

  lemma MembersMore(s: string, room: nat, m: Member, tail: string)
    requires ReadMember(s, room) == Some((m, ", " + tail)) && Solid(tail)
    ensures var later := ReadMembers(tail, room);
      ReadMembers(s, room) == if later.None? then None else Some(([m] + later.value.0, later.value.1))
  {
    CommaBehind(tail);
    BlankMembers(tail, room);
  }

  /** The text of pieces from the first on, with `end` behind them. */
  lemma PiecesText(first: string, later: seq<string>, end: string)
    ensures Join([first] + later) + end == first + if later == [] then end else ", " + (Join(later) + end)
  {
    if later == [] {
      JoinOne(first);
      Associate([first], [], []);
    } else {
      JoinFront(first, later);
      Associate(first, ", " + Join(later), end);
      Associate(", ", Join(later), end);
    }
  }

  lemma PiecesSolid(pieces: seq<string>, end: string)
    requires pieces != [] && Solid(pieces[0])
    ensures Solid(Join(pieces) + end) && (Join(pieces) + end)[0] == pieces[0][0]
  {
    assert pieces == [pieces[0]] + pieces[1..];
    PiecesText(pieces[0], pieces[1..], end);
  }

  lemma NestedItems(items: seq<Json>, room: nat)
    requires items != []
    ensures NestingOfItems(items) <= room <==> Nesting(items[0]) <= room && NestingOfItems(items[1..]) <= room
  {
  }

  lemma NestedMembers(members: seq<Member>, room: nat)
    requires members != []
    ensures NestingOfMembers(members) <= room <==>
      Nesting(members[0].value) <= room && NestingOfMembers(members[1..]) <= room
  {
  }

  lemma {:induction false} ItemsRead(items: seq<Json>, ascii: bool, room: nat, rest: string)
    requires items != [] && forall k :: 0 <= k < |items| ==> ValidJson(items[k])
    ensures ReadItems(Join(PrintItems(items, ascii)) + ("]" + rest), room) ==
      if NestingOfItems(items) <= room then Some((items, rest)) else None
    decreases items, 0
  {
    var v, others, end := items[0], items[1..], "]" + rest;
    var p, later := Print(v, ascii), PrintItems(others, ascii);
    var s, tail := Join([p] + later) + end, Join(later) + end;
    PiecesText(p, later, end);
    NestedItems(items, room);
    FrontBack(items);
    if others == [] {
      ReadPrinted(v, ascii, room, end);
      if Nesting(v) <= room { ItemsEnd(s, room, v, rest); }
    } else {
      ReadPrinted(v, ascii, room, ", " + tail);
      ItemsRead(others, ascii, room, rest);
      PrintedIsSolid(others[0], ascii);
      PiecesSolid(later, end);
      if Nesting(v) <= room { ItemsMore(s, room, v, tail); }
    }
  }

  lemma FrontBack<T>(items: seq<T>)
    requires items != []
    ensures items == [items[0]] + items[1..] && (items[1..] == [] ==> items == [items[0]])
  {
  }

  lemma {:induction false} MemberReads(m: Member, ascii: bool, room: nat, rest: string)
    requires ValidJson(m.value) && EndsNumber(rest)
    ensures ReadMember(PrintMember(m, ascii) + rest, room) ==
      if Nesting(m.value) <= room then Some((m, rest)) else None
    decreases m, 0
  {
    var key, value := Quote(m.key, ascii), Print(m.value, ascii);
    Associate(key + ": ", value, rest);
    Associate(key, ": ", value + rest);
    SolidAppend(key, ": " + (value + rest));
    SolidTrims(key + (": " + (value + rest)));
    QuoteReads(m.key, ascii, ": " + (value + rest));
    ColonBehind(value + rest);
    PrintedIsSolid(m.value, ascii);
    SolidAppend(value, rest);
    BlankFront(value + rest, room);
    ReadPrinted(m.value, ascii, room, rest);
  }

  lemma ColonBehind(tail: string)
    ensures TrimLeft(": " + tail) == ": " + tail && (": " + tail)[0] == ':' && (": " + tail)[1..] == [' '] + tail
  {
    SolidTrims(": " + tail);
  }

  lemma MemberIsSolid(m: Member, ascii: bool)
    ensures Solid(PrintMember(m, ascii)) && PrintMember(m, ascii)[0] == '"'
  {
  }

  lemma {:induction false} MembersRead(members: seq<Member>, ascii: bool, room: nat, rest: string)
    requires members != [] && forall k :: 0 <= k < |members| ==> ValidJson(members[k].value)
    ensures ReadMembers(Join(PrintMembers(members, ascii)) + ("}" + rest), room) ==
      if NestingOfMembers(members) <= room then Some((members, rest)) else None
    decreases members, 0
  {
    var m, others, end := members[0], members[1..], "}" + rest;
    var p, later := PrintMember(m, ascii), PrintMembers(others, ascii);
    var s, tail := Join([p] + later) + end, Join(later) + end;
    PiecesText(p, later, end);
    NestedMembers(members, room);
    FrontBack(members);
    if others == [] {
      MemberReads(m, ascii, room, end);
      if Nesting(m.value) <= room { MembersEnd(s, room, m, rest); }
    } else {
      MemberReads(m, ascii, room, ", " + tail);
      MembersRead(others, ascii, room, rest);
      MemberIsSolid(others[0], ascii);
      PiecesSolid(later, end);
      if Nesting(m.value) <= room { MembersMore(s, room, m, tail); }
    }
  }

  lemma {:induction false} ArrayReads(items: seq<Json>, ascii: bool, room: nat, rest: string)
    requires forall k :: 0 <= k < |items| ==> ValidJson(items[k])
    ensures ReadArray(Join(PrintItems(items, ascii)) + ("]" + rest), room) ==
      if 1 + NestingOfItems(items) <= room then Some((Arr(items), rest)) else None
    decreases items, 1
  {
    var s := Join(PrintItems(items, ascii)) + ("]" + rest);
    if items == [] {
      Associate("]" + rest, "", "");
      SolidTrims("]" + rest);
      Ends("]", rest);
    } else {
      PrintedIsSolid(items[0], ascii);
      PiecesSolid(PrintItems(items, ascii), "]" + rest);
      SolidTrims(s);
      NotClosing(items[0], ascii);
      if room > 0 { ItemsRead(items, ascii, room - 1, rest); }
    }
  }

  lemma NotClosing(v: Json, ascii: bool)
    requires ValidJson(v)
    ensures Print(v, ascii) != "" && Print(v, ascii)[0] != ']'
  {
  }

  lemma {:induction false} ObjectReads(members: seq<Member>, ascii: bool, room: nat, rest: string)
    requires forall k :: 0 <= k < |members| ==> ValidJson(members[k].value)
    ensures ReadObject(Join(PrintMembers(members, ascii)) + ("}" + rest), room) ==
      if 1 + NestingOfMembers(members) <= room then Some((Obj(members), rest)) else None
    decreases members, 1
  {
    var s := Join(PrintMembers(members, ascii)) + ("}" + rest);
    if members == [] {
      Associate("}" + rest, "", "");
      SolidTrims("}" + rest);
      Ends("}", rest);
    } else {
      MemberIsSolid(members[0], ascii);
      PiecesSolid(PrintMembers(members, ascii), "}" + rest);
      SolidTrims(s);
      if room > 0 { MembersRead(members, ascii, room - 1, rest); }
    }
  }

  /** Which reader a text's first character selects. */
  lemma Selects(t: string, room: nat)
    requires Solid(t)
    ensures t[0] == '"' ==> ReadValue(t, room) == TextValue(ReadText(t))
    ensures t[0] == '[' ==> ReadValue(t, room) == ReadArray(t[1..], room)
    ensures t[0] == '{' ==> ReadValue(t, room) == ReadObject(t[1..], room)
    ensures t[0] != '"' && t[0] != '[' && t[0] != '{' ==> ReadValue(t, room) == ReadScalar(t)
  {
    SolidTrims(t);
  }

  lemma ScalarReads(v: Json, ascii: bool, rest: string)
    requires ValidJson(v) && EndsNumber(rest) && (v.Null? || v.Bool? || v.Num?)
    ensures ReadScalar(Print(v, ascii) + rest) == Some((v, rest))
    ensures var c := (Print(v, ascii) + rest)[0]; c != '"' && c != '[' && c != '{'
  {
    if v.Num? { NumberReads(v.text, rest); } else { LiteralReads(v, rest); }
    PrintedIsSolid(v, ascii);
    SolidAppend(Print(v, ascii), rest);
  }

  /** A printed value, with anything behind it that no number runs into, reads back as itself if and only
      if there is room for its nesting. */
  lemma {:induction false} ReadPrinted(v: Json, ascii: bool, room: nat, rest: string)
    requires ValidJson(v) && EndsNumber(rest)
    ensures ReadValue(Print(v, ascii) + rest, room) == if Nesting(v) <= room then Some((v, rest)) else None
    decreases v, 1
  {
    var t := Print(v, ascii) + rest;
    PrintedIsSolid(v, ascii);
    SolidAppend(Print(v, ascii), rest);
    Selects(t, room);
    match v {
      case Str(s) => QuoteReads(s, ascii, rest);
      case Arr(items) =>
        Opened("[", Join(PrintItems(items, ascii)), "]", rest);
        ArrayReads(items, ascii, room, rest);
      case Obj(members) =>
        Opened("{", Join(PrintMembers(members, ascii)), "}", rest);
        ObjectReads(members, ascii, room, rest);
      case _ => ScalarReads(v, ascii, rest);
    }
  }

  /** Every printed value reads back as itself, in both escaping modes, exactly when its nesting is within
      the limit; a deeper one is rejected. */
  lemma ParsePrinted(v: Json, ascii: bool)
    requires ValidJson(v)
    ensures Parse(Print(v, ascii)) == if Nesting(v) <= NESTING_LIMIT then Some(v) else None
  {
    ReadPrinted(v, ascii, NESTING_LIMIT, "");
    Associate(Print(v, ascii), "", "");
    assert TrimLeft("") == "";
  }
}
