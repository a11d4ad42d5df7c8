/** Where a byte stream may be cut: exactly where no character straddles the border. */
module ChunkBorders {
  import opened Options
  import opened Text
  import opened Json
  import opened Braces
  import opened ToolCalls
  import opened EventParser
  import JsonReader
  import Utf8

  // ----- a buffer in which nothing is complete -----

  function Openings(n: nat): string { seq(n, _ => '{') }

  /** A known pattern behind which `n + 1` objects are open. */
  function Deep(n: nat): string { FirstKey("content") + Openings(n) }

  /** Each byte closes at most one brace. */
  lemma {:induction false} NeverCloses(buf: string, i: nat, sc: Scan)
    requires i <= |buf| && sc.depth > |buf| - i
    ensures FindEnd(buf, i, sc) == -1
    decreases |buf| - i
  {
    if i < |buf| { NeverCloses(buf, i + 1, ScanByte(sc, buf[i])); }
  }

  lemma {:induction false} ScanOpenings(buf: string, i: nat, n: nat, sc: Scan)
    requires i + n <= |buf| && forall k :: i <= k < i + n ==> buf[k] == '{'
    requires !sc.inString && !sc.escaped
    ensures FindEnd(buf, i, sc) == FindEnd(buf, i + n, sc.(depth := sc.depth + n))
    decreases n
  {
    if n > 0 { ScanOpenings(buf, i + 1, n - 1, sc.(depth := sc.depth + 1)); }
  }

  /** A character that is printed as it is. */
  predicate PlainChar(c: char, ascii: bool)
  {
    0x20 <= c as int && c != '"' && c != '\\' && (ascii ==> c as int <= 0x7e)
  }

  lemma PlainEscape(c: char, ascii: bool)
    requires PlainChar(c, ascii)
    ensures Escape(c, ascii) == [c]
  {
  }

  lemma {:induction false} PlainEscapes(s: string, ascii: bool)
    requires forall i :: 0 <= i < |s| ==> PlainChar(s[i], ascii)
    ensures EscapeAll(s, ascii) == s
    decreases |s|
  {
    if s != "" {
      PlainEscapes(s[..|s| - 1], ascii);
      PlainEscape(s[|s| - 1], ascii);
      assert s[..|s| - 1] + [s[|s| - 1]] == s;
    }
  }

  predicate PlainKey(key: string) { forall i :: 0 <= i < |key| ==> PlainChar(key[i], true) }

  /** A known first key is a printed string and a colon. */
  lemma KeyIsQuoted(key: string, ascii: bool)
    requires PlainKey(key)
    ensures FirstKey(key) == "{" + (Quote(key, ascii) + ":")
  {
    PlainEscapes(key, ascii);
  }

  lemma DeepIsOpen(n: nat, x: string)
    requires |x| <= n
    ensures MatchingBrace(Deep(n) + x, 0) == -1
  {
    var buf, key, outside := Deep(n) + x, Quote("content", false), Scan(1, false, false);
    KeyIsQuoted("content", false);
    assert buf == "{" + (key + ":" + (Openings(n) + x));
    assert Occurs(buf, key + ":", 1) by { assert buf[1..1 + |key + ":"|] == key + ":"; }
    OccursSplit(buf, 1, key, ":");
    SkipQuote(buf, 1, "content", false, outside);
    SkipInert(buf, 1 + |key|, ":", outside);
    var i := |FirstKey("content")|;
    assert forall k :: i <= k < i + n ==> buf[k] == Openings(n)[k - i];
    ScanOpenings(buf, i, n, outside);
    NeverCloses(buf, i + n, outside.(depth := n + 1));
  }

  /** The table's first pattern is that of content objects. */
  predicate ContentFirst(pats: seq<Pattern>)
  {
    GoodPatterns(pats) && pats != [] && pats[0] == Pattern(FirstKey("content"), Content)
  }

  lemma TableContentFirst()
    ensures ContentFirst(EVENT_PATTERNS)
  {
    EventPatternsGood();
  }

  lemma DeepStarts(n: nat, x: string)
    ensures Earliest(Deep(n) + x, EVENT_PATTERNS).0 == 0
  {
    TableContentFirst();
    DeepStartsWith(EVENT_PATTERNS, n, x);
  }

  lemma DeepStartsWith(pats: seq<Pattern>, n: nat, x: string)
    requires ContentFirst(pats)
    ensures Earliest(Deep(n) + x, pats).0 == 0
  {
    var buf, p := Deep(n) + x, pats[0].prefix;
    assert Occurs(buf, p, 0) by { assert buf[0..|p|] == p; }
    OccursFound(buf, pats, 0, 0);
  }

  /** Nothing is cut from such a buffer until more bytes have come than objects are open. */
  lemma NothingCut(o: Codec, n: nat, x: string, s: Core)
    requires |x| <= n
    ensures Drain(o, EVENT_PATTERNS, Deep(n) + x, s) == (Deep(n) + x, s, [])
  {
    DeepStarts(n, x);
    DeepIsOpen(n, x);
  }

  lemma DeepIsAscii(n: nat)
    ensures Utf8.Valid(Deep(n))
  {
    assert Utf8.Ascii(FirstKey("content")) && Utf8.Ascii(Openings(n));
    Utf8.AsciiIsValid(Deep(n));
  }

  // ----- the exact condition -----

  lemma {:induction false} CleanEachBehind(before: string, chunks: seq<string>)
    requires Utf8.Valid(before)
    ensures Utf8.CleanEach([before] + chunks) == before + Utf8.CleanEach(chunks)
  {
    if chunks == [] {
      Utf8.CleanOne(before);
      Utf8.CleanValid(before, "");
      Associate([before], [], []);
      Associate(before, "", "");
    } else {
      var front, x := chunks[..|chunks| - 1], chunks[|chunks| - 1];
      CleanEachBehind(before, front);
      assert [before] + chunks == ([before] + front) + [x];
      Utf8.CleanEachSnoc([before] + front, x);
      Associate(before, Utf8.CleanEach(front), Utf8.Clean(x));
    }
  }

  /** Behind `before` the chunks parse as in one piece: the same events, the same state. */
  predicate SameBehind(o: Codec, before: string, chunks: seq<string>)
  {
    Run(o, EVENT_PATTERNS, [before] + chunks) == Run(o, EVENT_PATTERNS, [before + Concat(chunks)])
  }

  lemma Behind(o: Codec, before: string, chunks: seq<string>)
    requires Utf8.Valid(before)
    ensures Run(o, EVENT_PATTERNS, [before] + chunks) ==
      Drain(o, EVENT_PATTERNS, before + Utf8.CleanEach(chunks), EMPTY)
    ensures Run(o, EVENT_PATTERNS, [before + Concat(chunks)]) ==
      Drain(o, EVENT_PATTERNS, before + Utf8.Clean(Concat(chunks)), EMPTY)
  {
    EventPatternsGood();
    RunIsDrain(o, EVENT_PATTERNS, [before] + chunks);
    RunIsDrain(o, EVENT_PATTERNS, [before + Concat(chunks)]);
    CleanEachBehind(before, chunks);
    Utf8.CleanOne(before + Concat(chunks));
    Utf8.CleanValid(before, Concat(chunks));
  }

  /** Cutting a text into these chunks is harmless behind every stream if and only if no border cuts a
      character. */
  lemma HarmlessIff(o: Codec, chunks: seq<string>)
    ensures (forall before :: Utf8.Valid(before) ==> SameBehind(o, before, chunks)) <==> Utf8.Whole(chunks)
  {
    Utf8.CleanEachIff(chunks);
    if Utf8.Whole(chunks) {
      forall before | Utf8.Valid(before) ensures SameBehind(o, before, chunks) {
        Behind(o, before, chunks);
      }
    } else {
      HarmedBehindDeep(o, chunks);
    }
  }

  lemma HarmedBehindDeep(o: Codec, chunks: seq<string>)
    requires !Utf8.Whole(chunks)
    ensures exists before :: Utf8.Valid(before) && !SameBehind(o, before, chunks)
  {
    var n := |Utf8.Clean(Concat(chunks))|;
    Utf8.CleanEachIff(chunks);
    DeepIsAscii(n);
    Behind(o, Deep(n), chunks);
    NothingCut(o, n, Utf8.Clean(Concat(chunks)), EMPTY);
    NothingCut(o, n, Utf8.CleanEach(chunks), EMPTY);
    assert !SameBehind(o, Deep(n), chunks);
  }

  // ----- a split character, seen in the events -----

  /** The start of a content object, up to some point in its text. */
  function Opening(text: string): string { "{" + (Quote("content", false) + (": " + ("\"" + text))) }

  const CLOSING := "\"}"

  lemma Regroup(a: string, key: string, colon: string, quote: string, text: string, z: string)
    ensures a + (key + colon + (quote + text + quote)) + z == a + (key + (colon + (quote + text))) + (quote + z)
  {
  }

  predicate Upper(text: string) { forall i :: 0 <= i < |text| ==> 0x80 <= text[i] as int }

  lemma ContentPrinted(text: string)
    requires Upper(text)
    ensures Print(Obj([Member("content", Str(text))]), false) == Opening(text) + CLOSING
  {
    var m := Member("content", Str(text));
    PlainEscapes(text, false);
    OneMember(m);
    Regroup("{", Quote("content", false), ": ", "\"", text, "}");
    assert "\"" + "}" == CLOSING;
  }

  lemma OneMember(m: Member)
    ensures Join(PrintMembers([m], false)) == PrintMember(m, false)
  {
    var pieces := PrintMembers([m], false);
    MemberPiece([m], false, 0);
    assert pieces[..0] == [] && pieces == [PrintMember(m, false)];
  }

  lemma KeyLeads(text: string)
    ensures FirstKey("content") <= Opening(text) + CLOSING
  {
    var key := Quote("content", false);
    KeyIsQuoted("content", false);
    assert Opening(text) + CLOSING == ("{" + (key + ":")) + (" " + ("\"" + text) + CLOSING);
  }

  /** A stream that is one content object. */
  lemma ContentIsCut(pats: seq<Pattern>, text: string)
    requires ContentFirst(pats) && Upper(text)
    ensures CutAll(pats, Opening(text) + CLOSING) == ("", [Cut(Content, Opening(text) + CLOSING)])
  {
    var v, p := Obj([Member("content", Str(text))]), Opening(text) + CLOSING;
    ContentPrinted(text);
    KeyLeads(text);
    ObjectIsCut(pats, v, false, 0);
  }

  lemma ObjectIsCut(pats: seq<Pattern>, v: Json, ascii: bool, k: nat)
    requires GoodPatterns(pats) && Known(pats, v, ascii, k)
    ensures CutAll(pats, Print(v, ascii)) == ("", [Cut(pats[k].kind, Print(v, ascii))])
  {
    NextIsObject(pats, Piece("", v, k), ascii, "");
    Bare(Print(v, ascii));
    CutAlone(pats, Print(v, ascii), pats[k].kind);
  }

  lemma Bare(p: string)
    ensures "" + (p + "") == p
  {
  }

  lemma CutAlone(pats: seq<Pattern>, p: string, kind: Kind)
    requires GoodPatterns(pats) && Next(pats, p) == Some((Cut(kind, p), |p|))
    ensures CutAll(pats, p) == ("", [Cut(kind, p)])
  {
    var rest := p[|p|..];
    NoNext(pats, rest);
    assert CutAll(pats, rest) == ("", []);
    assert CutAll(pats, p) == ("", [Cut(kind, p)] + []);
    Associate([Cut(kind, p)], [], []);
  }

  lemma KeyIsAscii()
    ensures Utf8.Ascii("content") && EscapeAll("content", false) == "content"
  {
    PlainEscapes("content", false);
  }

  lemma OpeningAscii()
    ensures Utf8.Ascii(Opening("")) && Utf8.Ascii(CLOSING)
  {
    KeyIsAscii();
    AsciiQuoted("content");
  }

  lemma OpeningIsAscii()
    ensures Utf8.Valid(Opening("")) && Utf8.Valid(CLOSING)
  {
    OpeningAscii();
    Utf8.AsciiIsValid(Opening(""));
    Utf8.AsciiIsValid(CLOSING);
  }

  lemma AsciiQuoted(key: string)
    requires Utf8.Ascii(key) && EscapeAll(key, false) == key
    ensures Utf8.Ascii("{" + (Quote(key, false) + (": " + ("\"" + ""))))
  {
    AsciiJoins(['"'] + key, ['"']);
    AsciiJoins(Quote(key, false), ": " + ("\"" + ""));
    AsciiJoins("{", Quote(key, false) + (": " + ("\"" + "")));
  }

  lemma AsciiJoins(a: string, b: string)
    requires Utf8.Ascii(a) && Utf8.Ascii(b)
    ensures Utf8.Ascii(a + b)
  {
  }

  lemma HalvesDrop(c: char, d: char)
    requires Utf8.RuneLength([c, d]) == 2
    ensures Upper([c, d]) && Utf8.Clean([c]) == "" && Utf8.Valid([c, d])
    ensures Utf8.Clean([d] + CLOSING) == Utf8.Clean(CLOSING)
  {
    assert [c][1..] == "" && [c, d][2..] == "" && ([d] + CLOSING)[1..] == CLOSING;
  }

  lemma HalvesClean(c: char, d: char)
    requires Utf8.RuneLength([c, d]) == 2
    ensures Utf8.Clean(Opening([c])) == Opening("") && Utf8.Clean([d] + CLOSING) == CLOSING
    ensures Utf8.Clean(Opening([c, d]) + CLOSING) == Opening([c, d]) + CLOSING
  {
    var a := Opening("");
    OpeningIsAscii();
    HalvesDrop(c, d);
    Utf8.CleanValid(a, [c]);
    Utf8.CleanValid(a, [c, d] + CLOSING);
    Utf8.CleanValid([c, d], CLOSING);
    Utf8.CleanValid(CLOSING, "");
    OpenText([c]);
    OpenText([c, d]);
    Associate(a, [c, d], CLOSING);
    Associate(a, "", "");
    Associate(CLOSING, "", "");
  }

  lemma OpenText(text: string)
    ensures Opening(text) == Opening("") + text
  {
  }

  lemma TwoChunks(a: string, b: string)
    ensures Utf8.CleanEach([a, b]) == Utf8.Clean(a) + Utf8.Clean(b)
  {
    Utf8.CleanOne(a);
    Utf8.CleanEachSnoc([a], b);
    assert [a] + [b] == [a, b];
  }

  /** What one content object gives. */
  lemma OneContent(o: Codec, raw: string)
    ensures ProcessAll(o, EMPTY, [Cut(Content, raw)]).1 == Process(o, EMPTY, Content, raw).1
  {
    assert [Cut(Content, raw)][..0] == [];
    Associate(Process(o, EMPTY, Content, raw).1, [], []);
  }

  lemma ContentEvents(o: Codec, pats: seq<Pattern>, chunks: seq<string>, text: string)
    requires ContentFirst(pats) && Upper(text) && Utf8.CleanEach(chunks) == Opening(text) + CLOSING
    ensures Run(o, pats, chunks).2 == Process(o, EMPTY, Content, Opening(text) + CLOSING).1
  {
    RunIsDrain(o, pats, chunks);
    ContentIsCut(pats, text);
    OneContent(o, Opening(text) + CLOSING);
  }

  /** A content object whose text is one two-byte character: read in one piece it gives that text; with a
      border inside the character it does not. */
  lemma SplitCharacterChangesEvents(o: Codec, c: char, d: char)
    requires Utf8.RuneLength([c, d]) == 2
    requires o.decode(Opening([c, d]) + CLOSING) == Some(map["content" := Str([c, d])])
    requires !o.same(Str([c, d]), Null)
    ensures var whole := Opening([c, d]) + CLOSING;
      && Opening([c]) + ([d] + CLOSING) == whole
      && Run(o, EVENT_PATTERNS, [whole]).2 == [Event(Content, whole, map["content" := Str([c, d])])]
      && Run(o, EVENT_PATTERNS, [Opening([c]), [d] + CLOSING]).2 != Run(o, EVENT_PATTERNS, [whole]).2
  {
    var v := map["content" := Str([c, d])];
    HalvesJoin(c, d);
    TableContentFirst();
    EventsDiffer(o, EVENT_PATTERNS, c, d);
    assert Process(o, EMPTY, Content, Opening([c, d]) + CLOSING).1 == [Event(Content, Opening([c, d]) + CLOSING, v)];
  }

  lemma HalvesJoin(c: char, d: char)
    ensures Opening([c]) + ([d] + CLOSING) == Opening([c, d]) + CLOSING
  {
    OpenText([c]);
    OpenText([c, d]);
    Associate(Opening(""), [c], [d] + CLOSING);
    Associate([c], [d], CLOSING);
    Associate(Opening(""), [c, d], CLOSING);
  }

  lemma EventsDiffer(o: Codec, pats: seq<Pattern>, c: char, d: char)
    requires ContentFirst(pats) && Utf8.RuneLength([c, d]) == 2
    ensures var whole := Opening([c, d]) + CLOSING;
      && Run(o, pats, [whole]).2 == Process(o, EMPTY, Content, whole).1
      && (Run(o, pats, [whole]).2 != [] ==>
           Run(o, pats, [Opening([c]), [d] + CLOSING]).2 != Run(o, pats, [whole]).2)
  {
    var whole := Opening([c, d]) + CLOSING;
    HalvesClean(c, d);
    HalvesDrop(c, d);
    Utf8.CleanOne(whole);
    TwoChunks(Opening([c]), [d] + CLOSING);
    ContentEvents(o, pats, [whole], [c, d]);
    ContentEvents(o, pats, [Opening([c]), [d] + CLOSING], "");
    OpenText([c, d]);
    RawsAre(o, whole);
    RawsAre(o, Opening("") + CLOSING);
  }

  lemma RawsAre(o: Codec, raw: string)
    ensures forall ev :: ev in Process(o, EMPTY, Content, raw).1 ==> ev.raw == raw
  {
  }

  // ----- whole streams -----

  /** Noise around printed objects with known first keys, in chunks that cut no character: exactly those
      objects are processed, in order, and the noise behind the last one stays in the buffer. */
  lemma StreamGivesObjects(o: Codec, pieces: seq<Piece>, ascii: bool, tail: string, chunks: seq<string>)
    requires BraceFree(tail) && forall i :: 0 <= i < |pieces| ==> GoodPiece(EVENT_PATTERNS, pieces[i], ascii)
    requires Utf8.Whole(chunks) && Utf8.Clean(Concat(chunks)) == Stream(pieces, ascii, tail)
    ensures var (s, evs) := ProcessAll(o, EMPTY, Objects(EVENT_PATTERNS, pieces, ascii));
      Run(o, EVENT_PATTERNS, chunks) == (tail, s, evs)
  {
    EventPatternsGood();
    ChunkingIrrelevant(o, EVENT_PATTERNS, chunks);
    CutsExactlyTheObjects(EVENT_PATTERNS, pieces, ascii, tail);
  }

  lemma PrintedObject(members: seq<Member>, ascii: bool)
    requires members != []
    ensures Print(Obj(members), ascii) ==
      "{" + Join([PrintMember(members[0], ascii)] + PrintMembers(members[1..], ascii)) + "}"
  {
  }

  /** A printed object begins with its first key. */
  lemma FirstKeyLeads(members: seq<Member>, ascii: bool)
    requires members != [] && PlainKey(members[0].key)
    ensures FirstKey(members[0].key) <= Print(Obj(members), ascii)
  {
    var m, later := members[0], PrintMembers(members[1..], ascii);
    KeyIsQuoted(m.key, ascii);
    PrintedObject(members, ascii);
    LeadingKey(Quote(m.key, ascii), Print(m.value, ascii), later);
  }

  lemma LeadingKey(key: string, value: string, later: seq<string>)
    ensures "{" + (key + ":") <= "{" + Join([key + ": " + value] + later) + "}"
  {
    var first := key + ": " + value;
    var rest := if later == [] then "}" else ", " + (Join(later) + "}");
    JsonReader.PiecesText(first, later, "}");
    Associate("{", Join([first] + later), "}");
    LeadingPart("{", key, ":", " ", value, rest);
    assert ":" + " " == ": ";
  }

  lemma LeadingPart(open: string, key: string, colon: string, blank: string, value: string, rest: string)
    ensures open + (key + colon) <= open + (key + (colon + blank) + value + rest)
  {
    assert open + (key + (colon + blank) + value + rest) == (open + (key + colon)) + (blank + value + rest);
  }

  /** A stream that is one object printed in ASCII. */
  lemma OneObject(o: Codec, pats: seq<Pattern>, v: Json, k: nat)
    requires GoodPatterns(pats) && Known(pats, v, true, k)
    ensures var (s, evs) := Process(o, EMPTY, pats[k].kind, Print(v, true));
      Run(o, pats, [Print(v, true)]) == ("", s, evs)
  {
    var p := Print(v, true);
    RunIsDrain(o, pats, [p]);
    PrintPrintable(v, true);
    Utf8.AsciiIsValid(p);
    Utf8.CleanValid(p, "");
    Utf8.CleanOne(p);
    Associate(p, "", "");
    ObjectIsCut(pats, v, true, k);
    OneProcessed(o, Cut(pats[k].kind, p));
  }

  lemma OneProcessed(o: Codec, cut: Cut)
    ensures ProcessAll(o, EMPTY, [cut]) == Process(o, EMPTY, cut.kind, cut.raw)
  {
    assert [cut][..0] == [];
    Associate(Process(o, EMPTY, cut.kind, cut.raw).1, [], []);
  }
}
