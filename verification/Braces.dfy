/** The brace scanner: where the JSON object that opens at a given brace ends. */
module Braces {
  import opened Json
  import opened Numbers
  import opened Text

  datatype Scan = Scan(depth: int, inString: bool, escaped: bool)

  /** The scanner's reaction to one byte. */
  function ScanByte(sc: Scan, c: char): Scan
  {
    if sc.escaped then sc.(escaped := false)
    else if c == '\\' && sc.inString then sc.(escaped := true)
    else if c == '"' then sc.(inString := !sc.inString)
    else if sc.inString then sc
    else if c == '{' then sc.(depth := sc.depth + 1)
    else if c == '}' then sc.(depth := sc.depth - 1)
    else sc
  }

  /** The byte is the brace that brings the count back to zero. */
  predicate Closes(sc: Scan, c: char)
  {
    !sc.escaped && !sc.inString && c == '}' && sc.depth == 1
  }

  /** The first closing position from `i` on, or -1. */
  function FindEnd(buf: string, i: nat, sc: Scan): (e: int)
    ensures e == -1 || i <= e < |buf|
    decreases |buf| - i
  {
    if i >= |buf| then -1
    else if Closes(sc, buf[i]) then i
    else FindEnd(buf, i + 1, ScanByte(sc, buf[i]))
  }

  const OUTSIDE := Scan(0, false, false)

  function MatchingBrace(buf: string, start: int): (e: int)
    ensures e == -1 || 0 <= start < e < |buf|
  {
    if start < 0 || start >= |buf| || buf[start] != '{' then -1
    else FindEnd(buf, start + 1, Scan(1, false, false))
  }

  /** findMatchingBrace. */
  method FindMatchingBrace(buf: string, start: int) returns (e: int)
    ensures e == MatchingBrace(buf, start)
  {
    if start < 0 || start >= |buf| || buf[start] != '{' { return -1; }
    var braceCount, inString, escapeNext := 0, false, false;
    var i := start;
    while i < |buf|
      invariant start <= i <= |buf|
      invariant FindEnd(buf, start, OUTSIDE) == FindEnd(buf, i, Scan(braceCount, inString, escapeNext))
    {
      var c := buf[i];
      if escapeNext {
        escapeNext := false;
      } else if c == '\\' && inString {
        escapeNext := true;
      } else if c == '"' {
        inString := !inString;
      } else if !inString {
        if c == '{' {
          braceCount := braceCount + 1;
        } else if c == '}' {
          braceCount := braceCount - 1;
          if braceCount == 0 { return i; }
        }
      }
      i := i + 1;
    }
    return -1;
  }

  /** Bytes that arrive later do not move the end. */
  lemma {:induction false} FindEndStable(buf: string, i: nat, sc: Scan, more: string)
    requires FindEnd(buf, i, sc) >= 0
    ensures FindEnd(buf + more, i, sc) == FindEnd(buf, i, sc)
    decreases |buf| - i
  {
    if !Closes(sc, buf[i]) { FindEndStable(buf, i + 1, ScanByte(sc, buf[i]), more); }
  }

  lemma MatchingBraceStable(buf: string, start: int, more: string)
    requires MatchingBrace(buf, start) >= 0
    ensures MatchingBrace(buf + more, start) == MatchingBrace(buf, start)
  {
    FindEndStable(buf, start + 1, Scan(1, false, false), more);
  }

  // ----- scanning printed JSON -----

  /** `p` lies in `buf` at `i`, and scanning across it from `sc` finds no end and leaves `sc`. */
  predicate Skips(buf: string, i: nat, p: string, sc: Scan)
  {
    Occurs(buf, p, i) && FindEnd(buf, i, sc) == FindEnd(buf, i + |p|, sc)
  }

  /** Characters that leave the scanner as it is: inside a string, and outside. */
  predicate Inert(p: string, inString: bool)
  {
    forall k :: 0 <= k < |p| ==>
      p[k] != '"' && (if inString then p[k] != '\\' else p[k] != '{' && p[k] != '}')
  }

  lemma {:induction false} SkipInert(buf: string, i: nat, p: string, sc: Scan)
    requires Occurs(buf, p, i) && !sc.escaped && Inert(p, sc.inString)
    ensures Skips(buf, i, p, sc)
    decreases |p|
  {
    if p != "" {
      assert buf[i] == p[0];
      assert buf[i + 1..i + |p|] == p[1..];
      SkipInert(buf, i + 1, p[1..], sc);
    }
  }

  lemma OccursSplit(buf: string, i: nat, a: string, b: string)
    requires Occurs(buf, a + b, i)
    ensures Occurs(buf, a, i) && Occurs(buf, b, i + |a|)
  {
    assert buf[i..i + |a|] == (a + b)[..|a|] == a;
    assert buf[i + |a|..i + |a| + |b|] == (a + b)[|a|..] == b;
  }

  lemma SkipConcat(buf: string, i: nat, a: string, b: string, sc: Scan)
    requires Skips(buf, i, a, sc) && Skips(buf, i + |a|, b, sc) && Occurs(buf, a + b, i)
    ensures Skips(buf, i, a + b, sc)
  {
  }

  lemma UnicodeEscapeInert(u: nat)
    requires u < 0x1_0000
    ensures UnicodeEscape(u) == "\\u" + UnicodeEscape(u)[2..] && Inert(UnicodeEscape(u)[2..], true)
  {
  }

  /** A backslash and the character it escapes. */
  lemma SkipEscapedPair(buf: string, i: nat, p: string, sc: Scan)
    requires Occurs(buf, p, i) && |p| == 2 && p[0] == '\\' && sc.inString && !sc.escaped
    ensures Skips(buf, i, p, sc)
  {
    assert buf[i] == p[0] && buf[i + 1] == p[1];
    assert FindEnd(buf, i, sc) == FindEnd(buf, i + 1, sc.(escaped := true));
  }

  lemma SkipUnicode(buf: string, i: nat, u: nat, sc: Scan)
    requires u < 0x1_0000 && Occurs(buf, UnicodeEscape(u), i) && sc.inString && !sc.escaped
    ensures Skips(buf, i, UnicodeEscape(u), sc)
  {
    UnicodeEscapeInert(u);
    OccursSplit(buf, i, "\\u", UnicodeEscape(u)[2..]);
    SkipEscapedPair(buf, i, "\\u", sc);
    SkipInert(buf, i + 2, UnicodeEscape(u)[2..], sc);
  }

  lemma SkipEscape(buf: string, i: nat, c: char, ascii: bool, sc: Scan)
    requires Occurs(buf, Escape(c, ascii), i) && sc.inString && !sc.escaped
    ensures Skips(buf, i, Escape(c, ascii), sc)
  {
    var r := c as int;
    if ShortEscape(c) != 0 as char {
      SkipEscapedPair(buf, i, Escape(c, ascii), sc);
    } else if 0x20 <= r <= 0x7e || (!ascii && r >= 0x20) {
      SkipInert(buf, i, [c], sc);
    } else if r <= 0xffff {
      SkipUnicode(buf, i, r, sc);
    } else {
      var q := r - 0x1_0000;
      OccursSplit(buf, i, UnicodeEscape(0xd800 + q / 0x400), UnicodeEscape(0xdc00 + q % 0x400));
      SkipUnicode(buf, i, 0xd800 + q / 0x400, sc);
      SkipUnicode(buf, i + 6, 0xdc00 + q % 0x400, sc);
    }
  }

  /** Wherever the text lies, scanning across it leaves the state. */
  ghost predicate Crosses(p: string, sc: Scan)
  {
    forall buf: string, j: nat :: Occurs(buf, p, j) ==> Skips(buf, j, p, sc)
  }

  lemma CrossBoth(a: string, b: string, sc: Scan)
    requires Crosses(a, sc) && Crosses(b, sc)
    ensures Crosses(a + b, sc)
  {
    forall buf: string, j: nat | Occurs(buf, a + b, j) ensures Skips(buf, j, a + b, sc) {
      OccursSplit(buf, j, a, b);
      SkipConcat(buf, j, a, b, sc);
    }
  }

  lemma CrossEscape(c: char, ascii: bool, sc: Scan)
    requires sc.inString && !sc.escaped
    ensures Crosses(Escape(c, ascii), sc)
  {
    forall buf: string, j: nat | Occurs(buf, Escape(c, ascii), j) ensures Skips(buf, j, Escape(c, ascii), sc) {
      SkipEscape(buf, j, c, ascii, sc);
    }
  }

  lemma {:induction false} CrossEscapeAll(s: string, ascii: bool, sc: Scan)
    requires sc.inString && !sc.escaped
    ensures Crosses(EscapeAll(s, ascii), sc)
    decreases |s|
  {
    if s != "" {
      CrossEscapeAll(s[..|s| - 1], ascii, sc);
      CrossEscape(s[|s| - 1], ascii, sc);
      CrossBoth(EscapeAll(s[..|s| - 1], ascii), Escape(s[|s| - 1], ascii), sc);
    }
  }

  /** A text between quotes. */
  lemma SkipQuoted(buf: string, i: nat, body: string, sc: Scan)
    requires Occurs(buf, ['"'] + body + ['"'], i) && !sc.inString && !sc.escaped
    requires Crosses(body, sc.(inString := true))
    ensures Skips(buf, i, ['"'] + body + ['"'], sc)
  {
    OccursSplit(buf, i, ['"'] + body, ['"']);
    OccursSplit(buf, i, ['"'], body);
    assert buf[i] == ['"'][0] && buf[i + 1 + |body|] == ['"'][0];
    assert Skips(buf, i + 1, body, sc.(inString := true));
  }

  lemma SkipQuote(buf: string, i: nat, s: string, ascii: bool, sc: Scan)
    requires Occurs(buf, Quote(s, ascii), i) && !sc.inString && !sc.escaped
    ensures Skips(buf, i, Quote(s, ascii), sc)
  {
    CrossEscapeAll(s, ascii, sc.(inString := true));
    SkipQuoted(buf, i, EscapeAll(s, ascii), sc);
  }

  lemma NumberInert(text: string)
    requires NumChars(text)
    ensures Inert(text, false)
  {
  }

  lemma LiteralInert()
    ensures Inert("null", false) && Inert("true", false) && Inert("false", false)
  {
  }

  lemma ScalarInert(v: Json, ascii: bool)
    requires ValidJson(v) && (v.Null? || v.Bool? || v.Num?)
    ensures Inert(Print(v, ascii), false)
  {
    LiteralInert();
    if v.Num? {
      NumberIsNumChars(v.text);
      NumberInert(v.text);
    }
  }

  /** Scanning a printed value at depth one or more returns to the same state behind it. */
  lemma {:induction false} SkipValue(buf: string, i: nat, v: Json, ascii: bool, sc: Scan)
    requires ValidJson(v) && Occurs(buf, Print(v, ascii), i)
    requires sc.depth >= 1 && !sc.inString && !sc.escaped
    ensures Skips(buf, i, Print(v, ascii), sc)
    decreases v, 1
  {
    match v {
      case Str(s) => SkipQuote(buf, i, s, ascii, sc);
      case Arr(items) => SkipArray(buf, i, items, ascii, sc);
      case Obj(members) => SkipObject(buf, i, members, ascii, sc);
      case _ =>
        ScalarInert(v, ascii);
        SkipInert(buf, i, Print(v, ascii), sc);
    }
  }

  lemma SkipArray(buf: string, i: nat, items: seq<Json>, ascii: bool, sc: Scan)
    requires forall k :: 0 <= k < |items| ==> ValidJson(items[k])
    requires Occurs(buf, "[" + Join(PrintItems(items, ascii)) + "]", i)
    requires sc.depth >= 1 && !sc.inString && !sc.escaped
    ensures Skips(buf, i, "[" + Join(PrintItems(items, ascii)) + "]", sc)
    decreases items, 1
  {
    var body := Join(PrintItems(items, ascii));
    OccursSplit(buf, i, "[" + body, "]");
    OccursSplit(buf, i, "[", body);
    SkipItems(buf, i + 1, items, ascii, sc);
    SkipBracketed(buf, i, body, sc);
  }

  lemma SkipObject(buf: string, i: nat, members: seq<Member>, ascii: bool, sc: Scan)
    requires forall k :: 0 <= k < |members| ==> ValidJson(members[k].value)
    requires Occurs(buf, "{" + Join(PrintMembers(members, ascii)) + "}", i)
    requires sc.depth >= 1 && !sc.inString && !sc.escaped
    ensures Skips(buf, i, "{" + Join(PrintMembers(members, ascii)) + "}", sc)
    decreases members, 1
  {
    var body := Join(PrintMembers(members, ascii));
    OccursSplit(buf, i, "{" + body, "}");
    OccursSplit(buf, i, "{", body);
    SkipMembers(buf, i + 1, members, ascii, sc.(depth := sc.depth + 1));
    SkipBraced(buf, i, body, sc);
  }

  lemma SkipBracketed(buf: string, i: nat, body: string, sc: Scan)
    requires Occurs(buf, "[" + body + "]", i) && Skips(buf, i + 1, body, sc)
    requires !sc.inString && !sc.escaped
    ensures Skips(buf, i, "[" + body + "]", sc)
  {
    OccursSplit(buf, i, "[" + body, "]");
    OccursSplit(buf, i, "[", body);
    SkipInert(buf, i, "[", sc);
    SkipInert(buf, i + 1 + |body|, "]", sc);
  }

  lemma SkipBraced(buf: string, i: nat, body: string, sc: Scan)
    requires Occurs(buf, "{" + body + "}", i) && Skips(buf, i + 1, body, sc.(depth := sc.depth + 1))
    requires !sc.inString && !sc.escaped && sc.depth >= 1
    ensures Skips(buf, i, "{" + body + "}", sc)
  {
    OccursSplit(buf, i, "{" + body, "}");
    OccursSplit(buf, i, "{", body);
    assert buf[i] == "{"[0] && buf[i + 1 + |body|] == "}"[0];
  }

  /** Wherever the piece lies in the buffer, scanning across it leaves the state. */
  ghost predicate SkipsAnywhere(buf: string, p: string, sc: Scan)
  {
    forall j: nat :: Occurs(buf, p, j) ==> Skips(buf, j, p, sc)
  }

  lemma {:induction false} SkipJoin(buf: string, i: nat, pieces: seq<string>, sc: Scan)
    requires forall k :: 0 <= k < |pieces| ==> SkipsAnywhere(buf, pieces[k], sc)
    requires Occurs(buf, Join(pieces), i) && !sc.inString && !sc.escaped
    ensures Skips(buf, i, Join(pieces), sc)
  {
    if pieces != [] {
      var n := |pieces| - 1;
      OccursSplit(buf, i, Join(pieces[..n]) + Separator(n), pieces[n]);
      OccursSplit(buf, i, Join(pieces[..n]), Separator(n));
      SkipJoin(buf, i, pieces[..n], sc);
      SkipPiece(buf, i, Join(pieces[..n]), Separator(n), pieces[n], sc);
    }
  }

  lemma SkipPiece(buf: string, i: nat, before: string, sep: string, piece: string, sc: Scan)
    requires Occurs(buf, before + sep + piece, i) && Skips(buf, i, before, sc)
    requires !sc.escaped && !sc.inString && Inert(sep, false) && SkipsAnywhere(buf, piece, sc)
    ensures Skips(buf, i, before + sep + piece, sc)
  {
    OccursSplit(buf, i, before + sep, piece);
    OccursSplit(buf, i, before, sep);
    SkipInert(buf, i + |before|, sep, sc);
    SkipConcat(buf, i, before, sep, sc);
    SkipConcat(buf, i, before + sep, piece, sc);
  }

  lemma SkipItems(buf: string, i: nat, items: seq<Json>, ascii: bool, sc: Scan)
    requires forall k :: 0 <= k < |items| ==> ValidJson(items[k])
    requires Occurs(buf, Join(PrintItems(items, ascii)), i)
    requires sc.depth >= 1 && !sc.inString && !sc.escaped
    ensures Skips(buf, i, Join(PrintItems(items, ascii)), sc)
    decreases items, 0
  {
    var pieces := PrintItems(items, ascii);
    forall k | 0 <= k < |items| ensures SkipsAnywhere(buf, pieces[k], sc) {
      ItemPiece(items, ascii, k);
      forall j: nat | Occurs(buf, pieces[k], j) ensures Skips(buf, j, pieces[k], sc) {
        SkipValue(buf, j, items[k], ascii, sc);
      }
    }
    SkipJoin(buf, i, pieces, sc);
  }

  lemma SkipMembers(buf: string, i: nat, members: seq<Member>, ascii: bool, sc: Scan)
    requires forall k :: 0 <= k < |members| ==> ValidJson(members[k].value)
    requires Occurs(buf, Join(PrintMembers(members, ascii)), i)
    requires sc.depth >= 1 && !sc.inString && !sc.escaped
    ensures Skips(buf, i, Join(PrintMembers(members, ascii)), sc)
    decreases members, 0
  {
    var pieces := PrintMembers(members, ascii);
    forall k | 0 <= k < |members| ensures SkipsAnywhere(buf, pieces[k], sc) {
      MemberPiece(members, ascii, k);
      forall j: nat | Occurs(buf, pieces[k], j) ensures Skips(buf, j, pieces[k], sc) {
        SkipMember(buf, j, members[k], ascii, sc);
      }
    }
    SkipJoin(buf, i, pieces, sc);
  }

  /** A text, a colon and a text, of which both texts are skipped. */
  lemma SkipPair(buf: string, i: nat, name: string, value: string, sc: Scan)
    requires Occurs(buf, name + ": " + value, i) && !sc.inString && !sc.escaped
    requires Skips(buf, i, name, sc) && Skips(buf, i + |name| + 2, value, sc)
    ensures Skips(buf, i, name + ": " + value, sc)
  {
    OccursSplit(buf, i, name + ": ", value);
    OccursSplit(buf, i, name, ": ");
    SkipColon(buf, i + |name|, sc);
    SkipConcat(buf, i, name, ": ", sc);
    SkipConcat(buf, i, name + ": ", value, sc);
  }

  lemma SkipColon(buf: string, i: nat, sc: Scan)
    requires Occurs(buf, ": ", i) && !sc.inString && !sc.escaped
    ensures Skips(buf, i, ": ", sc)
  {
    SkipInert(buf, i, ": ", sc);
  }

  lemma {:induction false} SkipMember(buf: string, i: nat, m: Member, ascii: bool, sc: Scan)
    requires ValidJson(m.value) && Occurs(buf, PrintMember(m, ascii), i)
    requires sc.depth >= 1 && !sc.inString && !sc.escaped
    ensures Skips(buf, i, PrintMember(m, ascii), sc)
    decreases m, 0
  {
    var name := Quote(m.key, ascii);
    OccursSplit(buf, i, name + ": ", Print(m.value, ascii));
    OccursSplit(buf, i, name, ": ");
    SkipQuote(buf, i, m.key, ascii, sc);
    SkipValue(buf, i + |name| + 2, m.value, ascii, sc);
    SkipPair(buf, i, name, Print(m.value, ascii), sc);
  }

  /** A printed object, anywhere in a buffer and whatever follows it, is cut at its own last brace:
      braces, quotes and backslashes inside its strings do not confuse the scanner. */
  lemma PrintedObjectEnd(buf: string, i: nat, v: Json, ascii: bool)
    requires v.Obj? && ValidJson(v) && Occurs(buf, Print(v, ascii), i)
    ensures MatchingBrace(buf, i) == i + |Print(v, ascii)| - 1
  {
    var body := Join(PrintMembers(v.members, ascii));
    OccursSplit(buf, i, "{" + body, "}");
    OccursSplit(buf, i, "{", body);
    SkipMembers(buf, i + 1, v.members, ascii, Scan(1, false, false));
    ObjectEnd(buf, i, body);
  }

  lemma ObjectEnd(buf: string, i: nat, body: string)
    requires Occurs(buf, "{" + body + "}", i) && Skips(buf, i + 1, body, Scan(1, false, false))
    ensures MatchingBrace(buf, i) == i + 1 + |body|
  {
    OccursSplit(buf, i, "{" + body, "}");
    OccursSplit(buf, i, "{", body);
    assert buf[i] == "{"[0] && buf[i + 1 + |body|] == "}"[0];
  }
}
