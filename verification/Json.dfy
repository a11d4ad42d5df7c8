/** JSON values and their printed form with Python's json.dumps separators, in both escaping modes. */
module Json {
  import opened Numbers
  import opened Options

  /** A JSON value. Numbers keep their printed text; a string is a sequence of Unicode scalar values. */
  datatype Json =
    | Null
    | Bool(b: bool)
    | Num(text: string)
    | Str(s: string)
    | Arr(items: seq<Json>)
    | Obj(members: seq<Member>)

  datatype Member = Member(key: string, value: Json)

  /** Every number text is a number. */
  predicate ValidJson(v: Json)
  {
    match v
    case Num(text) => IsNumber(text)
    case Arr(items) => forall i :: 0 <= i < |items| ==> ValidJson(items[i])
    case Obj(members) => forall i :: 0 <= i < |members| ==> ValidJson(members[i].value)
    case _ => true
  }

  // ----- strings -----

  function HexDigit(d: nat): char
    requires d < 16
  {
    if d < 10 then ('0' as int + d) as char else ('a' as int + d - 10) as char
  }

  /** The value of a hexadecimal digit in either case, or -1. */
  function HexValue(c: char): (d: int)
    ensures -1 <= d < 16
  {
    if '0' <= c <= '9' then c as int - '0' as int
    else if 'a' <= c <= 'f' then c as int - 'a' as int + 10
    else if 'A' <= c <= 'F' then c as int - 'A' as int + 10
    else -1
  }

  /** `\uXXXX` for a 16-bit code unit. */
  function UnicodeEscape(u: nat): (s: string)
    requires u < 0x1_0000
    ensures |s| == 6 && s[0] == '\\' && s[1] == 'u'
  {
    ['\\', 'u', HexDigit(u / 16 / 16 / 16), HexDigit(u / 16 / 16 % 16), HexDigit(u / 16 % 16), HexDigit(u % 16)]
  }

  /** The two-character escapes, or 0 for characters that have none. */
  function ShortEscape(c: char): (e: char)
  {
    match c as int
    case 0x22 => '"'
    case 0x5c => '\\'
    case 8 => 'b'
    case 12 => 'f'
    case 10 => 'n'
    case 13 => 'r'
    case 9 => 't'
    case _ => 0 as char
  }

  /** One character as writeASCIIString (`ascii`) or writeString prints it. */
  function Escape(c: char, ascii: bool): (e: string)
    ensures |e| > 0
  {
    var r := c as int;
    if ShortEscape(c) != 0 as char then ['\\', ShortEscape(c)]
    else if 0x20 <= r <= 0x7e || (!ascii && r >= 0x20) then [c]
    else if r <= 0xffff then UnicodeEscape(r)
    else
      var q := r - 0x1_0000;
      UnicodeEscape(0xd800 + q / 0x400) + UnicodeEscape(0xdc00 + q % 0x400)
  }

  function EscapeAll(s: string, ascii: bool): string
  {
    if s == "" then "" else EscapeAll(s[..|s| - 1], ascii) + Escape(s[|s| - 1], ascii)
  }

  function Quote(s: string, ascii: bool): string
  {
    ['"'] + EscapeAll(s, ascii) + ['"']
  }

  // ----- values -----

  function Print(v: Json, ascii: bool): string
    decreases v, 1
  {
    match v
    case Null => "null"
    case Bool(b) => if b then "true" else "false"
    case Num(text) => text
    case Str(s) => Quote(s, ascii)
    case Arr(items) => "[" + Join(PrintItems(items, ascii)) + "]"
    case Obj(members) => "{" + Join(PrintMembers(members, ascii)) + "}"
  }

  function PrintItems(items: seq<Json>, ascii: bool): (ps: seq<string>)
    ensures |ps| == |items|
    decreases items, 0
  {
    if items == [] then [] else [Print(items[0], ascii)] + PrintItems(items[1..], ascii)
  }

  function PrintMembers(members: seq<Member>, ascii: bool): (ps: seq<string>)
    ensures |ps| == |members|
    decreases members, 0
  {
    if members == [] then [] else [PrintMember(members[0], ascii)] + PrintMembers(members[1..], ascii)
  }

  lemma ItemPiece(items: seq<Json>, ascii: bool, k: nat)
    requires k < |items|
    ensures PrintItems(items, ascii)[k] == Print(items[k], ascii)
  {
    if k > 0 { ItemPiece(items[1..], ascii, k - 1); }
  }

  lemma MemberPiece(members: seq<Member>, ascii: bool, k: nat)
    requires k < |members|
    ensures PrintMembers(members, ascii)[k] == PrintMember(members[k], ascii)
  {
    if k > 0 { MemberPiece(members[1..], ascii, k - 1); }
  }

  /** Pieces with ", " between them. */
  function Join(pieces: seq<string>): string
  {
    if pieces == [] then ""
    else
      var n := |pieces| - 1;
      Join(pieces[..n]) + Separator(n) + pieces[n]
  }

  function Separator(n: nat): string { if n == 0 then "" else ", " }

  function PrintMember(m: Member, ascii: bool): string
    decreases m, 0
  {
    Quote(m.key, ascii) + ": " + Print(m.value, ascii)
  }

  // ----- the writers, which append to a buffer -----

  /** writeString and writeASCIIString. */
  method WriteString(buffer: string, s: string, ascii: bool) returns (out: string)
    ensures out == buffer + Quote(s, ascii)
  {
    out := buffer + ['"'];
    for i := 0 to |s|
      invariant out == buffer + ['"'] + EscapeAll(s[..i], ascii)
    {
      assert s[..i + 1][..i] == s[..i];
      Assoc(buffer + ['"'], EscapeAll(s[..i], ascii), Escape(s[i], ascii));
      out := out + Escape(s[i], ascii);
    }
    assert s[..|s|] == s;
    out := out + ['"'];
  }

  lemma Assoc(a: string, b: string, c: string)
    ensures a + b + c == a + (b + c)
  {
  }

  /** writeToken, writeObject and writeArray. */
  method WriteValue(buffer: string, v: Json, ascii: bool) returns (out: string)
    ensures out == buffer + Print(v, ascii)
    decreases v, 1
  {
    match v {
      case Null => out := buffer + "null";
      case Bool(b) => out := buffer + (if b then "true" else "false");
      case Num(text) => out := buffer + text;
      case Str(s) => out := WriteString(buffer, s, ascii);
      case Arr(items) => out := WriteArray(buffer, items, ascii);
      case Obj(members) => out := WriteObject(buffer, members, ascii);
    }
  }

  method WriteArray(buffer: string, items: seq<Json>, ascii: bool) returns (out: string)
    ensures out == buffer + ("[" + Join(PrintItems(items, ascii)) + "]")
    decreases items, 0, 1
  {
    ghost var pieces := PrintItems(items, ascii);
    var start := buffer + "[";
    out := start;
    for i := 0 to |items|
      invariant out == start + Join(pieces[..i])
    {
      JoinNext(start, pieces, i);
      if i != 0 { out := out + ", "; }
      out := WriteItem(out, items, i, ascii, pieces);
    }
    assert pieces[..|items|] == pieces;
    out := out + "]";
    Wrap(buffer, "[", Join(pieces), "]");
  }

  lemma Wrap(buffer: string, open: string, body: string, close: string)
    ensures buffer + open + body + close == buffer + (open + body + close)
  {
  }

  lemma JoinNext(before: string, pieces: seq<string>, i: nat)
    requires i < |pieces|
    ensures before + Join(pieces[..i + 1]) == before + Join(pieces[..i]) + Separator(i) + pieces[i]
    ensures before + Join(pieces[..i]) + "" == before + Join(pieces[..i])
  {
    assert pieces[..i + 1][..i] == pieces[..i];
    Assoc(before, Join(pieces[..i]) + Separator(i), pieces[i]);
    Assoc(before, Join(pieces[..i]), Separator(i));
  }

  method WriteObject(buffer: string, members: seq<Member>, ascii: bool) returns (out: string)
    ensures out == buffer + ("{" + Join(PrintMembers(members, ascii)) + "}")
    decreases members, 0, 1
  {
    ghost var pieces := PrintMembers(members, ascii);
    var start := buffer + "{";
    out := start;
    for i := 0 to |members|
      invariant out == start + Join(pieces[..i])
    {
      JoinNext(start, pieces, i);
      if i != 0 { out := out + ", "; }
      out := WriteMember(out, members, i, ascii, pieces);
    }
    assert pieces[..|members|] == pieces;
    out := out + "}";
    Wrap(buffer, "{", Join(pieces), "}");
  }

  method WriteItem(buffer: string, items: seq<Json>, i: nat, ascii: bool, ghost pieces: seq<string>)
    returns (out: string)
    requires i < |items| && pieces == PrintItems(items, ascii)
    ensures out == buffer + pieces[i]
    decreases items, 0, 0
  {
    ItemPiece(items, ascii, i);
    out := WriteValue(buffer, items[i], ascii);
  }

  method WriteMember(buffer: string, members: seq<Member>, i: nat, ascii: bool, ghost pieces: seq<string>)
    returns (out: string)
    requires i < |members| && pieces == PrintMembers(members, ascii)
    ensures out == buffer + pieces[i]
    decreases members, 0, 0
  {
    MemberPiece(members, ascii, i);
    var m := members[i];
    out := WriteString(buffer, m.key, ascii);
    out := out + ": ";
    out := WriteValue(out, m.value, ascii);
  }

  // ----- reading a printed string back: section 7 of RFC 8259 -----

  /** The code unit of four hexadecimal digits at the front of `s`, or -1. */
  function Hex4(s: string): (u: int)
    ensures -1 <= u < 0x1_0000
  {
    if |s| < 4 then -1
    else
      var a, b, c, d := HexValue(s[0]), HexValue(s[1]), HexValue(s[2]), HexValue(s[3]);
      if a < 0 || b < 0 || c < 0 || d < 0 then -1 else a * 0x1000 + b * 0x100 + c * 0x10 + d
  }

  function ShortUnescape(e: char): Option<char>
  {
    match e
    case '"' => Some('"')
    case '\\' => Some('\\')
    case '/' => Some('/')
    case 'b' => Some(8 as char)
    case 'f' => Some(12 as char)
    case 'n' => Some(10 as char)
    case 'r' => Some(13 as char)
    case 't' => Some(9 as char)
    case _ => None
  }

  /** What a surrogate without its partner reads as. */
  const REPLACEMENT: char := 0xfffd as char

  /** The first character an escaped text denotes and how many characters encode it. */
  function UnescapeOne(s: string): (r: Option<(char, nat)>)
    ensures r.Some? ==> 0 < r.value.1 <= |s|
  {
    if s == "" || s[0] == '"' || s[0] as int < 0x20 then None
    else if s[0] != '\\' then Some((s[0], 1))
    else if |s| < 2 then None
    else if s[1] != 'u' then (if ShortUnescape(s[1]).Some? then Some((ShortUnescape(s[1]).value, 2)) else None)
    else
      var u := Hex4(s[2..]);
      if u < 0 then None
      else if u < 0xd800 || 0xe000 <= u then Some((u as char, 6))
      else
        var l := if u < 0xdc00 && |s| >= 12 && s[6] == '\\' && s[7] == 'u' then Hex4(s[8..]) else -1;
        if 0xdc00 <= l < 0xe000 then Some(((0x1_0000 + (u - 0xd800) * 0x400 + (l - 0xdc00)) as char, 12))
        else Some((REPLACEMENT, 6))
  }

  /** The text between the quotes of a JSON string, decoded. */
  function Unescape(s: string): Option<string>
    decreases |s|
  {
    if s == "" then Some("")
    else
      var one := UnescapeOne(s);
      if one.None? then None
      else
        var rest := Unescape(s[one.value.1..]);
        if rest.None? then None else Some([one.value.0] + rest.value)
  }

  /** The value of a quoted string. */
  function Unquote(s: string): Option<string>
  {
    if |s| >= 2 && s[0] == '"' && s[|s| - 1] == '"' then Unescape(s[1..|s| - 1]) else None
  }

  lemma Hex4OfEscape(u: nat, rest: string)
    requires u < 0x1_0000
    ensures Hex4((UnicodeEscape(u) + rest)[2..]) == u
  {
    var s := (UnicodeEscape(u) + rest)[2..];
    var a, b, c, d := u / 16 / 16 / 16, u / 16 / 16 % 16, u / 16 % 16, u % 16;
    assert s[0] == HexDigit(a) && s[1] == HexDigit(b) && s[2] == HexDigit(c) && s[3] == HexDigit(d);
    HexDigits(a, b);
    HexDigits(c, d);
    assert u == (((a * 16) + b) * 16 + c) * 16 + d;
  }

  lemma HexDigits(a: nat, b: nat)
    requires a < 16 && b < 16
    ensures HexValue(HexDigit(a)) == a && HexValue(HexDigit(b)) == b
  {
  }

  lemma UnescapePair(u: nat, l: nat, rest: string)
    requires 0xd800 <= u < 0xdc00 && 0xdc00 <= l < 0xe000
    ensures UnescapeOne(UnicodeEscape(u) + UnicodeEscape(l) + rest)
      == Some(((0x1_0000 + (u - 0xd800) * 0x400 + (l - 0xdc00)) as char, 12))
  {
    var s := UnicodeEscape(u) + UnicodeEscape(l) + rest;
    assert s == UnicodeEscape(u) + (UnicodeEscape(l) + rest);
    Hex4OfEscape(u, UnicodeEscape(l) + rest);
    Hex4OfEscape(l, rest);
    assert s[8..] == (UnicodeEscape(l) + rest)[2..];
  }

  /** Each printed character reads back as itself, surrogate pairs included. */
  lemma UnescapeEscape(c: char, ascii: bool, rest: string)
    ensures UnescapeOne(Escape(c, ascii) + rest) == Some((c, |Escape(c, ascii)|))
  {
    var r := c as int;
    if ShortEscape(c) != 0 as char {
    } else if 0x20 <= r <= 0x7e || (!ascii && r >= 0x20) {
    } else if r <= 0xffff {
      Hex4OfEscape(r, rest);
    } else {
      var q := r - 0x1_0000;
      UnescapePair(0xd800 + q / 0x400, 0xdc00 + q % 0x400, rest);
      assert q / 0x400 * 0x400 + q % 0x400 == q;
    }
  }

  lemma SnocText(s: string, tail: string)
    requires s != ""
    ensures s[..|s| - 1] + ([s[|s| - 1]] + tail) == s + tail
  {
  }

  lemma {:induction false} UnescapeAll(s: string, ascii: bool, rest: string, tail: string)
    requires Unescape(rest) == Some(tail)
    ensures Unescape(EscapeAll(s, ascii) + rest) == Some(s + tail)
    decreases |s|
  {
    if s == "" {
      DropFront("", rest);
      DropFront("", tail);
    } else {
      var front, c := s[..|s| - 1], s[|s| - 1];
      UnescapeNext(c, ascii, rest, tail);
      UnescapeAll(front, ascii, Escape(c, ascii) + rest, [c] + tail);
      Assoc(EscapeAll(front, ascii), Escape(c, ascii), rest);
      SnocText(s, tail);
    }
  }

  lemma UnescapeNext(c: char, ascii: bool, rest: string, tail: string)
    requires Unescape(rest) == Some(tail)
    ensures Unescape(Escape(c, ascii) + rest) == Some([c] + tail)
  {
    UnescapeEscape(c, ascii, rest);
    DropFront(Escape(c, ascii), rest);
  }

  lemma DropFront(a: string, b: string)
    ensures (a + b)[|a|..] == b && "" + b == b
  {
  }

  /** Every string survives printing and reading back, in both escaping modes. */
  lemma QuoteRoundTrip(s: string, ascii: bool)
    ensures Unquote(Quote(s, ascii)) == Some(s)
  {
    UnescapeAll(s, ascii, "", "");
    var q := Quote(s, ascii);
    assert EscapeAll(s, ascii) + "" == EscapeAll(s, ascii) && s + "" == s;
    assert q[1..|q| - 1] == EscapeAll(s, ascii);
  }

  // ----- which characters a printed text holds -----

  /** Printable, and in ASCII mode at most `~`. */
  predicate Printable(s: string, ascii: bool)
  {
    forall i :: 0 <= i < |s| ==> 0x20 <= s[i] as int && (ascii ==> s[i] as int <= 0x7e)
  }

  lemma PrintableConcat(a: string, b: string, ascii: bool)
    requires Printable(a, ascii) && Printable(b, ascii)
    ensures Printable(a + b, ascii)
  {
  }

  lemma WrapPrintable(open: string, body: string, close: string, ascii: bool)
    requires Printable(open, ascii) && Printable(body, ascii) && Printable(close, ascii)
    ensures Printable(open + body + close, ascii)
  {
  }

  lemma HexPrintable(d: nat)
    requires d < 16
    ensures 0x20 <= HexDigit(d) as int <= 0x7e
  {
  }

  lemma UnicodeEscapePrintable(u: nat, ascii: bool)
    requires u < 0x1_0000
    ensures Printable(UnicodeEscape(u), ascii)
  {
    HexPrintable(u / 16 / 16 / 16);
    HexPrintable(u / 16 / 16 % 16);
    HexPrintable(u / 16 % 16);
    HexPrintable(u % 16);
  }

  lemma ShortPrintable(c: char, ascii: bool)
    requires ShortEscape(c) != 0 as char
    ensures Printable(['\\', ShortEscape(c)], ascii)
  {
  }

  lemma PairPrintable(u: nat, l: nat, ascii: bool)
    requires u < 0x1_0000 && l < 0x1_0000
    ensures Printable(UnicodeEscape(u) + UnicodeEscape(l), ascii)
  {
    UnicodeEscapePrintable(u, ascii);
    UnicodeEscapePrintable(l, ascii);
    PrintableConcat(UnicodeEscape(u), UnicodeEscape(l), ascii);
  }

  lemma EscapePrintable(c: char, ascii: bool)
    ensures Printable(Escape(c, ascii), ascii)
  {
    var r := c as int;
    if ShortEscape(c) != 0 as char {
      ShortPrintable(c, ascii);
    } else if 0x20 <= r <= 0x7e || (!ascii && r >= 0x20) {
    } else if r <= 0xffff {
      UnicodeEscapePrintable(r, ascii);
    } else {
      var q := r - 0x1_0000;
      PairPrintable(0xd800 + q / 0x400, 0xdc00 + q % 0x400, ascii);
    }
  }

  lemma {:induction false} EscapeAllPrintable(s: string, ascii: bool)
    ensures Printable(EscapeAll(s, ascii), ascii)
  {
    if s != "" {
      var n := |s| - 1;
      EscapeAllPrintable(s[..n], ascii);
      EscapePrintable(s[n], ascii);
      PrintableConcat(EscapeAll(s[..n], ascii), Escape(s[n], ascii), ascii);
    }
  }

  lemma NumberPrintable(text: string, ascii: bool)
    requires NumChars(text)
    ensures Printable(text, ascii)
  {
  }

  lemma QuotePrintable(s: string, ascii: bool)
    ensures Printable(Quote(s, ascii), ascii)
  {
    EscapeAllPrintable(s, ascii);
    WrapPrintable(['"'], EscapeAll(s, ascii), ['"'], ascii);
  }

  /** A printed value holds no control character, in particular no newline; in ASCII mode it is
      printable ASCII only. */
  lemma {:induction false} PrintPrintable(v: Json, ascii: bool)
    requires ValidJson(v)
    ensures Printable(Print(v, ascii), ascii)
    decreases v, 1
  {
    match v {
      case Num(text) =>
        NumberIsNumChars(text);
        NumberPrintable(text, ascii);
      case Str(s) => QuotePrintable(s, ascii);
      case Arr(items) =>
        ItemsPrintable(items, ascii);
        JoinPrintable(PrintItems(items, ascii), ascii);
        WrapPrintable("[", Join(PrintItems(items, ascii)), "]", ascii);
      case Obj(members) =>
        MembersPrintable(members, ascii);
        JoinPrintable(PrintMembers(members, ascii), ascii);
        WrapPrintable("{", Join(PrintMembers(members, ascii)), "}", ascii);
      case _ =>
    }
  }

  lemma {:induction false} ItemsPrintable(items: seq<Json>, ascii: bool)
    requires forall k :: 0 <= k < |items| ==> ValidJson(items[k])
    ensures forall k :: 0 <= k < |items| ==> Printable(PrintItems(items, ascii)[k], ascii)
    decreases items, 0
  {
    forall k | 0 <= k < |items| ensures Printable(PrintItems(items, ascii)[k], ascii) {
      PrintPrintable(items[k], ascii);
      ItemPiece(items, ascii, k);
    }
  }

  lemma {:induction false} MembersPrintable(members: seq<Member>, ascii: bool)
    requires forall k :: 0 <= k < |members| ==> ValidJson(members[k].value)
    ensures forall k :: 0 <= k < |members| ==> Printable(PrintMembers(members, ascii)[k], ascii)
    decreases members, 0
  {
    forall k | 0 <= k < |members| ensures Printable(PrintMembers(members, ascii)[k], ascii) {
      MemberPrintable(members[k], ascii);
      MemberPiece(members, ascii, k);
    }
  }

  lemma {:induction false} JoinPrintable(pieces: seq<string>, ascii: bool)
    requires forall k :: 0 <= k < |pieces| ==> Printable(pieces[k], ascii)
    ensures Printable(Join(pieces), ascii)
  {
    if pieces != [] {
      var n := |pieces| - 1;
      JoinPrintable(pieces[..n], ascii);
      PrintableConcat(Join(pieces[..n]), Separator(n), ascii);
      PrintableConcat(Join(pieces[..n]) + Separator(n), pieces[n], ascii);
    }
  }

  lemma {:induction false} MemberPrintable(m: Member, ascii: bool)
    requires ValidJson(m.value)
    ensures Printable(PrintMember(m, ascii), ascii)
    decreases m, 0
  {
    QuotePrintable(m.key, ascii);
    PrintPrintable(m.value, ascii);
    WrapPrintable(Quote(m.key, ascii), ": ", Print(m.value, ascii), ascii);
  }

  // ----- the Python look -----

  /** A blank behind every comma and colon, as json.dumps writes them. */
  lemma PythonArray(items: seq<Json>, ascii: bool)
    requires |items| == 2
    ensures Print(Arr(items), ascii) == "[" + (Print(items[0], ascii) + ", " + Print(items[1], ascii)) + "]"
  {
    ItemPiece(items, ascii, 0);
    ItemPiece(items, ascii, 1);
    JoinTwo(PrintItems(items, ascii));
  }

  lemma PythonObject(members: seq<Member>, ascii: bool)
    requires |members| == 2
    ensures Print(Obj(members), ascii) ==
      "{" + ((Quote(members[0].key, ascii) + ": " + Print(members[0].value, ascii)) + ", " +
             (Quote(members[1].key, ascii) + ": " + Print(members[1].value, ascii))) + "}"
  {
    MemberPiece(members, ascii, 0);
    MemberPiece(members, ascii, 1);
    JoinTwo(PrintMembers(members, ascii));
  }

  lemma JoinTwo(pieces: seq<string>)
    requires |pieces| == 2
    ensures Join(pieces) == pieces[0] + ", " + pieces[1]
  {
    assert pieces[..1][..0] == [];
    assert Join(pieces[..1]) == pieces[0];
  }

  /** The escapes json.dumps chooses: short ones where there are, four hexadecimal digits in lower case
      elsewhere, and in ASCII mode surrogate pairs above U+FFFF. */
  lemma ShortForms(ascii: bool)
    ensures Escape('"', ascii) == "\\\"" && Escape('\\', ascii) == "\\\\" && Escape('/', ascii) == "/"
    ensures Escape('\n', ascii) == "\\n" && Escape('\r', ascii) == "\\r" && Escape('\t', ascii) == "\\t"
    ensures Escape(8 as char, ascii) == "\\b" && Escape(12 as char, ascii) == "\\f"
  {
  }

  lemma LongForms(ascii: bool)
    ensures Escape(0x1f as char, ascii) == "\\u001f"
    ensures Escape(0x7f as char, ascii) == if ascii then "\\u007f" else [0x7f as char]
    ensures Escape(0xe9 as char, ascii) == if ascii then "\\u00e9" else [0xe9 as char]
  {
  }

  lemma HighForm()
    ensures UnicodeEscape(0xd83d) == "\\ud83d"
  {
  }

  lemma LowForm()
    ensures UnicodeEscape(0xde00) == "\\ude00"
  {
  }

  lemma PairForm(c: char)
    requires c as int == 0x1_f600
    ensures Escape(c, true) == "\\ud83d" + "\\ude00"
  {
    HighForm();
    LowForm();
  }
}
