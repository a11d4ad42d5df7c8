/** bytes.ToValidUTF8(chunk, nil): the per-chunk cleaning that drops bytes that are not valid UTF-8. */
module Utf8 {
  import opened Text

  predicate Continuation(c: char) { 0x80 <= c as int <= 0xbf }

  /** How many bytes a first byte announces, or 0 if none can begin with it. */
  function Announced(first: char): (n: nat)
    ensures n <= 4
  {
    var b := first as int;
    if b < 0x80 then 1
    else if 0xc2 <= b <= 0xdf then 2
    else if 0xe0 <= b <= 0xef then 3
    else if 0xf0 <= b <= 0xf4 then 4
    else 0
  }

  /** Second bytes are restricted behind some first bytes (table 3-7 of the Unicode standard). */
  predicate Second(first: char, c: char)
  {
    var b := first as int;
    && Continuation(c)
    && (b == 0xe0 ==> 0xa0 <= c as int)
    && (b == 0xed ==> c as int <= 0x9f)
    && (b == 0xf0 ==> 0x90 <= c as int)
    && (b == 0xf4 ==> c as int <= 0x8f)
  }

  /** The length of the well-formed UTF-8 sequence at the front of `s`, or 0. */
  function RuneLength(s: string): (n: nat)
    ensures n <= |s|
    ensures forall k :: 0 < k < n ==> Continuation(s[k])
  {
    if s == "" then 0
    else
      var n := Announced(s[0]);
      if n <= |s| && (n >= 2 ==> Second(s[0], s[1])) && (forall k :: 2 <= k < n ==> Continuation(s[k])) then n else 0
  }

  // ----- which byte sequences are characters -----

  /** A Unicode scalar value: any code point but a surrogate. */
  predicate Scalar(point: nat) { point < 0xd800 || 0xe000 <= point < 0x11_0000 }

  function Byte(b: nat): char
    requires b < 0x100
  {
    b as char
  }

  /** The UTF-8 encoding of a code point (section 3 of RFC 3629). */
  function Encoded(point: nat): string
    requires Scalar(point)
  {
    if point < 0x80 then [Byte(point)]
    else if point < 0x800 then [Byte(0xc0 + point / 0x40), Byte(0x80 + point % 0x40)]
    else if point < 0x1_0000 then
      [Byte(0xe0 + point / 0x1000), Byte(0x80 + point / 0x40 % 0x40), Byte(0x80 + point % 0x40)]
    else
      [Byte(0xf0 + point / 0x4_0000), Byte(0x80 + point / 0x1000 % 0x40), Byte(0x80 + point / 0x40 % 0x40),
       Byte(0x80 + point % 0x40)]
  }

  /** Every encoded code point is one character, whatever follows it. */
  lemma EncodedIsOne(point: nat, rest: string)
    requires Scalar(point)
    ensures RuneLength(Encoded(point) + rest) == |Encoded(point)| > 0
  {
    var e := Encoded(point);
    var s := e + rest;
    assert s[0] == e[0] && (|e| > 1 ==> s[1] == e[1]) && (|e| > 2 ==> s[2] == e[2]) && (|e| > 3 ==> s[3] == e[3]);
  }

  lemma Shifts(q: nat, r: nat)
    ensures r < 0x40 ==> (q * 0x40 + r) / 0x40 == q && (q * 0x40 + r) % 0x40 == r
    ensures r < 0x1000 ==> (q * 0x1000 + r) / 0x1000 == q
    ensures r < 0x4_0000 ==> (q * 0x4_0000 + r) / 0x4_0000 == q
  {
  }

  /** Two, three and four digits of base 64 and what division makes of them. */
  lemma Digits(a: nat, b: nat, c: nat, d: nat)
    requires b < 0x40 && c < 0x40 && d < 0x40
    ensures (a * 0x40 + d) / 0x40 == a && (a * 0x40 + d) % 0x40 == d
    ensures var p := a * 0x1000 + c * 0x40 + d; p / 0x1000 == a && p / 0x40 % 0x40 == c && p % 0x40 == d
    ensures var p := a * 0x4_0000 + b * 0x1000 + c * 0x40 + d;
      p / 0x4_0000 == a && p / 0x1000 % 0x40 == b && p / 0x40 % 0x40 == c && p % 0x40 == d
  {
    Shifts(a, d);
    Shifts(a, c * 0x40 + d);
    Shifts(a * 0x40 + c, d);
    Shifts(a, c);
    Shifts(a, b * 0x1000 + c * 0x40 + d);
    Shifts(a * 0x40 + b, c * 0x40 + d);
    Shifts(a, b);
    Shifts(a * 0x1000 + b * 0x40 + c, d);
    Shifts(a * 0x40 + b, c);
  }

  lemma SpelledIn(s: string, n: nat, point: nat)
    requires n == RuneLength(s) > 0 && Scalar(point) && |Encoded(point)| == n
    requires forall i :: 0 <= i < n ==> Encoded(point)[i] == s[i]
    ensures Encoded(point) == s[..n]
  {
  }

  /** The front character of `s` is the encoding of `point`. */
  predicate Spells(s: string, point: nat) { Scalar(point) && Encoded(point) == s[..RuneLength(s)] }

  lemma FourSpell(s: string)
    requires RuneLength(s) == 4
    ensures exists point: nat :: Spells(s, point)
  {
    var a, b, c, d := s[0] as int - 0xf0, s[1] as int - 0x80, s[2] as int - 0x80, s[3] as int - 0x80;
    Digits(a, b, c, d);
    SpelledIn(s, 4, a * 0x4_0000 + b * 0x1000 + c * 0x40 + d);
    assert Spells(s, a * 0x4_0000 + b * 0x1000 + c * 0x40 + d);
  }

  lemma ThreeSpell(s: string)
    requires RuneLength(s) == 3
    ensures exists point: nat :: Spells(s, point)
  {
    var a, c, d := s[0] as int - 0xe0, s[1] as int - 0x80, s[2] as int - 0x80;
    Digits(a, 0, c, d);
    SpelledIn(s, 3, a * 0x1000 + c * 0x40 + d);
    assert Spells(s, a * 0x1000 + c * 0x40 + d);
  }

  lemma FewSpell(s: string)
    requires 0 < RuneLength(s) <= 2
    ensures exists point: nat :: Spells(s, point)
  {
    if RuneLength(s) == 1 {
      SpelledIn(s, 1, s[0] as int);
      assert Spells(s, s[0] as int);
    } else {
      var a, d := s[0] as int - 0xc0, s[1] as int - 0x80;
      Digits(a, 0, 0, d);
      SpelledIn(s, 2, a * 0x40 + d);
      assert Spells(s, a * 0x40 + d);
    }
  }

  /** And every character is an encoded code point. */
  lemma CharacterIsEncoded(s: string)
    requires RuneLength(s) > 0
    ensures exists point: nat :: Spells(s, point)
  {
    if RuneLength(s) <= 2 {
      FewSpell(s);
    } else if RuneLength(s) == 3 {
      ThreeSpell(s);
    } else {
      FourSpell(s);
    }
  }

  // ----- the cleaning -----

  function Clean(s: string): string
  {
    if s == "" then ""
    else
      var n := RuneLength(s);
      if n == 0 then Clean(s[1..]) else s[..n] + Clean(s[n..])
  }

  predicate Valid(s: string)
  {
    s == "" || (RuneLength(s) > 0 && Valid(s[RuneLength(s)..]))
  }

  /** Some code points, encoded one after the other, are `s`. */
  ghost predicate IsEncoding(points: seq<nat>, s: string)
  {
    if points == [] then s == ""
    else Scalar(points[0]) && Encoded(points[0]) <= s && IsEncoding(points[1..], s[|Encoded(points[0])|..])
  }

  lemma FrontIs(point: nat, s: string)
    requires Scalar(point) && Encoded(point) <= s
    ensures 0 < RuneLength(s) == |Encoded(point)|
  {
    EncodedIsOne(point, s[|Encoded(point)|..]);
    assert s == Encoded(point) + s[|Encoded(point)|..];
  }

  lemma {:induction false} EncodingIsValid(points: seq<nat>, s: string)
    requires IsEncoding(points, s)
    ensures Valid(s)
  {
    if points != [] {
      FrontIs(points[0], s);
      EncodingIsValid(points[1..], s[RuneLength(s)..]);
    }
  }

  lemma {:induction false} ValidIsEncoding(s: string) returns (points: seq<nat>)
    requires Valid(s)
    ensures IsEncoding(points, s)
  {
    points := [];
    if s != "" {
      CharacterIsEncoded(s);
      var point: nat :| Spells(s, point);
      var later := ValidIsEncoding(s[RuneLength(s)..]);
      points := [point] + later;
    }
  }

  ghost predicate Encodes(s: string) { exists points: seq<nat> :: IsEncoding(points, s) }

  /** A text is valid if and only if it encodes a list of code points. */
  lemma ValidIff(s: string)
    ensures Valid(s) <==> Encodes(s)
  {
    if Valid(s) {
      var points := ValidIsEncoding(s);
      assert IsEncoding(points, s);
    } else if Encodes(s) {
      var points: seq<nat> :| IsEncoding(points, s);
      EncodingIsValid(points, s);
    }
  }

  /** The first character of a text, with another text behind it. */
  lemma RuneAppend(a: string, b: string)
    ensures RuneLength(a) > 0 ==> RuneLength(a + b) == RuneLength(a)
    ensures RuneLength(a + b) <= |a| ==> RuneLength(a + b) == RuneLength(a)
  {
    if a != "" {
      var n := Announced(a[0]);
      assert (a + b)[0] == a[0] && (|a| > 1 ==> (a + b)[1] == a[1]);
      assert n <= |a| ==> forall k :: 2 <= k < n ==> (a + b)[k] == a[k];
    }
  }

  lemma CleanFront(a: string, b: string, n: nat)
    requires 0 < n == RuneLength(a)
    ensures Clean(a + b) == a[..n] + Clean(a[n..] + b)
  {
    RuneAppend(a, b);
    assert (a + b)[..n] == a[..n] && (a + b)[n..] == a[n..] + b;
  }

  lemma Reassemble(a: string, n: nat, rest: string)
    requires n <= |a|
    ensures a[..n] + (a[n..] + rest) == a + rest
  {
  }

  /** A valid chunk passes unchanged, whatever follows it. */
  lemma {:induction false} CleanValid(a: string, b: string)
    requires Valid(a)
    ensures Clean(a + b) == a + Clean(b)
  {
    if a == "" {
      assert a + b == b;
    } else {
      var n := RuneLength(a);
      CleanFront(a, b, n);
      CleanValid(a[n..], b);
      Reassemble(a, n, Clean(b));
    }
  }

  /** What cleaning leaves is valid. */
  lemma {:induction false} CleanIsValid(s: string)
    ensures Valid(Clean(s))
    decreases |s|
  {
    if s != "" {
      var n := RuneLength(s);
      if n == 0 {
        CleanIsValid(s[1..]);
      } else {
        CleanIsValid(s[n..]);
        OneThenValid(s, n, Clean(s[n..]));
      }
    }
  }

  lemma OneThenValid(s: string, n: nat, rest: string)
    requires 0 < n == RuneLength(s) && Valid(rest)
    ensures Valid(s[..n] + rest)
  {
    RuneAppend(s, "");
    assert s[..n] + s[n..] == s;
    RuneAppend(s[..n], s[n..]);
    RuneAppend(s[..n], rest);
    assert (s[..n] + rest)[n..] == rest;
  }

  // ----- chunks cleaned one at a time -----

  /** A character of `a + b` begins in `a` and ends in `b`. */
  predicate Straddles(a: string, b: string)
  {
    exists p :: 0 <= p < |a| && RuneLength(a[p..] + b) > |a| - p
  }

  lemma {:induction false} ContinuationsDrop(s: string, k: nat)
    requires k <= |s| && forall i :: 0 <= i < k ==> Continuation(s[i])
    ensures Clean(s) == Clean(s[k..])
  {
    if k > 0 {
      ContinuationsDrop(s[1..], k - 1);
      assert s[1..][k - 1..] == s[k..];
    } else {
      assert s[0..] == s;
    }
  }

  /** Where no character begins that reaches beyond `a`, only the rest of `a` matters. */
  lemma StraddlesSkip(a: string, b: string, n: nat)
    requires n <= |a| && forall p :: 0 <= p < n ==> RuneLength(a[p..] + b) <= |a| - p
    ensures Straddles(a, b) <==> Straddles(a[n..], b)
  {
    assert forall p :: n <= p < |a| ==> a[p..] == a[n..][p - n..];
    assert forall p :: 0 <= p < |a| - n ==> a[n..][p..] == a[n + p..];
  }

  lemma CleanStep(a: string, b: string, n: nat)
    requires 0 < n <= |a| && n == (if RuneLength(a) > 0 then RuneLength(a) else 1)
    requires RuneLength(a + b) == RuneLength(a)
    ensures Clean(a + b) == Clean(a)[..|Clean(a)| - |Clean(a[n..])|] + Clean(a[n..] + b)
    ensures Clean(a) == Clean(a)[..|Clean(a)| - |Clean(a[n..])|] + Clean(a[n..])
    ensures Straddles(a, b) <==> Straddles(a[n..], b)
  {
    assert (a + b)[..n] == a[..n] && (a + b)[n..] == a[n..] + b;
    RuneAppend(a, b);
    forall p | 0 <= p < n ensures RuneLength(a[p..] + b) <= |a| - p {
      if p == 0 { assert a[0..] == a; } else { assert (a[p..] + b)[0] == a[p]; }
    }
    StraddlesSkip(a, b, n);
  }

  /** The front half of a character is dropped. */
  lemma FrontHalfDrops(a: string)
    requires a != "" && RuneLength(a) == 0 && forall i :: 0 < i < |a| ==> Continuation(a[i])
    ensures Clean(a) == ""
  {
    ContinuationsDrop(a[1..], |a| - 1);
    assert a[1..][|a| - 1..] == "";
  }

  lemma HalvesAre(a: string, b: string, m: nat)
    requires m == RuneLength(a + b) && 0 < |a| < m
    ensures forall i :: 0 < i < |a| ==> Continuation(a[i])
    ensures m - |a| <= |b| && forall i :: 0 <= i < m - |a| ==> Continuation(b[i])
    ensures (a + b)[m..] == b[m - |a|..]
  {
    RuneAppend(a + b, "");
    assert forall i :: 0 < i < |a| ==> a[i] == (a + b)[i];
    assert forall i :: 0 <= i < m - |a| ==> b[i] == (a + b)[|a| + i];
  }

  /** A character across the border: both halves go. */
  lemma HalvesDrop(a: string, b: string)
    requires a != "" && RuneLength(a) == 0 && RuneLength(a + b) > 0
    ensures Straddles(a, b) && |Clean(a + b)| > |Clean(a)| + |Clean(b)|
  {
    var m := RuneLength(a + b);
    RuneAppend(a, b);
    HalvesAre(a, b, m);
    assert a[0..] == a;
    FrontHalfDrops(a);
    ContinuationsDrop(b, m - |a|);
  }

  lemma SameFront(x: string, y: string, z: string, all: string)
    ensures x + all == (x + y) + z <==> all == y + z
  {
    assert (x + y) + z == x + (y + z);
    assert (x + all)[|x|..] == all && (x + (y + z))[|x|..] == y + z;
  }

  /** Cleaning two chunks one at a time is cleaning them together if and only if no character straddles
      the border; otherwise something is lost. */
  lemma {:induction false} CleanSplitIff(a: string, b: string)
    ensures Clean(a + b) == Clean(a) + Clean(b) <==> !Straddles(a, b)
    ensures |Clean(a + b)| == |Clean(a)| + |Clean(b)| <==> !Straddles(a, b)
    ensures |Clean(a + b)| >= |Clean(a)| + |Clean(b)|
    decreases |a|
  {
    if a == "" {
      assert a + b == b;
    } else if RuneLength(a) == 0 && RuneLength(a + b) > 0 {
      HalvesDrop(a, b);
    } else {
      var n := if RuneLength(a) > 0 then RuneLength(a) else 1;
      RuneAppend(a, b);
      CleanStep(a, b, n);
      CleanSplitIff(a[n..], b);
      SameFront(Clean(a)[..|Clean(a)| - |Clean(a[n..])|], Clean(a[n..]), Clean(b), Clean(a[n..] + b));
    }
  }

  /** The chunks cleaned one at a time. */
  function CleanEach(chunks: seq<string>): string
  {
    if chunks == [] then "" else CleanEach(chunks[..|chunks| - 1]) + Clean(chunks[|chunks| - 1])
  }

  lemma CleanOne(x: string)
    ensures CleanEach([x]) == Clean(x)
  {
    assert [x][..0] == [];
  }

  lemma CleanEachSnoc(chunks: seq<string>, x: string)
    ensures CleanEach(chunks + [x]) == CleanEach(chunks) + Clean(x)
  {
    assert (chunks + [x])[..|chunks|] == chunks;
  }

  /** No border between two chunks cuts a character. */
  predicate Whole(chunks: seq<string>)
  {
    chunks == [] ||
    (var n := |chunks| - 1;
     Whole(chunks[..n]) && !Straddles(Concat(chunks[..n]), chunks[n]))
  }

  /** Cleaning a stream chunk by chunk is cleaning it in one piece if and only if no border cuts a
      character. */
  lemma {:induction false} CleanEachIff(chunks: seq<string>)
    ensures CleanEach(chunks) == Clean(Concat(chunks)) <==> Whole(chunks)
    ensures |CleanEach(chunks)| == |Clean(Concat(chunks))| <==> Whole(chunks)
    ensures |CleanEach(chunks)| <= |Clean(Concat(chunks))|
  {
    if chunks != [] {
      var n := |chunks| - 1;
      CleanEachIff(chunks[..n]);
      CleanSplitIff(Concat(chunks[..n]), chunks[n]);
    }
  }

  /** A valid text ends with a whole character: whatever follows, the border is harmless. */
  lemma ValidNeverStraddles(a: string, b: string)
    requires Valid(a)
    ensures !Straddles(a, b)
  {
    CleanValid(a, b);
    CleanValid(a, "");
    assert a + "" == a;
    CleanSplitIff(a, b);
  }

  predicate Ascii(s: string) { forall i :: 0 <= i < |s| ==> s[i] as int < 0x80 }

  lemma {:induction false} AsciiIsValid(s: string)
    requires Ascii(s)
    ensures Valid(s)
  {
    if s != "" { AsciiIsValid(s[1..]); }
  }
}
