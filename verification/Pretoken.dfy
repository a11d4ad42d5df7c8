/** The hand-written pre-tokenizer of cl100k_base against the pattern it replaces. */
module Pretoken {
  import opened Options
  import opened Text
  import opened Regex

  /** The Unicode classes the scanner consults. */
  datatype Classes = Classes(letter: char -> bool, number: char -> bool, space: char -> bool)

  predicate IsCRLF(c: char) { c == '\r' || c == '\n' }

  /** What the Unicode tables guarantee: the classes do not overlap, and blanks are spaces. */
  ghost predicate Sound(u: Classes)
  {
    && (forall c :: !(u.letter(c) && u.number(c)) && !(u.letter(c) && u.space(c)) && !(u.number(c) && u.space(c)))
    && u.space('\r') && u.space('\n') && u.space(' ')
  }

  // ----- the pattern -----

  const LONG_S: char := 0x17f as char

  function AsciiLower(c: char): char
  {
    if 'A' <= c <= 'Z' then (c as int + 32) as char else c
  }

  predicate IsSdmt(c: char)
  {
    c == 's' || c == 'S' || c == 'd' || c == 'D' || c == 'm' || c == 'M' || c == 't' || c == 'T' || c == LONG_S
  }

  /** One ASCII letter in either case. */
  function Letter(l: char): Rx { Class(c => AsciiLower(c) == l) }

  function Is(x: char): Rx { Class(c => c == x) }

  predicate Lead(u: Classes, c: char) { !IsCRLF(c) && !u.letter(c) && !u.number(c) }

  predicate Other(u: Classes, c: char) { !u.space(c) && !u.letter(c) && !u.number(c) }

  // The classes as values, one closure each.

  function Leads(u: Classes): char -> bool { c => Lead(u, c) }

  function Others(u: Classes): char -> bool { c => Other(u, c) }

  function NonSpaces(u: Classes): char -> bool { c => !u.space(c) }

  function Blanks(): char -> bool { c => c == ' ' }

  function LetterPair(a: char, b: char): Rx { Cat(Letter(a), Letter(b)) }

  // ll|ve|re
  function Pairs(): Rx { Alt(LetterPair('l', 'l'), Alt(LetterPair('v', 'e'), LetterPair('r', 'e'))) }

  // '(?i:[sdmt]|ll|ve|re)
  function Alt1(): Rx { Cat(Is('\''), Alt(Class(IsSdmt), Pairs())) }

  // [^\r\n\p{L}\p{N}]?+\p{L}++
  function Alt2(u: Classes): Rx
  {
    Cat(Atomic(Repeat(Leads(u), 0, Some(1))), Atomic(Repeat(u.letter, 1, None)))
  }

  // \p{N}{1,3}+
  function Alt3(u: Classes): Rx { Atomic(Repeat(u.number, 1, Some(3))) }

  //  ?[^\s\p{L}\p{N}]++[\r\n]*+
  function Alt4(u: Classes): Rx
  {
    Cat(Repeat(Blanks(), 0, Some(1)), Body(u))
  }

  function Body(u: Classes): Rx { Cat(Atomic(Repeat(Others(u), 1, None)), Atomic(Repeat(IsCRLF, 0, None))) }

  // \s++$
  function Alt5(u: Classes): Rx { Cat(Atomic(Repeat(u.space, 1, None)), Dollar) }

  // \s*[\r\n]
  function Alt6(u: Classes): Rx { Cat(Repeat(u.space, 0, None), Class(IsCRLF)) }

  // \s+(?!\S)
  function Alt7(u: Classes): Rx { Cat(Repeat(u.space, 1, None), NotAhead(NonSpaces(u))) }

  // \s
  function Alt8(u: Classes): Rx { Class(u.space) }

  /** What the classes and letters of the quoted pattern stand for, character by character. */
  lemma TablesAre(u: Classes, c: char)
    ensures IsCRLF(c) <==> c in "\r\n"
    ensures Lead(u, c) <==> !(c in "\r\n" || u.letter(c) || u.number(c))
    ensures Other(u, c) <==> !(u.space(c) || u.letter(c) || u.number(c))
    ensures IsSdmt(c) <==> c in "sdmtSDMT" || c as int == 0x17f
    ensures (AsciiLower(c) == 'l' <==> c in "lL") && (AsciiLower(c) == 'v' <==> c in "vV")
    ensures (AsciiLower(c) == 'r' <==> c in "rR") && (AsciiLower(c) == 'e' <==> c in "eE")
  {
  }

  /** The whole pattern. */
  function Pattern(u: Classes): Rx
  {
    Alt(Alt1(), Alt(Alt2(u), Alt(Alt3(u), Alt(Alt4(u), Alt(Alt5(u), Alt(Alt6(u), Alt(Alt7(u), Alt8(u))))))))
  }

  // ----- the matchers -----

  /** The end of the run of `p` from `i`: the loop shared by the matchers. */
  method Skip(p: char -> bool, t: string, i: nat) returns (j: nat)
    requires i <= |t|
    ensures j == i + Run(p, t, i)
  {
    j := i;
    while j < |t|
      invariant i <= j <= |t| && i + Run(p, t, i) == j + Run(p, t, j)
    {
      if !p(t[j]) { break; }
      j := j + 1;
    }
  }

  method MatchApostrophe(t: string, i: nat) returns (end: nat, ok: bool)
    requires i < |t|
    ensures First(Alt1(), t, i) == if ok then Some(end) else None
  {
    ApostropheIs(t, i);
    if t[i] != '\'' { return 0, false; }
    if i + 1 >= |t| { return 0, false; }
    var r1 := t[i + 1];
    if IsSdmt(r1) { return i + 2, true; }
    if i + 2 >= |t| { return 0, false; }
    var r2 := t[i + 2];
    if IsDigraph(r1, r2) { return i + 3, true; }
    return 0, false;
  }

  predicate IsDigraph(a: char, b: char)
  {
    var la, lb := AsciiLower(a), AsciiLower(b);
    (la == 'l' && lb == 'l') || (la == 'v' && lb == 'e') || (la == 'r' && lb == 'e')
  }

  lemma PairIs(a: char, b: char, t: string, i: nat)
    requires i <= |t|
    ensures First(LetterPair(a, b), t, i) ==
      if i + 1 < |t| && AsciiLower(t[i]) == a && AsciiLower(t[i + 1]) == b then Some(i + 2) else None
  {
    FirstCatSingle(Letter(a), Letter(b), t, i);
  }

  lemma PairsIs(t: string, i: nat)
    requires i <= |t|
    ensures First(Pairs(), t, i) == if i + 1 < |t| && IsDigraph(t[i], t[i + 1]) then Some(i + 2) else None
  {
    FirstAlt(LetterPair('l', 'l'), Alt(LetterPair('v', 'e'), LetterPair('r', 'e')), t, i);
    FirstAlt(LetterPair('v', 'e'), LetterPair('r', 'e'), t, i);
    PairIs('l', 'l', t, i);
    PairIs('v', 'e', t, i);
    PairIs('r', 'e', t, i);
  }

  lemma QuoteThen(r: Rx, t: string, i: nat)
    requires i < |t|
    ensures First(Cat(Is('\''), r), t, i) == if t[i] == '\'' then First(r, t, i + 1) else None
  {
    FirstCatSingle(Is('\''), r, t, i);
  }

  lemma LetterOr(r: Rx, t: string, i: nat)
    requires i <= |t|
    ensures First(Alt(Class(IsSdmt), r), t, i) == if i < |t| && IsSdmt(t[i]) then Some(i + 1) else First(r, t, i)
  {
    FirstAlt(Class(IsSdmt), r, t, i);
  }

  /** What the first alternative matches. */
  lemma ApostropheIs(t: string, i: nat)
    requires i < |t|
    ensures First(Alt1(), t, i) ==
      if t[i] != '\'' || i + 1 >= |t| then None
      else if IsSdmt(t[i + 1]) then Some(i + 2)
      else if i + 2 < |t| && IsDigraph(t[i + 1], t[i + 2]) then Some(i + 3)
      else None
  {
    QuoteThen(Alt(Class(IsSdmt), Pairs()), t, i);
    LetterOr(Pairs(), t, i + 1);
    PairsIs(t, i + 1);
  }

  method MatchLetters(u: Classes, t: string, i: nat) returns (end: nat, ok: bool)
    requires i < |t|
    ensures First(Alt2(u), t, i) == if ok then Some(end) else None
  {
    LettersIs(u, t, i);
    var j := i;
    var r := t[j];
    if r != '\r' && r != '\n' && !u.letter(r) && !u.number(r) { j := j + 1; }
    var lettersStart := j;
    j := Skip(u.letter, t, j);
    if j == lettersStart { return 0, false; }
    return j, true;
  }

  lemma LeadReach(u: Classes, t: string, i: nat)
    requires i < |t|
    ensures Capped(Run(Leads(u), t, i), Some(1)) == if Lead(u, t[i]) then 1 else 0
  {
  }

  lemma LettersIs(u: Classes, t: string, i: nat)
    requires i < |t|
    ensures var j := if Lead(u, t[i]) then i + 1 else i;
      First(Alt2(u), t, i) == Reach(u.letter, 1, None, t, j)
  {
    LeadReach(u, t, i);
    PossessiveTwice(Leads(u), 1, u.letter, 1, t, i, if Lead(u, t[i]) then i + 1 else i);
  }

  method MatchDigits(u: Classes, t: string, i: nat) returns (end: nat, ok: bool)
    requires i < |t|
    ensures First(Alt3(u), t, i) == if ok then Some(end) else None
  {
    FirstPossessive(u.number, 1, Some(3), t, i);
    var j, count := i, 0;
    while j < |t| && count < 3
      invariant i <= j <= |t| && count == j - i <= 3 && Run(u.number, t, i) == count + Run(u.number, t, j)
    {
      if !u.number(t[j]) { break; }
      j := j + 1;
      count := count + 1;
    }
    if count == 0 { return 0, false; }
    return j, true;
  }

  method MatchOther(u: Classes, t: string, i: nat) returns (end: nat, ok: bool)
    requires i < |t| && Sound(u)
    ensures First(Alt4(u), t, i) == if ok then Some(end) else None
  {
    OtherIs(u, t, i);
    var j := i;
    if t[j] == ' ' { j := j + 1; }
    end, ok := MatchBody(u, t, j);
  }

  /** The two loops of altOther. */
  method MatchBody(u: Classes, t: string, bodyStart: nat) returns (end: nat, ok: bool)
    requires bodyStart <= |t|
    ensures BodyEnd(u, t, bodyStart) == if ok then Some(end) else None
  {
    var j := Skip(Others(u), t, bodyStart);
    if j == bodyStart { return 0, false; }
    end := Skip(IsCRLF, t, j);
    ok := true;
  }

  /** Where the part of alternative 4 behind the optional blank ends. */
  function BodyEnd(u: Classes, t: string, j: nat): Option<nat>
    requires j <= |t|
  {
    var k := j + Run(Others(u), t, j);
    if k > j then Some(k + Run(IsCRLF, t, k)) else None
  }

  lemma BodyIs(u: Classes, t: string, j: nat)
    requires j <= |t|
    ensures First(Body(u), t, j) == BodyEnd(u, t, j)
  {
    PossessiveThen(Others(u), 1, None, Atomic(Repeat(IsCRLF, 0, None)), t, j);
    FirstPossessive(IsCRLF, 0, None, t, j + Run(Others(u), t, j));
  }

  lemma BlankStartsNoBody(u: Classes, t: string, i: nat)
    requires i < |t| && Sound(u) && t[i] == ' '
    ensures BodyEnd(u, t, i).None?
  {
  }

  /** Taking the optional blank greedily and never giving it back loses nothing: a blank cannot start
      the body. */
  lemma OtherIs(u: Classes, t: string, i: nat)
    requires i < |t| && Sound(u)
    ensures First(Alt4(u), t, i) == BodyEnd(u, t, if t[i] == ' ' then i + 1 else i)
  {
    OptionalThen(Blanks(), Body(u), t, i);
    BodyIs(u, t, i);
    BodyIs(u, t, i + 1);
    if t[i] == ' ' { BlankStartsNoBody(u, t, i); }
  }

  method MatchSpaceEnd(u: Classes, t: string, i: nat) returns (end: nat, ok: bool)
    requires i <= |t| && Sound(u)
    ensures First(Alt5(u), t, i) == if ok then Some(end) else None
  {
    SpaceEndIs(u, t, i);
    var j := i;
    while j < |t|
      invariant i <= j <= |t| && i + Run(u.space, t, i) == j + Run(u.space, t, j)
    {
      if !u.space(t[j]) { return 0, false; }
      j := j + 1;
    }
    if j == i { return 0, false; }
    return j, true;
  }

  lemma SpaceEndIs(u: Classes, t: string, i: nat)
    requires i <= |t| && Sound(u)
    ensures First(Alt5(u), t, i) == if i < |t| && i + Run(u.space, t, i) == |t| then Some(|t|) else None
  {
    PossessiveThen(u.space, 1, None, Dollar, t, i);
  }

  /** The end behind the last CR or LF before `j`, not before `i`. */
  function LastCRLF(t: string, i: nat, j: nat): (e: int)
    requires i <= j <= |t|
    ensures e == -1 || (i < e <= j && IsCRLF(t[e - 1]) && forall k :: e <= k < j ==> !IsCRLF(t[k]))
    ensures e == -1 ==> forall k :: i <= k < j ==> !IsCRLF(t[k])
  {
    if j == i then -1 else if IsCRLF(t[j - 1]) then j else LastCRLF(t, i, j - 1)
  }

  method MatchSpaceCRLF(u: Classes, t: string, i: nat) returns (end: int, ok: bool)
    requires i < |t| && Sound(u)
    ensures ok ==> end >= 0
    ensures First(Alt6(u), t, i) == if ok then Some(end as nat) else None
  {
    SpaceCRLFIs(u, t, i);
    var j, lastEnd := i, -1;
    while j < |t|
      invariant i <= j <= |t| && i + Run(u.space, t, i) == j + Run(u.space, t, j) && lastEnd == LastCRLF(t, i, j)
    {
      var r := t[j];
      if !u.space(r) { break; }
      if r == '\r' || r == '\n' { lastEnd := j + 1; }
      j := j + 1;
    }
    if lastEnd < 0 { return 0, false; }
    return lastEnd, true;
  }

  /** Greedy blanks and then a line break: the match ends behind the last line break of the run. */
  lemma SpaceCRLFIs(u: Classes, t: string, i: nat)
    requires i < |t| && Sound(u)
    ensures var e := LastCRLF(t, i, i + Run(u.space, t, i));
      First(Alt6(u), t, i) == if e >= 0 then Some(e as nat) else None
  {
    var k := Run(u.space, t, i);
    var e := LastCRLF(t, i, i + k);
    FirstCatAt(Repeat(u.space, 0, None), Class(IsCRLF), t, i, if e >= 0 then i + k - (e - 1) else k + 1);
  }

  method MatchHoldback(u: Classes, t: string, i: nat) returns (end: int, ok: bool)
    requires i < |t| && Sound(u) && First(Alt5(u), t, i).None? && First(Alt6(u), t, i).None?
    ensures ok ==> end >= 0
    ensures First(Alt7(u), t, i) == if ok then Some(end as nat) else None
  {
    HoldbackIs(u, t, i);
    NoLineBreak(u, t, i);
    var j, count, lastStart := i, 0, -1;
    while j < |t|
      invariant i <= j <= i + Run(u.space, t, i) && count == j - i && lastStart == if j == i then -1 else j - 1
    {
      var r := t[j];
      if !u.space(r) || r == '\r' || r == '\n' { break; }
      lastStart := j;
      count := count + 1;
      j := j + 1;
    }
    if count < 2 { return 0, false; }
    return lastStart, true;
  }

  /** Where alternative 6 fails the run of blanks holds no line break. */
  lemma NoLineBreak(u: Classes, t: string, i: nat)
    requires i < |t| && Sound(u) && First(Alt6(u), t, i).None?
    ensures forall j :: i <= j < i + Run(u.space, t, i) ==> !IsCRLF(t[j])
  {
    SpaceCRLFIs(u, t, i);
  }

  /** Where the run of blanks stops before the end, all but its last blank match. */
  lemma HoldbackIs(u: Classes, t: string, i: nat)
    requires i < |t| && Sound(u) && First(Alt5(u), t, i).None?
    ensures var k := Run(u.space, t, i);
      First(Alt7(u), t, i) == if k >= 2 then Some(i + k - 1) else None
  {
    SpaceEndIs(u, t, i);
    var k := Run(u.space, t, i);
    FirstCatAt(Repeat(u.space, 1, None), NotAhead(NonSpaces(u)), t, i, if k == 0 then 0 else 1);
  }

  method MatchSpace(u: Classes, t: string, i: nat) returns (end: nat, ok: bool)
    requires i < |t|
    ensures First(Alt8(u), t, i) == if ok then Some(end) else None
  {
    if !u.space(t[i]) { return 0, false; }
    return i + 1, true;
  }

  // ----- the alternatives together -----

  /** The first alternative that matches gives the match of the whole pattern. */
  lemma FirstOfPattern(u: Classes, t: string, i: nat)
    requires i < |t|
    ensures First(Pattern(u), t, i) ==
      if First(Alt1(), t, i).Some? then First(Alt1(), t, i)
      else if First(Alt2(u), t, i).Some? then First(Alt2(u), t, i)
      else if First(Alt3(u), t, i).Some? then First(Alt3(u), t, i)
      else if First(Alt4(u), t, i).Some? then First(Alt4(u), t, i)
      else if First(Alt5(u), t, i).Some? then First(Alt5(u), t, i)
      else if First(Alt6(u), t, i).Some? then First(Alt6(u), t, i)
      else if First(Alt7(u), t, i).Some? then First(Alt7(u), t, i)
      else First(Alt8(u), t, i)
  {
    var r7 := Alt(Alt7(u), Alt8(u));
    var r6 := Alt(Alt6(u), r7);
    var r5 := Alt(Alt5(u), r6);
    var r4 := Alt(Alt4(u), r5);
    var r3 := Alt(Alt3(u), r4);
    var r2 := Alt(Alt2(u), r3);
    FirstAlt(Alt1(), r2, t, i);
    FirstAlt(Alt2(u), r3, t, i);
    FirstAlt(Alt3(u), r4, t, i);
    FirstAlt(Alt4(u), r5, t, i);
    FirstAlt(Alt5(u), r6, t, i);
    FirstAlt(Alt6(u), r7, t, i);
    FirstAlt(Alt7(u), Alt8(u), t, i);
  }

  /** Some alternative matches, and what matches is not empty. */
  lemma SomeAlternative(u: Classes, t: string, i: nat)
    requires i < |t| && Sound(u)
    ensures First(Alt2(u), t, i).Some? || First(Alt3(u), t, i).Some? || First(Alt4(u), t, i).Some?
            || First(Alt8(u), t, i).Some?
  {
    LettersIs(u, t, i);
    OtherIs(u, t, i);
    FirstPossessive(u.number, 1, Some(3), t, i);
  }

  lemma Advances(u: Classes, t: string, i: nat)
    requires i < |t| && Sound(u)
    ensures First(Alt1(), t, i).Some? ==> First(Alt1(), t, i).value > i
    ensures First(Alt2(u), t, i).Some? ==> First(Alt2(u), t, i).value > i
    ensures First(Alt3(u), t, i).Some? ==> First(Alt3(u), t, i).value > i
    ensures First(Alt4(u), t, i).Some? ==> First(Alt4(u), t, i).value > i
  {
    ApostropheIs(t, i);
    LettersIs(u, t, i);
    OtherIs(u, t, i);
    FirstPossessive(u.number, 1, Some(3), t, i);
  }

  lemma BlanksAdvance(u: Classes, t: string, i: nat)
    requires i < |t| && Sound(u)
    ensures First(Alt5(u), t, i).Some? ==> First(Alt5(u), t, i).value > i
    ensures First(Alt6(u), t, i).Some? ==> First(Alt6(u), t, i).value > i
    ensures First(Alt5(u), t, i).None? && First(Alt7(u), t, i).Some? ==> First(Alt7(u), t, i).value > i
    ensures First(Alt8(u), t, i).Some? ==> First(Alt8(u), t, i).value > i
  {
    SpaceEndIs(u, t, i);
    SpaceCRLFIs(u, t, i);
    if First(Alt5(u), t, i).None? { HoldbackIs(u, t, i); }
  }

  /** The pattern matches at every position, and never the empty string. */
  lemma AlwaysMatches(u: Classes, t: string, i: nat)
    requires i < |t| && Sound(u)
    ensures First(Pattern(u), t, i).Some? && First(Pattern(u), t, i).value > i
  {
    FirstOfPattern(u, t, i);
    SomeAlternative(u, t, i);
    Advances(u, t, i);
    BlanksAdvance(u, t, i);
  }

  /** nextPretokenEnd: the end of the leftmost-first match of the pattern. */
  method NextPretokenEnd(u: Classes, t: string, i: nat) returns (end: nat)
    requires i < |t| && Sound(u)
    ensures First(Pattern(u), t, i) == Some(end) && i < end <= |t|
  {
    FirstOfPattern(u, t, i);
    AlwaysMatches(u, t, i);
    var ok, e: int;
    end, ok := MatchApostrophe(t, i);
    if ok { return; }
    end, ok := MatchLetters(u, t, i);
    if ok { return; }
    end, ok := MatchDigits(u, t, i);
    if ok { return; }
    end, ok := MatchOther(u, t, i);
    if ok { return; }
    end, ok := MatchSpaceEnd(u, t, i);
    if ok { return; }
    e, ok := MatchSpaceCRLF(u, t, i);
    if ok { return e; }
    e, ok := MatchHoldback(u, t, i);
    if ok { return e; }
    end, ok := MatchSpace(u, t, i);
  }

  predicate NonEmpty(pieces: seq<string>) { forall k :: 0 <= k < |pieces| ==> pieces[k] != "" }

  lemma PrependPiece(x: string, rest: seq<string>, all: string)
    requires x != "" && NonEmpty(rest) && x + Concat(rest) == all
    ensures Concat([x] + rest) == all && NonEmpty([x] + rest)
  {
    ConcatAppend([x], rest);
    ConcatOne([], x);
    assert [] + [x] == [x];
  }

  /** The pieces are non-empty and together they are the text: nothing is skipped. */
  lemma {:induction false} PiecesCover(u: Classes, t: string, i: nat)
    requires i <= |t| && Sound(u)
    ensures Concat(FindAll(Pattern(u), t, i)) == t[i..] && NonEmpty(FindAll(Pattern(u), t, i))
    decreases |t| - i
  {
    if i < |t| {
      AlwaysMatches(u, t, i);
      var e := First(Pattern(u), t, i).value;
      PiecesCover(u, t, e);
      assert t[i..] == t[i..e] + t[e..];
      PrependPiece(t[i..e], FindAll(Pattern(u), t, e), t[i..]);
    }
  }

  /** splitPretokens. */
  method SplitPretokens(u: Classes, t: string) returns (pieces: seq<string>)
    requires Sound(u)
    ensures pieces == FindAll(Pattern(u), t, 0)
  {
    pieces := [];
    var i := 0;
    Associate(FindAll(Pattern(u), t, 0), [], []);
    while i < |t|
      invariant 0 <= i <= |t| && pieces + FindAll(Pattern(u), t, i) == FindAll(Pattern(u), t, 0)
    {
      var end := NextPretokenEnd(u, t, i);
      Associate(pieces, [t[i..end]], FindAll(Pattern(u), t, end));
      pieces := pieces + [t[i..end]];
      i := end;
    }
    Associate(pieces, [], []);
  }
}
