/** The number grammar of RFC 8259, section 6. */
module Numbers {

  predicate IsDigit(c: char) { '0' <= c <= '9' }

  predicate IsNumChar(c: char) { IsDigit(c) || c == '-' || c == '+' || c == '.' || c == 'e' || c == 'E' }

  predicate NumChars(s: string) { forall i :: 0 <= i < |s| ==> IsNumChar(s[i]) }

  /** How many digits lead `s`. */
  function Digits(s: string): (n: nat)
    ensures n <= |s| && forall i :: 0 <= i < n ==> IsDigit(s[i])
  {
    if s != "" && IsDigit(s[0]) then 1 + Digits(s[1..]) else 0
  }

  /** One zero, or digits that do not start with zero. */
  function IntegerPart(s: string): (n: nat)
    ensures n <= |s| && NumChars(s[..n])
  {
    if s != "" && s[0] == '0' then 1 else Digits(s)
  }

  /** A point and digits, or nothing. */
  function FractionPart(s: string): (n: nat)
    ensures n <= |s| && NumChars(s[..n])
  {
    if s != "" && s[0] == '.' && Digits(s[1..]) > 0 then 1 + Digits(s[1..]) else 0
  }

  function SignPart(s: string): (n: nat)
    ensures n <= |s| && NumChars(s[..n])
  {
    if s != "" && (s[0] == '+' || s[0] == '-') then 1 else 0
  }

  /** `e`, an optional sign and digits, or nothing. */
  function ExponentPart(s: string): (n: nat)
    ensures n <= |s| && NumChars(s[..n])
  {
    if s == "" || (s[0] != 'e' && s[0] != 'E') then 0
    else
      var sign := SignPart(s[1..]);
      var digits := Digits(s[1 + sign..]);
      if digits > 0 then 1 + sign + digits else 0
  }

  function MinusPart(s: string): (n: nat)
    ensures n <= |s| && NumChars(s[..n])
  {
    if s != "" && s[0] == '-' then 1 else 0
  }

  /** A fraction and an exponent, where there are any. */
  function Tail(s: string): (n: nat)
    ensures n <= |s|
  {
    var fraction := FractionPart(s);
    fraction + ExponentPart(s[fraction..])
  }

  /** The minus sign and the digits before the point, or 0. */
  function Head(s: string): (n: nat)
    ensures n <= |s|
  {
    var minus := MinusPart(s);
    var whole := IntegerPart(s[minus..]);
    if whole == 0 then 0 else minus + whole
  }

  /** The length of the number at the front of `s`, or 0. */
  function NumberLength(s: string): (n: nat)
    ensures n <= |s|
  {
    var head := Head(s);
    if head == 0 then 0 else head + Tail(s[head..])
  }

  lemma TwoParts(s: string, i: nat, n: nat)
    requires i + n <= |s|
    requires NumChars(s[..i]) && NumChars(s[i..][..n])
    ensures NumChars(s[..i + n])
  {
    var all, a, b := s[..i + n], s[..i], s[i..][..n];
    forall k | 0 <= k < |all| ensures IsNumChar(all[k]) {
      assert all[k] == if k < i then a[k] else b[k - i];
    }
  }

  /** A text that is one number. */
  predicate IsNumber(s: string) { s != "" && NumberLength(s) == |s| }

  /** A number is made of number characters. */
  lemma NumberIsNumChars(s: string)
    requires IsNumber(s)
    ensures NumChars(s)
  {
    LengthIsNumChars(s);
    assert s[..|s|] == s;
  }

  lemma LengthIsNumChars(s: string)
    ensures NumChars(s[..NumberLength(s)])
  {
    if NumberLength(s) > 0 {
      HeadIsNumChars(s);
      TailBehind(s, Head(s), Tail(s[Head(s)..]));
    }
  }

  lemma TailBehind(s: string, head: nat, tail: nat)
    requires head <= |s| && NumChars(s[..head]) && tail == Tail(s[head..])
    ensures NumChars(s[..head + tail])
  {
    TailIsNumChars(s[head..]);
    TwoParts(s, head, tail);
  }

  lemma HeadIsNumChars(s: string)
    ensures NumChars(s[..Head(s)])
  {
    TwoParts(s, MinusPart(s), IntegerPart(s[MinusPart(s)..]));
  }

  lemma TailIsNumChars(s: string)
    ensures NumChars(s[..Tail(s)])
  {
    TwoParts(s, FractionPart(s), ExponentPart(s[FractionPart(s)..]));
  }

  /** A text that no number runs into. */
  predicate EndsNumber(rest: string) { rest == "" || !IsNumChar(rest[0]) }

  lemma {:induction false} DigitsStop(s: string, rest: string)
    requires EndsNumber(rest)
    ensures Digits(s + rest) == Digits(s)
  {
    if s == "" {
      assert s + rest == rest;
    } else {
      assert (s + rest)[1..] == s[1..] + rest;
      DigitsStop(s[1..], rest);
    }
  }

  lemma MinusStops(s: string, rest: string)
    requires EndsNumber(rest)
    ensures MinusPart(s + rest) == MinusPart(s)
  {
  }

  lemma IntegerStops(s: string, rest: string)
    requires EndsNumber(rest)
    ensures IntegerPart(s + rest) == IntegerPart(s)
  {
    DigitsStop(s, rest);
  }

  lemma FractionStops(s: string, rest: string)
    requires EndsNumber(rest)
    ensures FractionPart(s + rest) == FractionPart(s)
  {
    if s == "" {
      assert s + rest == rest;
    } else {
      assert (s + rest)[1..] == s[1..] + rest;
      DigitsStop(s[1..], rest);
    }
  }

  lemma SignStops(s: string, rest: string)
    requires EndsNumber(rest)
    ensures SignPart(s + rest) == SignPart(s)
  {
  }

  lemma ExponentStops(s: string, rest: string)
    requires EndsNumber(rest)
    ensures ExponentPart(s + rest) == ExponentPart(s)
  {
    if s == "" {
      assert s + rest == rest;
    } else {
      assert (s + rest)[1..] == s[1..] + rest;
      SignStops(s[1..], rest);
      var sign := SignPart(s[1..]);
      assert (s + rest)[1 + sign..] == s[1 + sign..] + rest;
      DigitsStop(s[1 + sign..], rest);
    }
  }

  lemma DropStops(s: string, rest: string, n: nat)
    requires n <= |s|
    ensures (s + rest)[n..] == s[n..] + rest
  {
  }

  lemma HeadStops(s: string, rest: string)
    requires EndsNumber(rest)
    ensures Head(s + rest) == Head(s)
  {
    MinusStops(s, rest);
    DropStops(s, rest, MinusPart(s));
    IntegerStops(s[MinusPart(s)..], rest);
  }

  lemma TailStops(s: string, rest: string)
    requires EndsNumber(rest)
    ensures Tail(s + rest) == Tail(s)
  {
    FractionStops(s, rest);
    DropStops(s, rest, FractionPart(s));
    ExponentStops(s[FractionPart(s)..], rest);
  }

  /** A number ends where its text ends, if what follows cannot continue it. */
  lemma NumberStops(s: string, rest: string)
    requires EndsNumber(rest)
    ensures NumberLength(s + rest) == NumberLength(s)
  {
    HeadStops(s, rest);
    DropStops(s, rest, Head(s));
    TailStops(s[Head(s)..], rest);
  }

  lemma {:induction false} AllDigits(s: string)
    requires forall i :: 0 <= i < |s| ==> IsDigit(s[i])
    ensures Digits(s) == |s|
  {
    if s != "" { AllDigits(s[1..]); }
  }

  /** Decimal digits without a leading zero are a number. */
  lemma DigitsAreNumber(s: string)
    requires s != "" && (forall i :: 0 <= i < |s| ==> IsDigit(s[i])) && (s[0] == '0' ==> |s| == 1)
    ensures IsNumber(s)
  {
    AllDigits(s);
    assert s[0..] == s && s[|s|..] == "";
  }

  // ----- the grammar, without saying how it is read -----

  predicate AreDigits(s: string) { forall i :: 0 <= i < |s| ==> IsDigit(s[i]) }

  predicate IsWhole(s: string) { s == "0" || (s != "" && AreDigits(s) && s[0] != '0') }

  predicate IsFraction(s: string) { s == "" || (|s| > 1 && s[0] == '.' && AreDigits(s[1..])) }

  /** `e`, a sign or none, and digits; or nothing at all. */
  predicate IsExponent(s: string)
  {
    s == "" ||
    ((s[0] == 'e' || s[0] == 'E') &&
     ((|s| > 1 && AreDigits(s[1..])) || (|s| > 2 && (s[1] == '+' || s[1] == '-') && AreDigits(s[2..]))))
  }

  /** `s` is a minus sign or none, a whole part, a fraction and an exponent. */
  predicate Spells(s: string, minus: string, whole: string, fraction: string, exponent: string)
  {
    && s == minus + (whole + (fraction + exponent))
    && (minus == "" || minus == "-") && IsWhole(whole) && IsFraction(fraction) && IsExponent(exponent)
  }

  predicate StartsNoDigit(s: string) { s == "" || !IsDigit(s[0]) }

  lemma {:induction false} DigitsExact(s: string, rest: string)
    requires AreDigits(s) && StartsNoDigit(rest)
    ensures Digits(s + rest) == |s|
  {
    if s == "" {
      assert s + rest == rest;
    } else {
      assert (s + rest)[1..] == s[1..] + rest;
      DigitsExact(s[1..], rest);
    }
  }

  lemma WholeExact(s: string, rest: string)
    requires IsWhole(s) && StartsNoDigit(rest)
    ensures IntegerPart(s + rest) == |s|
  {
    DigitsExact(s, rest);
    assert (s + rest)[0] == s[0];
  }

  lemma FractionExact(s: string, rest: string)
    requires IsFraction(s) && IsExponent(rest)
    ensures FractionPart(s + rest) == |s|
  {
    if s == "" {
      assert s + rest == rest;
    } else {
      assert (s + rest)[1..] == s[1..] + rest;
      DigitsExact(s[1..], rest);
    }
  }

  lemma ExponentExact(s: string)
    requires IsExponent(s)
    ensures ExponentPart(s) == |s|
  {
    if s != "" {
      var later := s[1..];
      assert later + "" == later && (|later| > 0 ==> later[1..] + "" == later[1..] == s[2..]);
      if AreDigits(later) { DigitsExact(later, ""); } else { DigitsExact(later[1..], ""); }
      assert later[0..] == later;
    }
  }

  lemma SkipFront(a: string, b: string)
    ensures (a + b)[|a|..] == b
  {
  }

  lemma TailExact(fraction: string, exponent: string)
    requires IsFraction(fraction) && IsExponent(exponent)
    ensures Tail(fraction + exponent) == |fraction + exponent|
  {
    FractionExact(fraction, exponent);
    SkipFront(fraction, exponent);
    ExponentExact(exponent);
  }

  lemma TailStarts(fraction: string, exponent: string)
    requires IsFraction(fraction) && IsExponent(exponent)
    ensures StartsNoDigit(fraction + exponent)
  {
    if fraction == "" { assert fraction + exponent == exponent; }
  }

  lemma HeadExact(minus: string, whole: string, tail: string)
    requires (minus == "" || minus == "-") && IsWhole(whole) && StartsNoDigit(tail)
    ensures var s := minus + (whole + tail); Head(s) == |minus| + |whole| > 0 && s[Head(s)..] == tail
  {
    WholeExact(whole, tail);
    SkipFront(minus, whole + tail);
    assert (whole + tail)[0] == whole[0];
    if minus == "" { assert minus + (whole + tail) == whole + tail; }
  }

  lemma SpelledIsNumber(s: string, minus: string, whole: string, fraction: string, exponent: string)
    requires Spells(s, minus, whole, fraction, exponent)
    ensures IsNumber(s)
  {
    TailExact(fraction, exponent);
    TailStarts(fraction, exponent);
    HeadExact(minus, whole, fraction + exponent);
  }

  /** The digits in front are all digits, and no digit follows them. */
  lemma {:induction false} DigitsAre(s: string)
    ensures AreDigits(s[..Digits(s)]) && StartsNoDigit(s[Digits(s)..])
  {
    if s != "" && IsDigit(s[0]) {
      DigitsAre(s[1..]);
      assert s[1..][Digits(s[1..])..] == s[Digits(s)..];
    }
  }

  lemma ExponentIs(s: string)
    requires ExponentPart(s) == |s|
    ensures IsExponent(s)
  {
    if s != "" {
      var sign := SignPart(s[1..]);
      DigitsAre(s[1 + sign..]);
      assert s[1 + sign..][..Digits(s[1 + sign..])] == s[1 + sign..];
    }
  }

  lemma FractionIs(s: string)
    ensures IsFraction(s[..FractionPart(s)])
  {
    if FractionPart(s) > 0 {
      DigitsAre(s[1..]);
      assert s[..FractionPart(s)][1..] == s[1..][..Digits(s[1..])];
    }
  }

  lemma WholeIs(s: string)
    requires IntegerPart(s) > 0
    ensures IsWhole(s[..IntegerPart(s)])
  {
    DigitsAre(s);
  }

  lemma Sliced(s: string, i: nat, n: nat)
    requires i + n <= |s|
    ensures s == s[..i] + (s[i..][..n] + s[i + n..])
  {
  }

  lemma HeadIs(s: string)
    requires Head(s) > 0
    ensures var minus, unsigned := s[..MinusPart(s)], s[MinusPart(s)..]; var whole := unsigned[..IntegerPart(unsigned)];
      (minus == "" || minus == "-") && IsWhole(whole) && s == minus + (whole + s[Head(s)..])
  {
    WholeIs(s[MinusPart(s)..]);
    Sliced(s, MinusPart(s), IntegerPart(s[MinusPart(s)..]));
  }

  lemma TailIs(s: string)
    requires Tail(s) == |s|
    ensures var n := FractionPart(s); IsFraction(s[..n]) && IsExponent(s[n..]) && s == s[..n] + s[n..]
  {
    FractionIs(s);
    ExponentIs(s[FractionPart(s)..]);
  }

  lemma NumberIsSpelled(s: string) returns (minus: string, whole: string, fraction: string, exponent: string)
    requires IsNumber(s)
    ensures Spells(s, minus, whole, fraction, exponent)
  {
    minus := s[..MinusPart(s)];
    var unsigned, tail := s[MinusPart(s)..], s[Head(s)..];
    whole := unsigned[..IntegerPart(unsigned)];
    fraction, exponent := tail[..FractionPart(tail)], tail[FractionPart(tail)..];
    HeadIs(s);
    TailIs(tail);
  }

  /** A text is a number if and only if it is spelled by the grammar of RFC 8259, section 6. */
  lemma NumberIff(s: string)
    ensures IsNumber(s) <==> exists m, w, f, e :: Spells(s, m, w, f, e)
  {
    if IsNumber(s) {
      var m, w, f, e := NumberIsSpelled(s);
    } else if exists m, w, f, e :: Spells(s, m, w, f, e) {
      var m, w, f, e :| Spells(s, m, w, f, e);
      SpelledIsNumber(s, m, w, f, e);
    }
  }
}
