/** Backtracking regular expressions over characters: the ends a match can reach from a position, in
    the order in which a backtracking engine tries them. The leftmost-first match is the first end. */
module Regex {
  import opened Options

  datatype Rx =
    | Class(p: char -> bool)
    | Repeat(p: char -> bool, lo: nat, hi: Option<nat>)   // greedy; no upper bound if None
    | Cat(a: Rx, b: Rx)
    | Alt(a: Rx, b: Rx)
    | Atomic(a: Rx)                                       // possessive: the first way only
    | NotAhead(p: char -> bool)                           // (?!p)
    | Dollar                                              // the end, or before a final newline

  /** Length of the longest run of `p` from `i`. */
  function Run(p: char -> bool, t: string, i: nat): (k: nat)
    requires i <= |t|
    ensures i + k <= |t|
    ensures forall j :: i <= j < i + k ==> p(t[j])
    ensures i + k < |t| ==> !p(t[i + k])
    decreases |t| - i
  {
    if i < |t| && p(t[i]) then 1 + Run(p, t, i + 1) else 0
  }

  /** `hi`, `hi - 1`, ..., `lo`. */
  function Down(hi: nat, lo: nat): (s: seq<nat>)
    requires lo <= hi
    ensures |s| == hi - lo + 1 && forall k :: 0 <= k < |s| ==> s[k] == hi - k
  {
    seq(hi - lo + 1, k requires 0 <= k <= hi - lo => hi - k)
  }

  function Capped(k: nat, hi: Option<nat>): nat { if hi.Some? && hi.value < k then hi.value else k }

  /** The ends of the matches of `r` from `i`, best first. */
  function Ends(r: Rx, t: string, i: nat): (es: seq<nat>)
    requires i <= |t|
    ensures forall k :: 0 <= k < |es| ==> i <= es[k] <= |t|
    decreases r, 0
  {
    match r
    case Class(p) => if i < |t| && p(t[i]) then [i + 1] else []
    case Repeat(p, lo, hi) =>
      var k := Capped(Run(p, t, i), hi);
      if lo <= k then Down(i + k, i + lo) else []
    case Cat(a, b) => Then(Ends(a, t, i), b, t, i)
    case Alt(a, b) => Ends(a, t, i) + Ends(b, t, i)
    case Atomic(a) => var es := Ends(a, t, i); if es == [] then [] else [es[0]]
    case NotAhead(p) => if i < |t| && p(t[i]) then [] else [i]
    case Dollar => if i == |t| || (i == |t| - 1 && t[i] == '\n') then [i] else []
  }

  /** Continue with `b` from each end in turn. */
  function Then(es: seq<nat>, b: Rx, t: string, i: nat): (r: seq<nat>)
    requires i <= |t| && forall k :: 0 <= k < |es| ==> i <= es[k] <= |t|
    ensures forall k :: 0 <= k < |r| ==> i <= r[k] <= |t|
    decreases b, 1, |es|
  {
    if es == [] then [] else Ends(b, t, es[0]) + Then(es[1..], b, t, i)
  }

  /** The leftmost-first match. */
  function First(r: Rx, t: string, i: nat): (e: Option<nat>)
    requires i <= |t|
    ensures e.Some? ==> i <= e.value <= |t|
  {
    var es := Ends(r, t, i);
    if es == [] then None else Some(es[0])
  }

  lemma FirstAlt(a: Rx, b: Rx, t: string, i: nat)
    requires i <= |t|
    ensures First(Alt(a, b), t, i) == if First(a, t, i).Some? then First(a, t, i) else First(b, t, i)
  {
  }

  /** Ends that lead nowhere are skipped. */
  lemma {:induction false} ThenSkips(es: seq<nat>, n: nat, b: Rx, t: string, i: nat)
    requires i <= |t| && forall k :: 0 <= k < |es| ==> i <= es[k] <= |t|
    requires n <= |es| && forall k :: 0 <= k < n ==> Ends(b, t, es[k]) == []
    ensures Then(es, b, t, i) == Then(es[n..], b, t, i)
  {
    if n > 0 {
      ThenSkips(es[1..], n - 1, b, t, i);
      assert es[1..][n - 1..] == es[n..];
    }
  }

  /** The first end from which `b` matches decides. */
  lemma FirstCatAt(a: Rx, b: Rx, t: string, i: nat, n: nat)
    requires i <= |t| && n <= |Ends(a, t, i)|
    requires forall k :: 0 <= k < n ==> Ends(b, t, Ends(a, t, i)[k]) == []
    requires n < |Ends(a, t, i)| ==> Ends(b, t, Ends(a, t, i)[n]) != []
    ensures First(Cat(a, b), t, i) ==
      if n < |Ends(a, t, i)| then First(b, t, Ends(a, t, i)[n]) else None
  {
    ThenSkips(Ends(a, t, i), n, b, t, i);
  }

  lemma ThenOne(x: nat, b: Rx, t: string, i: nat)
    requires i <= x <= |t|
    ensures Then([x], b, t, i) == Ends(b, t, x) && Then([], b, t, i) == []
  {
    assert [x][1..] == [];
  }

  lemma FirstCatIs(a: Rx, b: Rx, t: string, i: nat, es: seq<nat>)
    requires i <= |t| && es == Ends(a, t, i)
    ensures First(Cat(a, b), t, i) == var all := Then(es, b, t, i); if all == [] then None else Some(all[0])
  {
  }

  /** After a pattern with at most one end there is no choice. */
  lemma FirstCatSingle(a: Rx, b: Rx, t: string, i: nat)
    requires i <= |t| && |Ends(a, t, i)| <= 1
    ensures First(Cat(a, b), t, i) == if First(a, t, i).Some? then First(b, t, First(a, t, i).value) else None
  {
    var es := Ends(a, t, i);
    FirstCatIs(a, b, t, i, es);
    if es == [] {
      ThenOne(i, b, t, i);
    } else {
      assert es == [es[0]];
      ThenOne(es[0], b, t, i);
    }
  }

  /** How far a possessive repetition goes: the run, up to its cap. */
  function Reach(p: char -> bool, lo: nat, hi: Option<nat>, t: string, i: nat): Option<nat>
    requires i <= |t|
  {
    var k := Capped(Run(p, t, i), hi);
    if lo <= k then Some(i + k) else None
  }

  lemma FirstPossessive(p: char -> bool, lo: nat, hi: Option<nat>, t: string, i: nat)
    requires i <= |t|
    ensures First(Atomic(Repeat(p, lo, hi)), t, i) == Reach(p, lo, hi, t, i)
    ensures |Ends(Atomic(Repeat(p, lo, hi)), t, i)| <= 1
  {
    var es := Ends(Repeat(p, lo, hi), t, i);
    assert es == [] <==> Reach(p, lo, hi, t, i).None?;
  }

  /** What follows a possessive repetition starts where it stops. */
  lemma PossessiveThen(p: char -> bool, lo: nat, hi: Option<nat>, b: Rx, t: string, i: nat)
    requires i <= |t|
    ensures var k := Reach(p, lo, hi, t, i);
      First(Cat(Atomic(Repeat(p, lo, hi)), b), t, i) ==
      if k.Some? then First(b, t, i + Capped(Run(p, t, i), hi)) else None
  {
    FirstPossessive(p, lo, hi, t, i);
    FirstCatSingle(Atomic(Repeat(p, lo, hi)), b, t, i);
  }

  /** Two possessive repetitions in a row. */
  lemma PossessiveTwice(p: char -> bool, hi: nat, q: char -> bool, lo: nat, t: string, i: nat, j: nat)
    requires i <= |t| && j == i + Capped(Run(p, t, i), Some(hi))
    ensures First(Cat(Atomic(Repeat(p, 0, Some(hi))), Atomic(Repeat(q, lo, None))), t, i) == Reach(q, lo, None, t, j)
  {
    PossessiveThen(p, 0, Some(hi), Atomic(Repeat(q, lo, None)), t, i);
    FirstPossessive(q, lo, None, t, j);
  }

  lemma OptionalEnds(p: char -> bool, t: string, i: nat)
    requires i <= |t|
    ensures Ends(Repeat(p, 0, Some(1)), t, i) == if i < |t| && p(t[i]) then [i + 1, i] else [i]
  {
  }

  lemma ThenTwo(x: nat, y: nat, b: Rx, t: string, i: nat)
    requires i <= x <= |t| && i <= y <= |t|
    ensures Then([x, y], b, t, i) == Ends(b, t, x) + Ends(b, t, y)
  {
    assert [x, y][1..] == [y];
    ThenOne(y, b, t, i);
  }

  lemma FirstCatOne(a: Rx, b: Rx, t: string, i: nat, x: nat)
    requires i <= x <= |t| && Ends(a, t, i) == [x]
    ensures First(Cat(a, b), t, i) == First(b, t, x)
  {
    FirstCatIs(a, b, t, i, [x]);
    ThenOne(x, b, t, i);
  }

  lemma FirstCatTwo(a: Rx, b: Rx, t: string, i: nat, x: nat, y: nat)
    requires i <= x <= |t| && i <= y <= |t| && Ends(a, t, i) == [x, y]
    ensures First(Cat(a, b), t, i) == if First(b, t, x).Some? then First(b, t, x) else First(b, t, y)
  {
    FirstCatIs(a, b, t, i, [x, y]);
    ThenTwo(x, y, b, t, i);
  }

  /** A greedy optional character: with it if that leads to a match, else without. */
  lemma OptionalThen(p: char -> bool, b: Rx, t: string, i: nat)
    requires i <= |t|
    ensures First(Cat(Repeat(p, 0, Some(1)), b), t, i) ==
      if i < |t| && p(t[i]) && First(b, t, i + 1).Some? then First(b, t, i + 1) else First(b, t, i)
  {
    OptionalEnds(p, t, i);
    if i < |t| && p(t[i]) {
      FirstCatTwo(Repeat(p, 0, Some(1)), b, t, i, i + 1, i);
    } else {
      FirstCatOne(Repeat(p, 0, Some(1)), b, t, i, i);
    }
  }

  /** regex.findall: successive matches, skipping characters at which nothing matches. */
  function FindAll(r: Rx, t: string, i: nat): seq<string>
    requires i <= |t|
    decreases |t| - i
  {
    if i == |t| then []
    else
      var e := First(r, t, i);
      if e.Some? && e.value > i then [t[i..e.value]] + FindAll(r, t, e.value) else FindAll(r, t, i + 1)
  }
}
