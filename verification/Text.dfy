/** Byte strings. A Go string or []byte is modelled as a Dafny string whose characters are its bytes;
    `p <= s` is "p is a prefix of s". */
module Text {

  /** `p` occurs in `s` at offset `j`. */
  predicate Occurs(s: string, p: string, j: int)
  {
    0 <= j && j + |p| <= |s| && s[j..j + |p|] == p
  }

  /** The first offset from `i` on at which `p` occurs in `s`, or -1. */
  function IndexFrom(s: string, p: string, i: nat): (r: int)
    ensures r == -1 || (i <= r && Occurs(s, p, r))
    ensures forall j :: i <= j && Occurs(s, p, j) ==> 0 <= r <= j
    decreases |s| - i
  {
    if i + |p| > |s| then -1 else if Occurs(s, p, i) then i else IndexFrom(s, p, i + 1)
  }

  /** strings.Index / bytes.Index: the first offset at which `p` occurs in `s`, or -1. */
  function Index(s: string, p: string): (r: int)
    ensures r == -1 || (0 <= r && Occurs(s, p, r))
    ensures forall j :: Occurs(s, p, j) ==> 0 <= r <= j
  {
    IndexFrom(s, p, 0)
  }

  lemma OccursDrop(s: string, p: string, n: nat, j: nat)
    requires n <= |s|
    ensures Occurs(s[n..], p, j) <==> Occurs(s, p, n + j)
  {
    if n + j + |p| <= |s| { assert s[n..][j..j + |p|] == s[n + j..n + j + |p|]; }
  }

  lemma OccursAppend(s: string, p: string, x: string, j: nat)
    ensures j + |p| <= |s| ==> (Occurs(s + x, p, j) <==> Occurs(s, p, j))
  {
    if j + |p| <= |s| { assert (s + x)[j..j + |p|] == s[j..j + |p|]; }
  }

  /** A first match is still the first match after more input. */
  lemma IndexStable(s: string, p: string, x: string)
    requires Index(s, p) >= 0
    ensures Index(s + x, p) == Index(s, p)
  {
    OccursAppend(s, p, x, Index(s, p));
    OccursAppend(s, p, x, Index(s + x, p));
  }

  /** Offsets without a match may be skipped. */
  lemma IndexSkip(s: string, p: string, n: nat)
    requires n <= |s| && forall j :: 0 <= j < n ==> !Occurs(s, p, j)
    ensures Index(s, p) == var r := Index(s[n..], p); if r < 0 then -1 else n + r
  {
    var a, b := Index(s, p), Index(s[n..], p);
    if a >= 0 { OccursDrop(s, p, n, a - n); }
    if b >= 0 { OccursDrop(s, p, n, b); }
  }

  /** Prefixes of an extended string. */
  lemma PrefixAppend(p: string, s: string, x: string)
    ensures |p| <= |s| ==> (p <= s + x <==> p <= s)
    ensures |s| <= |p| && p <= s + x ==> s <= p
    ensures s + x <= p ==> s <= p
  {
    if p <= s + x { assert p == (s + x)[..|p|]; }
    if s + x <= p { assert s + x == p[..|s + x|]; }
  }

  lemma DropAppend(s: string, x: string, n: nat)
    requires n <= |s|
    ensures (s + x)[n..] == s[n..] + x
  {
  }

  lemma TakeAppend(s: string, x: string, n: nat)
    requires n <= |s|
    ensures (s + x)[..n] == s[..n]
  {
  }

  lemma SliceAppend(s: string, x: string, i: nat, j: nat)
    requires i <= j <= |s|
    ensures (s + x)[i..j] == s[i..j]
  {
  }

  lemma CutAppend(s: string, x: string, k: nat)
    requires k <= |x|
    ensures (s + x)[..|s| + k] == s + x[..k] && (s + x)[|s| + k..] == x[k..]
  {
  }

  lemma AppendCut(s: string, x: string, k: nat)
    requires k <= |x|
    ensures s + x == (s + x[..k]) + x[k..]
  {
  }

  /** Of two prefixes of one string the shorter is a prefix of the longer. */
  lemma PrefixesOrdered(a: string, b: string, s: string)
    requires a <= s && b <= s && |a| <= |b|
    ensures a <= b
  {
  }

  /** The ASCII blanks the thinking parser strips: " \t\n\r". */
  predicate IsBlank(c: char) { c == ' ' || c == '\t' || c == '\n' || c == '\r' }

  /** Number of leading blanks. */
  function LeadingBlanks(s: string): (n: nat)
    ensures n <= |s|
    ensures forall i :: 0 <= i < n ==> IsBlank(s[i])
    ensures n < |s| ==> !IsBlank(s[n])
  {
    if s == "" || !IsBlank(s[0]) then 0 else 1 + LeadingBlanks(s[1..])
  }

  /** strings.TrimLeft(s, " \t\n\r"). */
  function TrimLeft(s: string): string { s[LeadingBlanks(s)..] }

  lemma LeadingBlanksIs(s: string, n: nat)
    requires n <= |s| && (forall i :: 0 <= i < n ==> IsBlank(s[i])) && (n < |s| ==> !IsBlank(s[n]))
    ensures LeadingBlanks(s) == n
  {
  }

  /** The leading blanks of an extended string. */
  lemma LeadingBlanksAppend(s: string, t: string)
    ensures LeadingBlanks(s + t) == if LeadingBlanks(s) < |s| then LeadingBlanks(s) else |s| + LeadingBlanks(t)
  {
    LeadingBlanksIs(s + t, if LeadingBlanks(s) < |s| then LeadingBlanks(s) else |s| + LeadingBlanks(t));
  }

  /** Once a non-blank has been seen, trimming commutes with appending. */
  lemma TrimLeftAppend(s: string, t: string)
    requires TrimLeft(s) != ""
    ensures LeadingBlanks(s + t) == LeadingBlanks(s)
    ensures TrimLeft(s + t) == TrimLeft(s) + t
  {
    LeadingBlanksAppend(s, t);
  }

  lemma Associate<T>(a: seq<T>, b: seq<T>, c: seq<T>)
    ensures (a + b) + c == a + (b + c)
    ensures a + [] == a && [] + a == a
  {
  }

  /** The text of a list of chunks. */
  function Concat(chunks: seq<string>): string
  {
    if chunks == [] then "" else Concat(chunks[..|chunks| - 1]) + chunks[|chunks| - 1]
  }

  lemma ConcatOne(chunks: seq<string>, x: string)
    ensures Concat(chunks + [x]) == Concat(chunks) + x
  {
    assert (chunks + [x])[..|chunks|] == chunks;
  }

  lemma ConcatAppend(a: seq<string>, b: seq<string>)
    ensures Concat(a + b) == Concat(a) + Concat(b)
  {
    if b == [] {
      assert a + b == a;
    } else {
      var n := |b| - 1;
      assert a + b == (a + b[..n]) + [b[n]];
      ConcatAppend(a, b[..n]);
      ConcatOne(a + b[..n], b[n]);
      Associate(Concat(a), Concat(b[..n]), b[n]);
    }
  }
}
