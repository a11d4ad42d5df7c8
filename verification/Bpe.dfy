/** Byte pair encoding. The simple form merges the leftmost adjacent pair of lowest rank until none is
    in the vocabulary; the loop keeps part offsets with cached ranks and patches two of them per merge. */
module Bpe {
  import opened Text

  /** math.MaxInt on a 64-bit platform: no token. */
  const MAX_RANK := 0x7fff_ffff_ffff_ffff

  /** The vocabulary: token bytes to rank. */
  type Ranks = map<string, int>

  function RankOf(ranks: Ranks, token: string): int { if token in ranks then ranks[token] else MAX_RANK }

  /** What a Go map yields for a token, present or not. */
  function IdOf(ranks: Ranks, token: string): int { if token in ranks then ranks[token] else 0 }

  // ----- the simple form -----

  function PairRank(ranks: Ranks, ps: seq<string>, i: nat): int
  {
    if i + 1 < |ps| then RankOf(ranks, ps[i] + ps[i + 1]) else MAX_RANK
  }

  /** The strings at `j` and `j + 1` together are a token. */
  predicate Mergeable(ranks: Ranks, ps: seq<string>, j: nat)
  {
    j + 1 < |ps| && ps[j] + ps[j + 1] in ranks && ranks[ps[j] + ps[j + 1]] < MAX_RANK
  }

  /** `i` is the leftmost of the mergeable pairs of lowest rank, or -1 if no pair is mergeable. */
  ghost predicate IsBest(ranks: Ranks, ps: seq<string>, i: int)
  {
    if i == -1 then forall j: nat :: !Mergeable(ranks, ps, j)
    else
      && 0 <= i && Mergeable(ranks, ps, i)
      && forall j: nat :: Mergeable(ranks, ps, j) ==>
           var first, other := ranks[ps[i] + ps[i + 1]], ranks[ps[j] + ps[j + 1]];
           first <= other && (j < i ==> first < other)
  }

  lemma PairRankIs(ranks: Ranks, ps: seq<string>, j: nat)
    ensures PairRank(ranks, ps, j) < MAX_RANK <==> Mergeable(ranks, ps, j)
    ensures Mergeable(ranks, ps, j) ==> PairRank(ranks, ps, j) == ranks[ps[j] + ps[j + 1]]
  {
  }

  function Merge(ps: seq<string>, i: nat): seq<string>
    requires i + 1 < |ps|
  {
    ps[..i] + [ps[i] + ps[i + 1]] + ps[i + 2..]
  }

  /** The best pair among the first `n`, scanned from the left. */
  function BestBelow(ranks: Ranks, ps: seq<string>, n: nat): (i: int)
    requires n <= |ps|
    ensures -1 <= i < n
  {
    if n == 0 then -1
    else
      var i := BestBelow(ranks, ps, n - 1);
      var bound := if i < 0 then MAX_RANK else PairRank(ranks, ps, i);
      if PairRank(ranks, ps, n - 1) < bound then n - 1 else i
  }

  function Best(ranks: Ranks, ps: seq<string>): int { BestBelow(ranks, ps, |ps|) }

  lemma {:induction false} BestBelowIs(ranks: Ranks, ps: seq<string>, n: nat)
    requires n <= |ps|
    ensures var i := BestBelow(ranks, ps, n);
      if i < 0 then forall j :: 0 <= j < n ==> PairRank(ranks, ps, j) >= MAX_RANK
      else PairRank(ranks, ps, i) < MAX_RANK && forall j :: 0 <= j < n ==>
        PairRank(ranks, ps, i) <= PairRank(ranks, ps, j) && (j < i ==> PairRank(ranks, ps, i) < PairRank(ranks, ps, j))
  {
    if n > 0 { BestBelowIs(ranks, ps, n - 1); }
  }

  /** The scan finds the leftmost pair of lowest rank. */
  lemma BestIs(ranks: Ranks, ps: seq<string>)
    ensures IsBest(ranks, ps, Best(ranks, ps))
  {
    BestBelowIs(ranks, ps, |ps|);
    var i := Best(ranks, ps);
    forall j: nat
      ensures PairRank(ranks, ps, j) < MAX_RANK <==> Mergeable(ranks, ps, j)
      ensures Mergeable(ranks, ps, j) ==> j < |ps| && PairRank(ranks, ps, j) == ranks[ps[j] + ps[j + 1]]
    {
      PairRankIs(ranks, ps, j);
    }
    if i >= 0 { PairRankIs(ranks, ps, i); }
  }

  /** Merge until no adjacent pair is a token. */
  function MergeAll(ranks: Ranks, ps: seq<string>): seq<string>
    decreases |ps|
  {
    var i := Best(ranks, ps);
    if i < 0 || i + 1 >= |ps| then ps else MergeAll(ranks, Merge(ps, i))
  }

  function Singles(piece: string): (ps: seq<string>)
    ensures |ps| == |piece| && forall i :: 0 <= i < |ps| ==> ps[i] == [piece[i]]
  {
    seq(|piece|, i requires 0 <= i < |piece| => [piece[i]])
  }

  function Ids(ranks: Ranks, ps: seq<string>): (ids: seq<int>)
    ensures |ids| == |ps| && forall i :: 0 <= i < |ps| ==> ids[i] == IdOf(ranks, ps[i])
  {
    seq(|ps|, i requires 0 <= i < |ps| => IdOf(ranks, ps[i]))
  }

  // ----- merging step by step, without saying how the pair is found -----

  function LastOf(steps: seq<seq<string>>): seq<string> { if steps == [] then [] else steps[|steps| - 1] }

  /** One step merges the leftmost pair of lowest rank. */
  ghost predicate IsStep(ranks: Ranks, ps: seq<string>, next: seq<string>)
  {
    exists i: nat :: i + 1 < |ps| && IsBest(ranks, ps, i) && next == Merge(ps, i)
  }

  /** From `ps` each step merges the best pair, until no pair is a token. */
  ghost predicate IsGreedy(ranks: Ranks, ps: seq<string>, steps: seq<seq<string>>)
  {
    && steps != [] && steps[0] == ps
    && (forall k, l :: 0 <= k < |steps| - 1 && l == k + 1 ==> IsStep(ranks, steps[k], steps[l]))
    && IsBest(ranks, LastOf(steps), -1)
  }

  lemma BestIsOne(ranks: Ranks, ps: seq<string>, i: int, j: int)
    requires IsBest(ranks, ps, i) && IsBest(ranks, ps, j)
    ensures i == j
  {
    if i >= 0 && j >= 0 {
      var a: nat, b: nat := i, j;
      assert Mergeable(ranks, ps, a) && Mergeable(ranks, ps, b);
    }
  }

  lemma GreedyLater(ranks: Ranks, ps: seq<string>, steps: seq<seq<string>>)
    requires IsGreedy(ranks, ps, steps) && |steps| > 1
    ensures IsStep(ranks, ps, steps[1]) && IsGreedy(ranks, steps[1], steps[1..])
  {
    var later := steps[1..];
    forall k, l | 0 <= k < |later| - 1 && l == k + 1 ensures IsStep(ranks, later[k], later[l]) {
      assert IsStep(ranks, steps[k + 1], steps[l + 1]);
    }
  }

  lemma GreedyMore(ranks: Ranks, ps: seq<string>, later: seq<seq<string>>)
    requires later != [] && IsStep(ranks, ps, later[0]) && IsGreedy(ranks, later[0], later)
    ensures IsGreedy(ranks, ps, [ps] + later) && LastOf([ps] + later) == LastOf(later)
  {
    var steps := [ps] + later;
    forall k, l | 0 <= k < |steps| - 1 && l == k + 1 ensures IsStep(ranks, steps[k], steps[l]) {
      if k > 0 { assert IsStep(ranks, later[k - 1], later[l - 1]); }
    }
  }

  /** Every list of parts can be merged greedily to the end, and the result is that of the simple form. */
  lemma {:induction false} GreedyExists(ranks: Ranks, ps: seq<string>) returns (steps: seq<seq<string>>)
    ensures IsGreedy(ranks, ps, steps) && LastOf(steps) == MergeAll(ranks, ps)
    decreases |ps|
  {
    var i := Best(ranks, ps);
    BestIs(ranks, ps);
    if i < 0 {
      steps := [ps];
    } else {
      var later := GreedyExists(ranks, Merge(ps, i));
      assert IsStep(ranks, ps, Merge(ps, i));
      GreedyMore(ranks, ps, later);
      steps := [ps] + later;
    }
  }

  /** There is only one way to do so. */
  lemma {:induction false} GreedyIsUnique(ranks: Ranks, ps: seq<string>, a: seq<seq<string>>, b: seq<seq<string>>)
    requires IsGreedy(ranks, ps, a) && IsGreedy(ranks, ps, b)
    ensures a == b
    decreases |a|
  {
    if |a| == 1 || |b| == 1 {
      OneOrMore(ranks, ps, a);
      OneOrMore(ranks, ps, b);
    } else {
      GreedyLater(ranks, ps, a);
      GreedyLater(ranks, ps, b);
      SameStep(ranks, ps, a[1], b[1]);
      GreedyIsUnique(ranks, a[1], a[1..], b[1..]);
      assert a == [ps] + a[1..] && b == [ps] + b[1..];
    }
  }

  /** Whatever greedy list of steps there is, its last parts are those of the simple form. */
  lemma GreedyIsMergeAll(ranks: Ranks, ps: seq<string>, steps: seq<seq<string>>)
    requires IsGreedy(ranks, ps, steps)
    ensures LastOf(steps) == MergeAll(ranks, ps)
  {
    var one := GreedyExists(ranks, ps);
    GreedyIsUnique(ranks, ps, one, steps);
  }

  lemma OneOrMore(ranks: Ranks, ps: seq<string>, steps: seq<seq<string>>)
    requires IsGreedy(ranks, ps, steps)
    ensures |steps| == 1 ==> steps == [ps]
    ensures |steps| == 1 <==> IsBest(ranks, ps, -1)
  {
    if |steps| > 1 {
      GreedyLater(ranks, ps, steps);
      var i: nat :| i + 1 < |ps| && IsBest(ranks, ps, i) && steps[1] == Merge(ps, i);
      if IsBest(ranks, ps, -1) { BestIsOne(ranks, ps, i, -1); }
    }
  }

  lemma SameStep(ranks: Ranks, ps: seq<string>, x: seq<string>, y: seq<string>)
    requires IsStep(ranks, ps, x) && IsStep(ranks, ps, y)
    ensures x == y
  {
    var i: nat :| i + 1 < |ps| && IsBest(ranks, ps, i) && x == Merge(ps, i);
    var j: nat :| j + 1 < |ps| && IsBest(ranks, ps, j) && y == Merge(ps, j);
    BestIsOne(ranks, ps, i, j);
  }

  // ----- the loop -----

  datatype Part = Part(start: nat, rank: int)

  /** Offsets rise strictly from 0 to the length of the piece. */
  predicate Ordered(piece: string, parts: seq<Part>)
  {
    && |parts| > 0 && parts[0].start == 0 && parts[|parts| - 1].start == |piece|
    && (forall i, j :: 0 <= i < j < |parts| ==> parts[i].start < parts[j].start)
    && (forall i :: 0 <= i < |parts| ==> parts[i].start <= |piece|)
  }

  function StringAt(piece: string, parts: seq<Part>, i: nat): string
    requires Ordered(piece, parts) && i + 1 < |parts|
  {
    piece[parts[i].start..parts[i + 1].start]
  }

  /** `ps` are the strings between neighbouring offsets. */
  predicate Spans(piece: string, parts: seq<Part>, ps: seq<string>)
  {
    Ordered(piece, parts) && |ps| == |parts| - 1
    && forall i :: 0 <= i < |ps| ==> ps[i] == StringAt(piece, parts, i)
  }

  /** Every cached rank is what a fresh lookup would give. */
  predicate Cached(ranks: Ranks, parts: seq<Part>, ps: seq<string>)
  {
    forall i :: 0 <= i < |parts| ==> parts[i].rank == PairRank(ranks, ps, i)
  }

  lemma Adjacent(piece: string, i: nat, j: nat, k: nat)
    requires i <= j <= k <= |piece|
    ensures piece[i..j] + piece[j..k] == piece[i..k]
  {
  }

  /** The pairRank closure. */
  method LookUp(ranks: Ranks, piece: string, parts: seq<Part>, idx: nat, ghost ps: seq<string>) returns (r: int)
    requires Spans(piece, parts, ps)
    ensures r == PairRank(ranks, ps, idx)
  {
    if idx + 2 >= |parts| { return MAX_RANK; }
    Adjacent(piece, parts[idx].start, parts[idx + 1].start, parts[idx + 2].start);
    var key := piece[parts[idx].start..parts[idx + 2].start];
    if key in ranks { return ranks[key]; }
    return MAX_RANK;
  }

  /** Refresh one cached rank. */
  method Refresh(ranks: Ranks, piece: string, parts: seq<Part>, idx: nat, ghost ps: seq<string>)
    returns (r: seq<Part>)
    requires Spans(piece, parts, ps) && idx < |parts|
    ensures Spans(piece, r, ps) && r == parts[idx := parts[idx].(rank := PairRank(ranks, ps, idx))]
  {
    var rank := LookUp(ranks, piece, parts, idx, ps);
    r := parts[idx := parts[idx].(rank := rank)];
  }

  /** One part per byte. */
  function ByteParts(piece: string): (parts: seq<Part>)
    ensures |parts| == |piece| + 1 && forall i :: 0 <= i < |parts| ==> parts[i] == Part(i, MAX_RANK)
  {
    seq(|piece| + 1, i requires 0 <= i <= |piece| => Part(i, MAX_RANK))
  }

  lemma ByteStrings(piece: string)
    ensures Spans(piece, ByteParts(piece), Singles(piece))
  {
    var parts := ByteParts(piece);
    forall i | 0 <= i < |piece| ensures StringAt(piece, parts, i) == [piece[i]] {
      assert piece[i..i + 1] == [piece[i]];
    }
  }

  /** The ranks of the first `n` parts are cached, the others not yet. */
  predicate CachedBelow(ranks: Ranks, parts: seq<Part>, ps: seq<string>, n: nat)
  {
    forall j :: 0 <= j < |parts| ==> parts[j].rank == if j < n then PairRank(ranks, ps, j) else MAX_RANK
  }

  lemma CachedNext(ranks: Ranks, parts: seq<Part>, ps: seq<string>, n: nat)
    requires n < |parts| && CachedBelow(ranks, parts, ps, n)
    ensures CachedBelow(ranks, parts[n := parts[n].(rank := PairRank(ranks, ps, n))], ps, n + 1)
  {
  }

  lemma AllCached(ranks: Ranks, parts: seq<Part>, ps: seq<string>)
    requires |parts| == |ps| + 1 && ps != [] && CachedBelow(ranks, parts, ps, |ps| - 1)
    ensures Cached(ranks, parts, ps)
  {
  }

  /** The initial parts with the initial ranks. */
  method InitialParts(ranks: Ranks, piece: string) returns (parts: seq<Part>)
    requires piece != ""
    ensures Spans(piece, parts, Singles(piece)) && Cached(ranks, parts, Singles(piece))
  {
    parts := ByteParts(piece);
    ghost var ps := Singles(piece);
    ByteStrings(piece);
    for i := 0 to |piece| - 1
      invariant Spans(piece, parts, ps) && CachedBelow(ranks, parts, ps, i)
    {
      CachedNext(ranks, parts, ps, i);
      parts := Refresh(ranks, piece, parts, i, ps);
    }
    AllCached(ranks, parts, ps);
  }

  /** The scan for the lowest cached rank. */
  method FindBest(ranks: Ranks, parts: seq<Part>, ghost ps: seq<string>) returns (minIdx: int)
    requires |parts| == |ps| + 1 && Cached(ranks, parts, ps)
    ensures minIdx == Best(ranks, ps)
  {
    var minRank := MAX_RANK;
    minIdx := -1;
    for i := 0 to |parts| - 1
      invariant minIdx == BestBelow(ranks, ps, i)
      invariant minRank == if minIdx < 0 then MAX_RANK else PairRank(ranks, ps, minIdx)
    {
      if parts[i].rank < minRank { minRank, minIdx := parts[i].rank, i; }
    }
  }

  function Without<T>(s: seq<T>, k: nat): (r: seq<T>)
    requires k < |s|
    ensures |r| == |s| - 1 && forall i :: 0 <= i < |r| ==> r[i] == if i < k then s[i] else s[i + 1]
  {
    s[..k] + s[k + 1..]
  }

  lemma MergeAt(ps: seq<string>, m: nat, j: nat)
    requires m + 1 < |ps| && j < |ps| - 1
    ensures |Merge(ps, m)| == |ps| - 1
    ensures Merge(ps, m)[j] == if j < m then ps[j] else if j == m then ps[m] + ps[m + 1] else ps[j + 1]
  {
  }

  lemma StillOrdered(piece: string, parts: seq<Part>, m: nat)
    requires Ordered(piece, parts) && m + 2 < |parts|
    ensures Ordered(piece, Without(parts, m + 1))
  {
  }

  lemma MergedString(piece: string, parts: seq<Part>, ps: seq<string>, m: nat, j: nat)
    requires Spans(piece, parts, ps) && m + 2 < |parts| && j < |ps| - 1
    requires Ordered(piece, Without(parts, m + 1))
    ensures StringAt(piece, Without(parts, m + 1), j) ==
      if j < m then ps[j] else if j == m then ps[m] + ps[m + 1] else ps[j + 1]
  {
    if j == m { Adjacent(piece, parts[m].start, parts[m + 1].start, parts[m + 2].start); }
  }

  /** Deleting the offset between two parts merges them. */
  lemma DropOffset(piece: string, parts: seq<Part>, ps: seq<string>, m: nat)
    requires Spans(piece, parts, ps) && m + 2 < |parts|
    ensures Spans(piece, Without(parts, m + 1), Merge(ps, m))
  {
    StillOrdered(piece, parts, m);
    forall j | 0 <= j < |ps| - 1 ensures Merge(ps, m)[j] == StringAt(piece, Without(parts, m + 1), j) {
      MergeAt(ps, m, j);
      MergedString(piece, parts, ps, m, j);
    }
    MergeAt(ps, m, m);
  }

  /** Pairs away from a merge keep their rank. */
  lemma MergeRanks(ranks: Ranks, ps: seq<string>, m: nat, j: nat)
    requires m + 1 < |ps| && j != m && j + 1 != m
    ensures PairRank(ranks, Merge(ps, m), j) == PairRank(ranks, ps, if j < m then j else j + 1)
  {
    if j + 1 < |ps| - 1 {
      MergeAt(ps, m, j);
      MergeAt(ps, m, j + 1);
    }
  }

  /** Cached ranks after a merge at `m`, except the two it touches. */
  predicate CachedAway(ranks: Ranks, parts: seq<Part>, ps: seq<string>, m: nat)
  {
    forall j :: 0 <= j < |parts| && j != m && j + 1 != m ==> parts[j].rank == PairRank(ranks, ps, j)
  }

  lemma AwayCached(ranks: Ranks, parts: seq<Part>, ps: seq<string>, m: nat)
    requires |parts| == |ps| + 1 && m + 1 < |ps| && Cached(ranks, parts, ps)
    ensures CachedAway(ranks, Without(parts, m + 1), Merge(ps, m), m)
  {
    var rest := Without(parts, m + 1);
    forall j | 0 <= j < |rest| && j != m && j + 1 != m
      ensures rest[j].rank == PairRank(ranks, Merge(ps, m), j)
    {
      MergeRanks(ranks, ps, m, j);
    }
  }

  /** The two patches after a merge. */
  method PatchRanks(ranks: Ranks, piece: string, parts: seq<Part>, m: nat, ghost ps: seq<string>)
    returns (r: seq<Part>)
    requires Spans(piece, parts, ps) && m < |parts| && CachedAway(ranks, parts, ps, m)
    ensures |r| == |parts| && Spans(piece, r, ps) && Cached(ranks, r, ps)
  {
    r := Refresh(ranks, piece, parts, m, ps);
    if m > 0 { r := Refresh(ranks, piece, r, m - 1, ps); }
  }

  /** One merge: delete an offset, refresh the two ranks it touches. */
  method MergeParts(ranks: Ranks, piece: string, parts: seq<Part>, m: nat, ghost ps: seq<string>)
    returns (rest: seq<Part>)
    requires Spans(piece, parts, ps) && Cached(ranks, parts, ps) && m + 2 < |parts|
    ensures |rest| == |parts| - 1 && Spans(piece, rest, Merge(ps, m)) && Cached(ranks, rest, Merge(ps, m))
  {
    DropOffset(piece, parts, ps, m);
    AwayCached(ranks, parts, ps, m);
    rest := Without(parts, m + 1);
    rest := PatchRanks(ranks, piece, rest, m, Merge(ps, m));
  }

  /** bytePairEncode. */
  method BytePairEncode(ranks: Ranks, piece: string) returns (out: seq<int>)
    ensures out == Ids(ranks, MergeAll(ranks, Singles(piece)))
    ensures exists steps :: IsGreedy(ranks, Singles(piece), steps) && out == Ids(ranks, LastOf(steps))
  {
    var steps := GreedyExists(ranks, Singles(piece));
    if |piece| == 0 { return []; }
    if |piece| == 1 {
      assert Singles(piece)[0] == piece;
      return [IdOf(ranks, piece)];
    }
    var parts := InitialParts(ranks, piece);
    ghost var ps := Singles(piece);
    while true
      invariant Spans(piece, parts, ps) && Cached(ranks, parts, ps)
      invariant MergeAll(ranks, ps) == MergeAll(ranks, Singles(piece))
      decreases |parts|
    {
      var minIdx := FindBest(ranks, parts, ps);
      BestIs(ranks, ps);
      if minIdx < 0 { break; }
      parts := MergeParts(ranks, piece, parts, minIdx, ps);
      ps := Merge(ps, minIdx);
    }
    out := EmitIds(ranks, piece, parts, ps);
  }

  method EmitIds(ranks: Ranks, piece: string, parts: seq<Part>, ghost ps: seq<string>) returns (out: seq<int>)
    requires Spans(piece, parts, ps)
    ensures out == Ids(ranks, ps)
  {
    out := [];
    for i := 0 to |parts| - 1
      invariant out == Ids(ranks, ps)[..i]
    {
      out := out + [IdOf(ranks, piece[parts[i].start..parts[i + 1].start])];
    }
  }

  // ----- what the simple form guarantees -----

  predicate InVocabulary(ranks: Ranks, ps: seq<string>) { forall i :: 0 <= i < |ps| ==> ps[i] in ranks }

  lemma ConcatAround(a: seq<string>, x: string, y: string, b: seq<string>)
    ensures Concat(((a + [x]) + [y]) + b) == Concat((a + [x + y]) + b)
  {
    ConcatAppend((a + [x]) + [y], b);
    ConcatOne(a + [x], y);
    ConcatOne(a, x);
    ConcatAppend(a + [x + y], b);
    ConcatOne(a, x + y);
    Associate(Concat(a), x, y);
  }

  lemma SplitPair<T>(s: seq<T>, i: nat)
    requires i + 1 < |s|
    ensures s == ((s[..i] + [s[i]]) + [s[i + 1]]) + s[i + 2..]
  {
  }

  lemma ConcatMerge(ps: seq<string>, i: nat)
    requires i + 1 < |ps|
    ensures Concat(Merge(ps, i)) == Concat(ps)
  {
    SplitPair(ps, i);
    ConcatAround(ps[..i], ps[i], ps[i + 1], ps[i + 2..]);
  }

  lemma MergeInVocabulary(ranks: Ranks, ps: seq<string>, i: nat)
    requires InVocabulary(ranks, ps) && Mergeable(ranks, ps, i)
    ensures InVocabulary(ranks, Merge(ps, i))
  {
  }

  /** Merging loses no byte, ends with no mergeable pair, and makes only vocabulary tokens. */
  lemma {:induction false} MergeAllResult(ranks: Ranks, ps: seq<string>)
    ensures var r := MergeAll(ranks, ps);
      && Concat(r) == Concat(ps)
      && (forall j: nat :: !Mergeable(ranks, r, j))
      && (InVocabulary(ranks, ps) ==> InVocabulary(ranks, r))
    decreases |ps|
  {
    var i := Best(ranks, ps);
    BestIs(ranks, ps);
    if i >= 0 {
      ConcatMerge(ps, i);
      if InVocabulary(ranks, ps) { MergeInVocabulary(ranks, ps, i); }
      MergeAllResult(ranks, Merge(ps, i));
    }
  }

  lemma {:induction false} ConcatSingles(piece: string)
    ensures Concat(Singles(piece)) == piece
  {
    if piece == "" {
      assert Singles(piece) == [];
    } else {
      var n := |piece| - 1;
      ConcatSingles(piece[..n]);
      assert Singles(piece) == Singles(piece[..n]) + [[piece[n]]];
      ConcatOne(Singles(piece[..n]), [piece[n]]);
    }
  }

  // ----- decoding -----

  /** A table that undoes the vocabulary; it exists just when no two tokens share a rank. */
  ghost predicate Undoes(tokens: map<int, string>, ranks: Ranks)
  {
    forall t :: t in ranks ==> ranks[t] in tokens && tokens[ranks[t]] == t
  }

  predicate HasBytes(ranks: Ranks, piece: string) { forall i :: 0 <= i < |piece| ==> [piece[i]] in ranks }

  function Decode(tokens: map<int, string>, ids: seq<int>): string
  {
    if ids == [] then ""
    else
      var last := ids[|ids| - 1];
      Decode(tokens, ids[..|ids| - 1]) + if last in tokens then tokens[last] else ""
  }

  lemma {:induction false} DecodeIds(tokens: map<int, string>, ranks: Ranks, ps: seq<string>)
    requires Undoes(tokens, ranks) && InVocabulary(ranks, ps)
    ensures Decode(tokens, Ids(ranks, ps)) == Concat(ps)
  {
    if ps == [] {
      assert Ids(ranks, ps) == [];
    } else {
      var n := |ps| - 1;
      DecodeIds(tokens, ranks, ps[..n]);
      assert Ids(ranks, ps)[..n] == Ids(ranks, ps[..n]);
    }
  }

  lemma {:induction false} DecodeAppend(tokens: map<int, string>, a: seq<int>, b: seq<int>)
    ensures Decode(tokens, a + b) == Decode(tokens, a) + Decode(tokens, b)
  {
    if b == [] {
      assert a + b == a;
    } else {
      var n := |b| - 1;
      assert (a + b)[..|a| + n] == a + b[..n] && (a + b)[|a| + n] == b[n];
      DecodeAppend(tokens, a, b[..n]);
      Associate(Decode(tokens, a), Decode(tokens, b[..n]), if b[n] in tokens then tokens[b[n]] else "");
    }
  }

  /** Decoding what the encoder gives for a piece returns the piece, when every byte is a token and no
      two tokens share a rank. */
  lemma PieceRoundTrip(tokens: map<int, string>, ranks: Ranks, piece: string)
    requires Undoes(tokens, ranks) && HasBytes(ranks, piece)
    ensures Decode(tokens, Ids(ranks, MergeAll(ranks, Singles(piece)))) == piece
  {
    MergeAllResult(ranks, Singles(piece));
    ConcatSingles(piece);
    DecodeIds(tokens, ranks, MergeAll(ranks, Singles(piece)));
  }
}
