/** The upstream parser as a function of its state and input: it cuts JSON objects out of a noisy byte
    stream. The main result: how the stream is cut into chunks does not matter. */
module EventParser {
  import opened Options
  import opened Text
  import opened Json
  import opened Braces
  import opened ToolCalls
  import Utf8

  datatype Kind =
    | Content | ToolStart | ToolInput | ToolStop | Followup | Usage | ContextUsage | Metadata
    | ReasoningText | ReasoningSignature | ReasoningRedacted

  datatype Pattern = Pattern(prefix: string, kind: Kind)

  /** The prefix of an object whose first key is `key`. */
  function FirstKey(key: string): string { "{\"" + key + "\":" }

  const EVENT_PATTERNS: seq<Pattern> := [
    Pattern(FirstKey("content"), Content),
    Pattern(FirstKey("name"), ToolStart),
    Pattern(FirstKey("input"), ToolInput),
    Pattern(FirstKey("stop"), ToolStop),
    Pattern(FirstKey("followupPrompt"), Followup),
    Pattern(FirstKey("usage"), Usage),
    Pattern(FirstKey("contextUsagePercentage"), ContextUsage),
    Pattern(FirstKey("stopDetails"), Metadata),
    Pattern(FirstKey("stopReason"), Metadata),
    Pattern(FirstKey("text"), ReasoningText),
    Pattern(FirstKey("signature"), ReasoningSignature),
    Pattern(FirstKey("redactedContent"), ReasoningRedacted)]

  /** An event handed to the pipeline. A Metadata event is a refusal. */
  datatype Event = Event(kind: Kind, raw: string, value: Fields)

  datatype ToolAcc = ToolAcc(id: Json, name: Json, arguments: string)

  /** Everything but the byte buffer. */
  datatype Core = Core(
    lastContent: Json, current: Option<ToolAcc>, calls: seq<ToolCall>, truncation: Option<string>, drawn: nat)

  const EMPTY := Core(Null, None, [], None, 0)

  // ----- what one object does -----

  /** finalizeToolCall. */
  function Finalize(o: Codec, s: Core): Core
  {
    match s.current
    case None => s
    case Some(acc) =>
      var parsed := if o.blank(acc.arguments) then Some("{}") else o.reformat(acc.arguments);
      var args := if parsed.Some? then parsed.value else "{}";
      var cut := if parsed.Some? then None else o.diagnose(acc.arguments);
      s.(current := None, calls := s.calls + [ToolCall(acc.id, acc.name, args, cut)],
         truncation := if cut.Some? then cut else s.truncation)
  }

  function ProcessContent(o: Codec, s: Core, value: Fields, raw: string): (Core, seq<Event>)
  {
    var content := Field(value, "content");
    if Truthy(o, Field(value, "followupPrompt")) then (s, [])
    else if o.same(content, s.lastContent) then (s, [])
    else (s.(lastContent := content), [Event(Content, raw, value)])
  }

  function ProcessToolStart(o: Codec, s: Core, value: Fields, raw: string): Core
  {
    var done := Finalize(o, s);
    var id := if "toolUseId" in value then value["toolUseId"] else Str(o.callId(done.drawn));
    var name := if "name" in value then value["name"] else Str("");
    var started := done.(current := Some(ToolAcc(id, name, o.argText(raw))), drawn := done.drawn + 1);
    if Truthy(o, Field(value, "stop")) then Finalize(o, started) else started
  }

  function ProcessToolInput(o: Codec, s: Core, raw: string): Core
  {
    match s.current
    case None => s
    case Some(acc) => s.(current := Some(acc.(arguments := acc.arguments + o.argText(raw))))
  }

  function ProcessToolStop(o: Codec, s: Core, value: Fields): Core
  {
    if s.current.Some? && Truthy(o, Field(value, "stop")) then Finalize(o, s) else s
  }

  /** One object cut from the stream: decode it and act on its kind. */
  function Process(o: Codec, s: Core, kind: Kind, raw: string): (Core, seq<Event>)
  {
    match o.decode(raw)
    case None => (s, [])
    case Some(value) =>
      match kind
      case Content => ProcessContent(o, s, value, raw)
      case ToolStart => (ProcessToolStart(o, s, value, raw), [])
      case ToolInput => (ProcessToolInput(o, s, raw), [])
      case ToolStop => (ProcessToolStop(o, s, value), [])
      case Followup => (s, [])
      case Metadata =>
        (s, if Field(value, "stopReason") == Str("CONTENT_FILTERED") then [Event(Metadata, raw, value)] else [])
      case _ => (s, [Event(kind, raw, value)])
  }

  // ----- finding the next object -----

  /** The position and table index of the earliest pattern; ties go to the first in the table. */
  function Earliest(buf: string, pats: seq<Pattern>): (r: (int, int))
    ensures r.0 == -1 || (0 <= r.0 && 0 <= r.1 < |pats|)
  {
    if pats == [] then (-1, -1)
    else
      var n := |pats| - 1;
      var r := Earliest(buf, pats[..n]);
      var at := Index(buf, pats[n].prefix);
      if at != -1 && (r.0 == -1 || at < r.0) then (at, n) else r
  }

  predicate NoneOccurs(buf: string, pats: seq<Pattern>)
  {
    forall i :: 0 <= i < |pats| ==> Index(buf, pats[i].prefix) == -1
  }

  /** Pattern `i` occurs nowhere before `pos`, and at `pos` only if it comes behind `k` in the table. */
  predicate NotBefore(buf: string, p: string, i: int, pos: int, k: int)
  {
    var at := Index(buf, p);
    at == -1 || pos < at || (pos == at && k <= i)
  }

  predicate IsEarliest(buf: string, pats: seq<Pattern>, pos: int, k: int)
  {
    && 0 <= k < |pats| && 0 <= pos && Index(buf, pats[k].prefix) == pos
    && forall i :: 0 <= i < |pats| ==> NotBefore(buf, pats[i].prefix, i, pos, k)
  }

  /** What was found among the first patterns, or the next one if it is earlier. */
  lemma EarliestNext(buf: string, pats: seq<Pattern>, n: nat, pos: int, k: int)
    requires n < |pats|
    requires if pos == -1 then NoneOccurs(buf, pats[..n]) else IsEarliest(buf, pats[..n], pos, k)
    ensures var at := Index(buf, pats[n].prefix);
      var (pos', k') := if at != -1 && (pos == -1 || at < pos) then (at, n) else (pos, k);
      if pos' == -1 then NoneOccurs(buf, pats[..n + 1]) else IsEarliest(buf, pats[..n + 1], pos', k')
  {
    var at := Index(buf, pats[n].prefix);
    var (pos', k') := if at != -1 && (pos == -1 || at < pos) then (at, n) else (pos, k);
    forall i | 0 <= i < n ensures pats[..n + 1][i] == pats[..n][i] == pats[i] {
    }
    if pos' != -1 {
      forall i | 0 <= i <= n ensures NotBefore(buf, pats[i].prefix, i, pos', k') {
        if i < n && pos == -1 { assert Index(buf, pats[..n][i].prefix) == -1; }
        if i < n && pos != -1 { assert NotBefore(buf, pats[..n][i].prefix, i, pos, k); }
      }
    }
  }

  lemma {:induction false} EarliestIs(buf: string, pats: seq<Pattern>)
    ensures var (pos, k) := Earliest(buf, pats);
      if pos == -1 then NoneOccurs(buf, pats) else IsEarliest(buf, pats, pos, k)
    decreases |pats|
  {
    if pats != [] {
      var n := |pats| - 1;
      EarliestIs(buf, pats[..n]);
      EarliestNext(buf, pats, n, Earliest(buf, pats[..n]).0, Earliest(buf, pats[..n]).1);
      assert pats[..n + 1] == pats;
    }
  }

  /** Where a pattern occurs the earliest one is found, there or before. */
  lemma OccursFound(buf: string, pats: seq<Pattern>, i: nat, j: nat)
    requires i < |pats| && Occurs(buf, pats[i].prefix, j)
    ensures var (pos, k) := Earliest(buf, pats);
      && 0 <= pos <= j && 0 <= k < |pats| && Occurs(buf, pats[k].prefix, pos)
      && (pos == j ==> k <= i)
  {
    EarliestIs(buf, pats);
    var (pos, k) := Earliest(buf, pats);
    assert 0 <= Index(buf, pats[i].prefix) <= j;
    if pos != -1 { assert NotBefore(buf, pats[i].prefix, i, pos, k); }
  }

  lemma FoundOccurs(buf: string, pats: seq<Pattern>)
    requires Earliest(buf, pats).0 >= 0
    ensures var (pos, k) := Earliest(buf, pats); Occurs(buf, pats[k].prefix, pos)
  {
    EarliestIs(buf, pats);
  }

  /** What the argument about chunk borders needs of the table. */
  predicate GoodPatterns(pats: seq<Pattern>)
  {
    && (forall i :: 0 <= i < |pats| ==> pats[i].prefix != "" && pats[i].prefix[0] == '{')
    && (forall i, k :: 0 <= i < |pats| && 0 < k < |pats[i].prefix| ==> pats[i].prefix[k] != '{')
    && (forall i, j :: 0 <= i < |pats| && 0 <= j < |pats| && i != j ==> !(pats[i].prefix <= pats[j].prefix))
  }

  /** An object cut from the stream: the kind its prefix announces and its bytes. */
  datatype Cut = Cut(kind: Kind, raw: string)

  /** The object from a pattern's place to its end, if it was found and is complete. */
  function CutOut(pats: seq<Pattern>, buf: string, pos: int, k: int, end: int): (r: Option<(Cut, nat)>)
    requires pos == -1 || (0 <= pos && 0 <= k < |pats|)
    requires end == -1 || 0 <= pos < end < |buf|
    ensures r.Some? ==> 0 < r.value.1 <= |buf|
  {
    if pos == -1 || end == -1 then None else Some((Cut(pats[k].kind, buf[pos..end + 1]), end + 1))
  }

  /** The next complete object in the buffer and the offset behind it. */
  function Next(pats: seq<Pattern>, buf: string): (r: Option<(Cut, nat)>)
    ensures r.Some? ==> 0 < r.value.1 <= |buf|
  {
    var (pos, k) := Earliest(buf, pats);
    CutOut(pats, buf, pos, k, MatchingBrace(buf, pos))
  }

  /** Cut objects while a complete one is in the buffer: what stays in the buffer, and the objects. */
  function CutAll(pats: seq<Pattern>, buf: string): (string, seq<Cut>)
    decreases |buf|
  {
    var next := Next(pats, buf);
    if next.None? then (buf, [])
    else
      var (left, later) := CutAll(pats, buf[next.value.1..]);
      (left, [next.value.0] + later)
  }

  /** The effect of a list of objects: the new state and the events. */
  function ProcessAll(o: Codec, s: Core, cuts: seq<Cut>): (Core, seq<Event>)
  {
    if cuts == [] then (s, [])
    else
      var n := |cuts| - 1;
      var (s1, evs) := ProcessAll(o, s, cuts[..n]);
      var (s2, last) := Process(o, s1, cuts[n].kind, cuts[n].raw);
      (s2, evs + last)
  }

  /** The loop of Feed: what stays in the buffer, the new state and the events. */
  function Drain(o: Codec, pats: seq<Pattern>, buf: string, s: Core): (string, Core, seq<Event>)
  {
    var (left, cuts) := CutAll(pats, buf);
    var (s', evs) := ProcessAll(o, s, cuts);
    (left, s', evs)
  }

  /** Feed: clean the chunk on its own, append it, drain. */
  function Feed(o: Codec, pats: seq<Pattern>, buf: string, s: Core, chunk: string): (string, Core, seq<Event>)
  {
    Drain(o, pats, buf + Utf8.Clean(chunk), s)
  }

  /** Feeding a list of chunks to a fresh parser. */
  function Run(o: Codec, pats: seq<Pattern>, chunks: seq<string>): (string, Core, seq<Event>)
  {
    if chunks == [] then ("", EMPTY, [])
    else
      var (buf, s, evs) := Run(o, pats, chunks[..|chunks| - 1]);
      var (buf', s', evs') := Feed(o, pats, buf, s, chunks[|chunks| - 1]);
      (buf', s', evs + evs')
  }

  // ----- chunk borders do not matter -----

  /** Later bytes move neither the earliest pattern nor its kind: no pattern reaches across a brace,
      and no two patterns start alike. */
  lemma EarliestStable(buf: string, pats: seq<Pattern>, more: string)
    requires GoodPatterns(pats) && Earliest(buf, pats).0 >= 0
    ensures Earliest(buf + more, pats) == Earliest(buf, pats)
  {
    var (pos, k) := Earliest(buf, pats);
    var (pos', k') := Earliest(buf + more, pats);
    FoundOccurs(buf, pats);
    OccursAppend(buf, pats[k].prefix, more, pos);
    OccursFound(buf + more, pats, k, pos);
    OccursAppend(buf, pats[k'].prefix, more, pos');
    if pos' < pos {
      if pos' + |pats[k'].prefix| <= |buf| {
        OccursFound(buf, pats, k', pos');
      } else {
        NoBraceInside(buf + more, pats[k'].prefix, pos', pos);
      }
    } else if k' != k {
      OneOfTwo(buf + more, pos, pats[k].prefix, pats[k'].prefix);
    }
  }

  /** A pattern that reaches beyond a brace after its own first byte does not match. */
  lemma NoBraceInside(s: string, p: string, at: nat, brace: nat)
    requires Occurs(s, p, at) && at < brace < at + |p| && s[brace] == '{'
    ensures p[brace - at] == '{'
  {
  }

  lemma OneOfTwo(s: string, at: nat, p: string, q: string)
    requires Occurs(s, p, at) && Occurs(s, q, at)
    ensures p <= q || q <= p
  {
    if |p| <= |q| {
      assert q[..|p|] == s[at..at + |q|][..|p|] == s[at..at + |p|];
    } else {
      assert p[..|q|] == s[at..at + |p|][..|q|] == s[at..at + |q|];
    }
  }

  lemma CutOutStable(pats: seq<Pattern>, buf: string, more: string, pos: nat, k: nat, end: nat)
    requires k < |pats| && pos < end < |buf|
    ensures CutOut(pats, buf + more, pos, k, end) == CutOut(pats, buf, pos, k, end)
  {
    SliceAppend(buf, more, pos, end + 1);
  }

  lemma NextStable(pats: seq<Pattern>, buf: string, more: string)
    requires GoodPatterns(pats) && Next(pats, buf).Some?
    ensures Next(pats, buf + more) == Next(pats, buf)
  {
    var (pos, k) := Earliest(buf, pats);
    EarliestStable(buf, pats, more);
    MatchingBraceStable(buf, pos, more);
    CutOutStable(pats, buf, more, pos, k, MatchingBrace(buf, pos));
  }

  /** Cutting a longer buffer is cutting the first part, then what it left together with the rest. */
  lemma {:induction false} CutSplit(pats: seq<Pattern>, buf: string, more: string)
    requires GoodPatterns(pats)
    ensures
      var (left, cuts) := CutAll(pats, buf);
      var (left', cuts') := CutAll(pats, left + more);
      CutAll(pats, buf + more) == (left', cuts + cuts')
    decreases |buf|
  {
    var next := Next(pats, buf);
    var cuts' := CutAll(pats, CutAll(pats, buf).0 + more).1;
    if next.None? {
      Associate(cuts', [], []);
    } else {
      var rest := buf[next.value.1..];
      NextStable(pats, buf, more);
      DropAppend(buf, more, next.value.1);
      CutSplit(pats, rest, more);
      Associate([next.value.0], CutAll(pats, rest).1, cuts');
    }
  }

  lemma {:induction false} ProcessAllAppend(o: Codec, s: Core, a: seq<Cut>, b: seq<Cut>)
    ensures
      var (s1, evs1) := ProcessAll(o, s, a);
      var (s2, evs2) := ProcessAll(o, s1, b);
      ProcessAll(o, s, a + b) == (s2, evs1 + evs2)
  {
    var (s1, evs1) := ProcessAll(o, s, a);
    Associate(evs1, [], []);
    if b == [] {
      assert a + b == a;
    } else {
      var n := |b| - 1;
      assert (a + b)[..|a| + n] == a + b[..n] && (a + b)[|a| + n] == b[n];
      ProcessAllAppend(o, s, a, b[..n]);
      var (s2, evs2) := ProcessAll(o, s1, b[..n]);
      Associate(evs1, evs2, Process(o, s2, b[n].kind, b[n].raw).1);
    }
  }

  lemma DrainSplit(o: Codec, pats: seq<Pattern>, buf: string, s: Core, more: string)
    requires GoodPatterns(pats)
    ensures
      var (left, s1, evs1) := Drain(o, pats, buf, s);
      var (left2, s2, evs2) := Drain(o, pats, left + more, s1);
      Drain(o, pats, buf + more, s) == (left2, s2, evs1 + evs2)
  {
    CutSplit(pats, buf, more);
    var (left, cuts) := CutAll(pats, buf);
    ProcessAllAppend(o, s, cuts, CutAll(pats, left + more).1);
  }

  /** Two Feed calls equal one whenever no character straddles the border: the same events and the same
      final buffer, last content, pending and finished tool calls. */
  lemma FeedSplit(o: Codec, pats: seq<Pattern>, buf: string, s: Core, a: string, b: string)
    requires GoodPatterns(pats) && !Utf8.Straddles(a, b)
    ensures
      var (buf1, s1, evs1) := Feed(o, pats, buf, s, a);
      var (buf2, s2, evs2) := Feed(o, pats, buf1, s1, b);
      Feed(o, pats, buf, s, a + b) == (buf2, s2, evs1 + evs2)
  {
    Utf8.CleanSplitIff(a, b);
    Associate(buf, Utf8.Clean(a), Utf8.Clean(b));
    DrainSplit(o, pats, buf + Utf8.Clean(a), s, Utf8.Clean(b));
  }

  /** A stream parses as the concatenation of its cleaned chunks. */
  lemma {:induction false} RunIsDrain(o: Codec, pats: seq<Pattern>, chunks: seq<string>)
    requires GoodPatterns(pats)
    ensures Run(o, pats, chunks) == Drain(o, pats, Utf8.CleanEach(chunks), EMPTY)
  {
    if chunks == [] {
      DrainEmpty(o, pats, EMPTY);
    } else {
      var before, x := chunks[..|chunks| - 1], chunks[|chunks| - 1];
      RunIsDrain(o, pats, before);
      DrainSplit(o, pats, Utf8.CleanEach(before), EMPTY, Utf8.Clean(x));
    }
  }

  /** A whole stream parses as in one piece, however it is cut, if no border cuts a character. */
  lemma ChunkingIrrelevant(o: Codec, pats: seq<Pattern>, chunks: seq<string>)
    requires GoodPatterns(pats) && Utf8.Whole(chunks)
    ensures Run(o, pats, chunks) == Drain(o, pats, Utf8.Clean(Concat(chunks)), EMPTY)
    ensures Run(o, pats, chunks) == Run(o, pats, [Concat(chunks)])
  {
    Utf8.CleanEachIff(chunks);
    RunIsDrain(o, pats, chunks);
    RunIsDrain(o, pats, [Concat(chunks)]);
    Utf8.CleanOne(Concat(chunks));
  }

  lemma DrainEmpty(o: Codec, pats: seq<Pattern>, s: Core)
    ensures Drain(o, pats, "", s) == ("", s, [])
  {
  }

  lemma KeyNoBrace(key: string)
    requires '{' !in key
    ensures forall k :: 0 < k < |FirstKey(key)| ==> FirstKey(key)[k] != '{'
  {
  }

  lemma PatternsNoBrace()
    ensures forall i, k :: 0 <= i < |EVENT_PATTERNS| && 0 < k < |EVENT_PATTERNS[i].prefix| ==>
      EVENT_PATTERNS[i].prefix[k] != '{'
  {
    KeyNoBrace("content");
    KeyNoBrace("name");
    KeyNoBrace("input");
    KeyNoBrace("stop");
    KeyNoBrace("followupPrompt");
    KeyNoBrace("usage");
    KeyNoBrace("contextUsagePercentage");
    KeyNoBrace("stopDetails");
    KeyNoBrace("stopReason");
    KeyNoBrace("text");
    KeyNoBrace("signature");
    KeyNoBrace("redactedContent");
  }

  lemma KeyByte(key: string, k: nat)
    requires k < |key|
    ensures FirstKey(key)[k + 2] == key[k]
  {
  }

  /** The byte that tells the patterns apart: their third, or a later one where thirds agree. */
  lemma ThirdBytes()
    ensures var t := EVENT_PATTERNS;
      && t[0].prefix[2] == 'c' && t[1].prefix[2] == 'n' && t[2].prefix[2] == 'i' && t[3].prefix[2] == 's'
      && t[4].prefix[2] == 'f' && t[5].prefix[2] == 'u' && t[6].prefix[2] == 'c' && t[7].prefix[2] == 's'
      && t[8].prefix[2] == 's' && t[9].prefix[2] == 't' && t[10].prefix[2] == 's' && t[11].prefix[2] == 'r'
  {
    KeyByte("content", 0);
    KeyByte("name", 0);
    KeyByte("input", 0);
    KeyByte("stop", 0);
    KeyByte("followupPrompt", 0);
    KeyByte("usage", 0);
    KeyByte("contextUsagePercentage", 0);
    KeyByte("stopDetails", 0);
    KeyByte("stopReason", 0);
    KeyByte("text", 0);
    KeyByte("signature", 0);
    KeyByte("redactedContent", 0);
  }

  lemma LaterBytes()
    ensures var t := EVENT_PATTERNS;
      && t[0].prefix[7] == 'n' && t[6].prefix[7] == 'x'
      && t[3].prefix[6] == '"' && t[7].prefix[6] == 'D' && t[8].prefix[6] == 'R' && t[10].prefix[6] == 'a'
  {
    KeyByte("content", 5);
    KeyByte("contextUsagePercentage", 5);
    KeyByte("stopDetails", 4);
    KeyByte("stopReason", 4);
    KeyByte("signature", 4);
  }

  lemma DifferAt(p: string, q: string, k: nat)
    requires k < |p| && k < |q| && p[k] != q[k]
    ensures !(p <= q)
  {
  }

  /** The entries for content objects and for tool starts. */
  lemma TableEntries()
    ensures EVENT_PATTERNS[0] == Pattern(FirstKey("content"), Content)
    ensures EVENT_PATTERNS[1] == Pattern(FirstKey("name"), ToolStart)
  {
  }

  /** Bytes that tell twelve prefixes apart. */
  predicate Tells(t: seq<Pattern>)
  {
    && |t| == 12 && (forall i :: 0 <= i < 12 ==> |t[i].prefix| > 7)
    && t[0].prefix[2] == 'c' && t[1].prefix[2] == 'n' && t[2].prefix[2] == 'i' && t[3].prefix[2] == 's'
    && t[4].prefix[2] == 'f' && t[5].prefix[2] == 'u' && t[6].prefix[2] == 'c' && t[7].prefix[2] == 's'
    && t[8].prefix[2] == 's' && t[9].prefix[2] == 't' && t[10].prefix[2] == 's' && t[11].prefix[2] == 'r'
    && t[0].prefix[7] == 'n' && t[6].prefix[7] == 'x'
    && t[3].prefix[6] == '"' && t[7].prefix[6] == 'D' && t[8].prefix[6] == 'R' && t[10].prefix[6] == 'a'
  }

  lemma PairDiffers(t: seq<Pattern>, i: nat, j: nat)
    requires Tells(t) && i < 12 && j < 12 && i != j
    ensures !(t[i].prefix <= t[j].prefix)
  {
    var k := if t[i].prefix[2] != t[j].prefix[2] then 2 else if i == 0 || i == 6 then 7 else 6;
    DifferAt(t[i].prefix, t[j].prefix, k);
  }

  lemma PatternsDiffer()
    ensures forall i, j :: 0 <= i < |EVENT_PATTERNS| && 0 <= j < |EVENT_PATTERNS| && i != j ==>
      !(EVENT_PATTERNS[i].prefix <= EVENT_PATTERNS[j].prefix)
  {
    var t := EVENT_PATTERNS;
    ThirdBytes();
    LaterBytes();
    assert Tells(t);
    forall i, j | 0 <= i < 12 && 0 <= j < 12 && i != j ensures !(t[i].prefix <= t[j].prefix) {
      PairDiffers(t, i, j);
    }
  }

  /** The table of the source meets the conditions. */
  lemma EventPatternsGood()
    ensures GoodPatterns(EVENT_PATTERNS)
  {
    PatternsNoBrace();
    PatternsDiffer();
  }

  // ----- objects in noise -----

  /** Noise holds no opening brace. */
  predicate BraceFree(s: string) { forall i :: 0 <= i < |s| ==> s[i] != '{' }

  /** A printed object that starts with a known pattern. */
  predicate Known(pats: seq<Pattern>, v: Json, ascii: bool, k: nat)
  {
    v.Obj? && ValidJson(v) && k < |pats| && pats[k].prefix <= Print(v, ascii)
  }

  /** One piece of a stream: noise, then an object. */
  datatype Piece = Piece(noise: string, value: Json, pattern: nat)

  predicate GoodPiece(pats: seq<Pattern>, p: Piece, ascii: bool)
  {
    BraceFree(p.noise) && Known(pats, p.value, ascii, p.pattern)
  }

  function Stream(pieces: seq<Piece>, ascii: bool, tail: string): string
  {
    if pieces == [] then tail
    else pieces[0].noise + (Print(pieces[0].value, ascii) + Stream(pieces[1..], ascii, tail))
  }

  function Objects(pats: seq<Pattern>, pieces: seq<Piece>, ascii: bool): seq<Cut>
    requires forall i :: 0 <= i < |pieces| ==> GoodPiece(pats, pieces[i], ascii)
  {
    if pieces == [] then []
    else
      assert GoodPiece(pats, pieces[0], ascii);
      [Cut(pats[pieces[0].pattern].kind, Print(pieces[0].value, ascii))] + Objects(pats, pieces[1..], ascii)
  }

  lemma NoiseBytes(noise: string, rest: string)
    requires BraceFree(noise)
    ensures forall i :: 0 <= i < |noise| ==> (noise + rest)[i] != '{'
  {
  }

  /** No pattern begins inside brace-free noise. */
  lemma NotInNoise(noise: string, rest: string, p: string, pos: nat)
    requires BraceFree(noise) && Occurs(noise + rest, p, pos) && p != "" && p[0] == '{'
    ensures pos >= |noise|
  {
    NoiseBytes(noise, rest);
    OccursHead(noise + rest, p, pos);
  }

  lemma EarliestBehindNoise(pats: seq<Pattern>, noise: string, rest: string, k: nat)
    requires GoodPatterns(pats) && BraceFree(noise) && k < |pats| && Occurs(noise + rest, pats[k].prefix, |noise|)
    ensures Earliest(noise + rest, pats) == (|noise|, k)
  {
    var buf := noise + rest;
    OccursFound(buf, pats, k, |noise|);
    var (pos, k') := Earliest(buf, pats);
    NotInNoise(noise, rest, pats[k'].prefix, pos);
    if k' != k { OneOfTwo(buf, |noise|, pats[k].prefix, pats[k'].prefix); }
  }

  /** The text behind brace-free noise is the next one cut, from its first byte to its matching brace. */
  lemma NextBehindNoise(pats: seq<Pattern>, noise: string, p: string, k: nat, rest: string)
    requires GoodPatterns(pats) && BraceFree(noise) && k < |pats| && pats[k].prefix <= p
    requires MatchingBrace(noise + (p + rest), |noise|) == |noise| + |p| - 1
    ensures Next(pats, noise + (p + rest)) == Some((Cut(pats[k].kind, p), |noise| + |p|))
  {
    PrefixOccurs(noise, p, rest, pats[k].prefix);
    EarliestBehindNoise(pats, noise, p + rest, k);
    CutBehind(pats, noise, p, k, rest);
  }

  lemma CutBehind(pats: seq<Pattern>, noise: string, p: string, k: nat, rest: string)
    requires k < |pats| && |p| > 1
    ensures CutOut(pats, noise + (p + rest), |noise|, k, |noise| + |p| - 1) ==
      Some((Cut(pats[k].kind, p), |noise| + |p|))
  {
    assert (noise + (p + rest))[|noise|..|noise| + |p|] == p;
  }

  lemma PrefixOccurs(noise: string, p: string, rest: string, prefix: string)
    requires prefix <= p
    ensures Occurs(noise + (p + rest), prefix, |noise|)
    ensures (noise + (p + rest))[|noise|..|noise| + |p|] == p
  {
    var buf, at := noise + (p + rest), |noise|;
    assert buf[at..at + |p|] == p;
    assert buf[at..at + |prefix|] == p[..|prefix|];
  }

  lemma OccursHead(s: string, p: string, at: nat)
    requires Occurs(s, p, at) && p != ""
    ensures s[at] == p[0]
  {
  }

  lemma NextPrinted(pats: seq<Pattern>, noise: string, v: Json, ascii: bool, p: string, k: nat, rest: string)
    requires GoodPatterns(pats) && BraceFree(noise) && Known(pats, v, ascii, k) && p == Print(v, ascii)
    ensures Next(pats, noise + (p + rest)) == Some((Cut(pats[k].kind, p), |noise| + |p|))
  {
    Behind(noise, p, rest);
    PrintedObjectEnd(noise + (p + rest), |noise|, v, ascii);
    NextBehindNoise(pats, noise, p, k, rest);
  }

  lemma NextIsObject(pats: seq<Pattern>, piece: Piece, ascii: bool, rest: string)
    requires GoodPatterns(pats) && GoodPiece(pats, piece, ascii)
    ensures var p := Print(piece.value, ascii);
      Next(pats, piece.noise + (p + rest)) == Some((Cut(pats[piece.pattern].kind, p), |piece.noise| + |p|))
  {
    var Piece(noise, v, k) := piece;
    NextPrinted(pats, noise, v, ascii, Print(v, ascii), k, rest);
  }

  lemma Behind(noise: string, p: string, rest: string)
    ensures Occurs(noise + (p + rest), p, |noise|)
    ensures (noise + (p + rest))[|noise| + |p|..] == rest
  {
    assert (noise + (p + rest))[|noise|..|noise| + |p|] == p;
  }

  /** The first piece of a stream is cut, and the rest as it would be alone. */
  lemma PieceIsCut(pats: seq<Pattern>, piece: Piece, ascii: bool, rest: string)
    requires GoodPatterns(pats) && GoodPiece(pats, piece, ascii)
    ensures var p := Print(piece.value, ascii);
      CutAll(pats, piece.noise + (p + rest)) ==
      (CutAll(pats, rest).0, [Cut(pats[piece.pattern].kind, p)] + CutAll(pats, rest).1)
  {
    NextIsObject(pats, piece, ascii, rest);
    CutFirst(pats, piece.noise, Print(piece.value, ascii), rest, pats[piece.pattern].kind);
  }

  /** Noise around printed objects with known first keys: exactly those objects are cut, in order, each
      with the kind its first key announces, and only the noise behind the last one stays. */
  lemma {:induction false} CutsExactlyTheObjects(pats: seq<Pattern>, pieces: seq<Piece>, ascii: bool, tail: string)
    requires GoodPatterns(pats) && BraceFree(tail)
    requires forall i :: 0 <= i < |pieces| ==> GoodPiece(pats, pieces[i], ascii)
    ensures CutAll(pats, Stream(pieces, ascii, tail)) == (tail, Objects(pats, pieces, ascii))
  {
    if pieces == [] {
      NoNext(pats, tail);
    } else {
      PieceIsCut(pats, pieces[0], ascii, Stream(pieces[1..], ascii, tail));
      CutsExactlyTheObjects(pats, pieces[1..], ascii, tail);
    }
  }

  lemma CutFirst(pats: seq<Pattern>, noise: string, p: string, rest: string, kind: Kind)
    requires Next(pats, noise + (p + rest)) == Some((Cut(kind, p), |noise| + |p|))
    ensures CutAll(pats, noise + (p + rest)) == (CutAll(pats, rest).0, [Cut(kind, p)] + CutAll(pats, rest).1)
  {
    Behind(noise, p, rest);
  }

  lemma NoNext(pats: seq<Pattern>, tail: string)
    requires GoodPatterns(pats) && BraceFree(tail)
    ensures Next(pats, tail).None?
  {
    var (pos, k) := Earliest(tail, pats);
    if pos >= 0 {
      FoundOccurs(tail, pats);
      OccursHead(tail, pats[k].prefix, pos);
    }
  }
}
