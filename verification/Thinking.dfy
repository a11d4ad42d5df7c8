/** The thinking-block state machine as a pure step function, its one-shot specification, and the
    proof that every way of cutting a text into chunks meets that specification. */
module Thinking {
  import opened Text

  /** How thinking text is rendered; any other configured value behaves like AsReasoningContent. */
  datatype Handling = AsReasoningContent | Remove | Pass | StripTags | Unrecognised

  datatype Phase = PreContent | InThinking | Streaming

  datatype Config = Config(handling: Handling, initialBufferSize: int, openTags: seq<string>)

  datatype State = State(
    phase: Phase, initial: string, buffer: string, openTag: string, closeTag: string, first: bool)

  const INITIAL := State(PreContent, "", "", "", "", true)

  const DEFAULT_TAGS: seq<string> := ["<thinking>", "<think>", "<reasoning>", "<thought>"]

  /** `tag[1:]` needs a first byte. */
  predicate UsableTags(tags: seq<string>) { forall i :: 0 <= i < |tags| ==> tags[i] != "" }

  /** The first tag that is a prefix of `s`, or -1. */
  function FindTag(tags: seq<string>, s: string): (i: int)
    ensures -1 <= i < |tags|
    ensures i >= 0 ==> tags[i] <= s
    ensures forall j :: 0 <= j < |tags| && (i < 0 || j < i) ==> !(tags[j] <= s)
  {
    if tags == [] then -1
    else
      var i := FindTag(tags[..|tags| - 1], s);
      if i >= 0 then i else if tags[|tags| - 1] <= s then |tags| - 1 else -1
  }

  predicate StartsSolid(s: string) { s != "" && !IsBlank(s[0]) }

  /** Tag `i` is found in its own text, but not in that of tag `j`, which begins with it. */
  predicate Hides(tags: seq<string>, i: nat, j: nat)
    requires i < |tags| && j < |tags|
  {
    && StartsSolid(tags[i]) && tags[i] <= tags[j]
    && FindTag(tags, tags[i]) == i && FindTag(tags, tags[j]) != i
  }

  predicate Unambiguous(tags: seq<string>)
  {
    forall i, j :: 0 <= i < |tags| && 0 <= j < |tags| ==> !Hides(tags, i, j)
  }

  /** A tag list with which detection does not depend on how much of the text has arrived. */
  predicate ValidTags(tags: seq<string>) { UsableTags(tags) && Unambiguous(tags) }

  predicate PrefixFree(tags: seq<string>)
  {
    forall i, j :: 0 <= i < |tags| && 0 <= j < |tags| && i != j ==> !(tags[i] <= tags[j])
  }

  lemma PrefixFreeIsValid(tags: seq<string>)
    requires UsableTags(tags) && PrefixFree(tags)
    ensures ValidTags(tags)
  {
  }

  lemma DefaultTagsValid()
    ensures ValidTags(DEFAULT_TAGS)
  {
    assert DEFAULT_TAGS[0][6] == 'i' && DEFAULT_TAGS[1][6] == '>' && DEFAULT_TAGS[3][5] == 'g';
    assert DEFAULT_TAGS[2][1] == 'r' && DEFAULT_TAGS[3][3] == 'o';
    assert PrefixFree(DEFAULT_TAGS);
    PrefixFreeIsValid(DEFAULT_TAGS);
  }

  function CloseOf(tag: string): string
    requires tag != ""
  {
    "</" + tag[1..]
  }

  function MaxLength(tags: seq<string>): (n: nat)
    ensures forall i :: 0 <= i < |tags| ==> |tags[i]| <= n
  {
    if tags == [] then 0
    else
      var m := MaxLength(tags[..|tags| - 1]);
      var l := |tags[|tags| - 1]|;
      if l > m then l else m
  }

  /** The number of bytes held back while looking for the closing tag. */
  function HoldBack(tags: seq<string>): nat { 2 * MaxLength(tags) }

  /** More input could still complete some tag. */
  predicate Growing(tags: seq<string>, s: string)
  {
    exists i :: 0 <= i < |tags| && s <= tags[i] && |s| < |tags[i]|
  }

  predicate CouldBeTagPrefix(tags: seq<string>, s: string)
  {
    s == "" || exists i :: 0 <= i < |tags| && s <= tags[i]
  }

  /** processThinkingOutput. */
  function Output(h: Handling, open: string, close: string, x: string, first: bool, last: bool): string
  {
    if x == "" then ""
    else
      match h
      case Remove => ""
      case Pass => (if first then open else "") + x + (if last then close else "")
      case _ => x
  }

  /** processThinkingBuffer. */
  function ProcessBuffer(cfg: Config, s: State): (State, string, string)
  {
    if s.closeTag == "" then (s, "", "")
    else
      var at := Index(s.buffer, s.closeTag);
      if at >= 0 then
        var thinking := Output(cfg.handling, s.openTag, s.closeTag, s.buffer[..at], s.first, true);
        (s.(phase := Streaming, buffer := "", first := false), thinking,
         TrimLeft(s.buffer[at + |s.closeTag|..]))
      else if |s.buffer| > HoldBack(cfg.openTags) then
        var cut := |s.buffer| - HoldBack(cfg.openTags);
        var thinking := Output(cfg.handling, s.openTag, s.closeTag, s.buffer[..cut], s.first, false);
        (s.(buffer := s.buffer[cut..], first := false), thinking, "")
      else (s, "", "")
  }

  /** handlePreContent. */
  function PreContentStep(cfg: Config, s: State, text: string): (State, string, string)
    requires UsableTags(cfg.openTags)
  {
    var all := s.initial + text;
    var stripped := TrimLeft(all);
    var i := FindTag(cfg.openTags, stripped);
    if i >= 0 then
      var tag := cfg.openTags[i];
      ProcessBuffer(cfg, s.(phase := InThinking, openTag := tag, closeTag := CloseOf(tag),
                            buffer := s.buffer + stripped[|tag|..], initial := ""))
    else if Growing(cfg.openTags, stripped) then (s.(initial := all), "", "")
    else if |all| > cfg.initialBufferSize || !CouldBeTagPrefix(cfg.openTags, stripped) then
      (s.(phase := Streaming, initial := ""), "", all)
    else (s.(initial := all), "", "")
  }

  /** Feed: the new state, the thinking text and the content text. */
  function Feed(cfg: Config, s: State, text: string): (State, string, string)
    requires UsableTags(cfg.openTags)
  {
    if text == "" then (s, "", "")
    else
      match s.phase
      case PreContent => PreContentStep(cfg, s, text)
      case InThinking => ProcessBuffer(cfg, s.(buffer := s.buffer + text))
      case Streaming => (s, "", text)
  }

  /** Finish: the flushed thinking and content. */
  function Finish(cfg: Config, s: State): (string, string)
  {
    match s.phase
    case PreContent => ("", s.initial)
    case InThinking => (Output(cfg.handling, s.openTag, s.closeTag, s.buffer, s.first, true), "")
    case Streaming => ("", "")
  }

  /** Feeding a list of chunks: final state and everything emitted. */
  function Run(cfg: Config, chunks: seq<string>): (State, string, string)
    requires UsableTags(cfg.openTags)
  {
    if chunks == [] then (INITIAL, "", "")
    else
      var (s, t, c) := Run(cfg, chunks[..|chunks| - 1]);
      var (s', t', c') := Feed(cfg, s, chunks[|chunks| - 1]);
      (s', t + t', c + c')
  }

  /** All thinking and all content of a stream: every Feed, then Finish. */
  function Emitted(cfg: Config, chunks: seq<string>): (string, string)
    requires UsableTags(cfg.openTags)
  {
    var (s, t, c) := Run(cfg, chunks);
    var (t', c') := Finish(cfg, s);
    (t + t', c + c')
  }

  // ----- one-shot specification on the whole text -----

  /** How a whole text reads: no leading tag, a block still open, or a block and what follows it. */
  datatype Reading = Plain | Open(tag: string, body: string) | Closed(tag: string, thought: string, rest: string)

  /** Everything after the opening tag, split at the first closing tag. */
  function ReadBody(tag: string, body: string): Reading
    requires tag != ""
  {
    var close := CloseOf(tag);
    var at := Index(body, close);
    if at < 0 then Open(tag, body) else Closed(tag, body[..at], body[at + |close|..])
  }

  function Read(cfg: Config, text: string): (r: Reading)
    requires UsableTags(cfg.openTags)
    ensures !r.Plain? ==> r.tag != ""
    ensures r.Closed? ==> |r.rest| < |text|
  {
    var i := FindTag(cfg.openTags, TrimLeft(text));
    if i < 0 then Plain else ReadBody(cfg.openTags[i], TrimLeft(text)[|cfg.openTags[i]|..])
  }

  /** A whole thinking text in the configured mode: `Pass` puts exactly one pair of tags around it. */
  function Render(h: Handling, tag: string, x: string): string
    requires tag != ""
  {
    if x == "" || h == Remove then "" else if h == Pass then tag + x + CloseOf(tag) else x
  }

  function ThinkingSpec(cfg: Config, text: string): string
    requires UsableTags(cfg.openTags)
  {
    match Read(cfg, text)
    case Plain => ""
    case Open(tag, body) => Render(cfg.handling, tag, body)
    case Closed(tag, thought, _) => Render(cfg.handling, tag, thought)
  }

  /** The total length of the shortest run of chunks that holds at least `e` bytes. */
  function Boundary(chunks: seq<string>, e: nat): (b: nat)
    requires e <= |Concat(chunks)|
    ensures e <= b <= |Concat(chunks)|
  {
    if chunks == [] then 0
    else if |Concat(chunks[..|chunks| - 1])| >= e then Boundary(chunks[..|chunks| - 1], e)
    else |Concat(chunks)|
  }

  /** How many of the last `after` bytes of the text arrive in the chunk that completes the rest. */
  function SameChunk(chunks: seq<string>, after: nat): (k: nat)
    requires after <= |Concat(chunks)|
    ensures k <= after
  {
    var e := |Concat(chunks)| - after;
    Boundary(chunks, e) - e
  }

  function Min(a: nat, b: nat): nat { if a < b then a else b }

  /** `rest` without those of its leading blanks that are among its first `k` bytes. */
  function TrimUpTo(rest: string, k: nat): string
  {
    rest[Min(k, LeadingBlanks(rest))..]
  }

  /** What is left of `rest` when its leading blanks go only as far as they share a chunk. */
  function TrimmedRest(chunks: seq<string>, rest: string): string
    requires |rest| <= |Concat(chunks)|
  {
    TrimUpTo(rest, SameChunk(chunks, |rest|))
  }

  /** Blanks after the closing tag are dropped only as far as they share its chunk. */
  function ContentSpec(cfg: Config, chunks: seq<string>): string
    requires UsableTags(cfg.openTags)
  {
    match Read(cfg, Concat(chunks))
    case Plain => Concat(chunks)
    case Open(_, _) => ""
    case Closed(_, _, rest) => TrimmedRest(chunks, rest)
  }

  // ----- the invariant that links the two -----

  /** No tag matches now, and none can after more input. */
  predicate NeverTag(tags: seq<string>, s: string)
  {
    forall i :: 0 <= i < |tags| ==> !(tags[i] <= s) && !(s <= tags[i])
  }

  predicate Inv(cfg: Config, chunks: seq<string>, s: State, t: string, c: string)
    requires UsableTags(cfg.openTags)
  {
    InvOn(cfg, Read(cfg, Concat(chunks)), chunks, s, t, c)
  }

  /** The invariant for a text that reads as `r`. */
  predicate InvOn(cfg: Config, r: Reading, chunks: seq<string>, s: State, t: string, c: string)
  {
    match r
    case Plain =>
      if s.phase == PreContent then s == INITIAL.(initial := Concat(chunks)) && t == "" && c == ""
      else s.phase == Streaming && t == "" && c == Concat(chunks)
           && NeverTag(cfg.openTags, TrimLeft(Concat(chunks)))
    case Open(tag, body) =>
      && tag != "" && s.phase == InThinking && c == ""
      && s.openTag == tag && s.closeTag == CloseOf(tag)
      && |s.buffer| <= |body| && SentInv(cfg, body[..|body| - |s.buffer|], body, s, t)
      && (!s.first ==> |s.buffer| == HoldBack(cfg.openTags))
    case Closed(tag, thought, rest) =>
      && tag != "" && |rest| <= |Concat(chunks)| && s.phase == Streaming
      && t == Render(cfg.handling, tag, thought) && c == TrimmedRest(chunks, rest)
  }

  /** Inside the block: the body is what has been sent and rendered, then the buffer. */
  predicate SentInv(cfg: Config, sent: string, body: string, s: State, t: string)
  {
    && body == sent + s.buffer
    && (s.first <==> sent == "")
    && t == Output(cfg.handling, s.openTag, s.closeTag, sent, true, false)
  }

  // ----- stability of the specification under more input -----

  /** Once a tag is found, more input only extends the body. */
  lemma ReadAppend(cfg: Config, text: string, x: string)
    requires ValidTags(cfg.openTags)
    ensures match Read(cfg, text)
      case Plain => true
      case Open(tag, body) => Read(cfg, text + x) == ReadBody(tag, body + x)
      case Closed(tag, thought, rest) => Read(cfg, text + x) == Closed(tag, thought, rest + x)
  {
    var w, tags := TrimLeft(text), cfg.openTags;
    var i := FindTag(tags, w);
    if i >= 0 {
      TrimLeftAppend(text, x);
      TagFoundStable(tags, w, x);
      DropAppend(w, x, |tags[i]|);
      if Read(cfg, text).Closed? { ReadBodyAppend(tags[i], w[|tags[i]|..], x); }
    }
  }

  lemma ReadBodyAppend(tag: string, body: string, x: string)
    requires tag != "" && ReadBody(tag, body).Closed?
    ensures ReadBody(tag, body + x) == Closed(tag, ReadBody(tag, body).thought, ReadBody(tag, body).rest + x)
  {
    var close := CloseOf(tag);
    var at := Index(body, close);
    IndexStable(body, close, x);
    TakeAppend(body, x, at);
    DropAppend(body, x, at + |close|);
  }

  /** The first tag found does not change with more input exactly when the tags are unambiguous. */
  lemma DetectionIff(tags: seq<string>)
    requires UsableTags(tags)
    ensures Unambiguous(tags) <==>
      forall w, x :: StartsSolid(w) && FindTag(tags, w) >= 0 ==> FindTag(tags, w + x) == FindTag(tags, w)
  {
    if Unambiguous(tags) {
      forall w, x | StartsSolid(w) && FindTag(tags, w) >= 0 ensures FindTag(tags, w + x) == FindTag(tags, w) {
        TagFoundStable(tags, w, x);
      }
    } else {
      var i, j :| 0 <= i < |tags| && 0 <= j < |tags| && Hides(tags, i, j);
      assert tags[j] == tags[i] + tags[j][|tags[i]|..];
    }
  }

  lemma TagFoundStable(tags: seq<string>, w: string, x: string)
    requires ValidTags(tags) && FindTag(tags, w) >= 0 && StartsSolid(w)
    ensures FindTag(tags, w + x) == FindTag(tags, w)
  {
    var i, j := FindTag(tags, w), FindTag(tags, w + x);
    PrefixAppend(tags[i], w, x);
    assert 0 <= j <= i;
    PrefixAppend(tags[j], w, x);
    FoundInItself(tags, w);
    FindsAtMost(tags, j);
    if j < i {
      PrefixesOrdered(tags[i], tags[j], w + x);
      assert Hides(tags, i, j);
    }
  }

  lemma FindsAtMost(tags: seq<string>, j: nat)
    requires j < |tags|
    ensures 0 <= FindTag(tags, tags[j]) <= j
  {
    assert tags[j] <= tags[j];
  }

  lemma FoundInItself(tags: seq<string>, w: string)
    requires UsableTags(tags) && FindTag(tags, w) >= 0 && StartsSolid(w)
    ensures var i := FindTag(tags, w); FindTag(tags, tags[i]) == i && StartsSolid(tags[i])
  {
    var i := FindTag(tags, w);
    assert tags[i][0] == w[0];
    var k := FindTag(tags, tags[i]);
    assert 0 <= k <= i && tags[k] <= w;
  }

  lemma NeverTagStable(tags: seq<string>, text: string, x: string)
    requires ValidTags(tags) && NeverTag(tags, TrimLeft(text))
    ensures NeverTag(tags, TrimLeft(text + x)) && FindTag(tags, TrimLeft(text + x)) < 0
  {
    var w := TrimLeft(text);
    if tags != [] {
      assert w != "" by { assert "" <= tags[0]; }
      TrimLeftAppend(text, x);
      forall i | 0 <= i < |tags| ensures !(tags[i] <= w + x) && !(w + x <= tags[i]) {
        PrefixAppend(tags[i], w, x);
      }
    }
  }

  /** A text whose block opens only with the last chunk has all of the body in that chunk. */
  lemma OpensNow(cfg: Config, text: string, x: string)
    requires UsableTags(cfg.openTags) && Read(cfg, text).Plain?
    ensures var i := FindTag(cfg.openTags, TrimLeft(text + x));
      i >= 0 ==> |TrimLeft(text + x)| - |cfg.openTags[i]| < |x|
  {
    var i, w := FindTag(cfg.openTags, TrimLeft(text + x)), TrimLeft(text);
    if i >= 0 && |TrimLeft(text + x)| - |cfg.openTags[i]| >= |x| {
      LeadingBlanksAppend(text, x);
      assert LeadingBlanks(text) < |text|;
      TrimLeftAppend(text, x);
      PrefixAppend(cfg.openTags[i], w, x);
    }
  }

  /** Sending all but the hold-back never sends part of a closing tag: the first match in the whole
      body is the first match in what is buffered, and it leaves some thinking text before it. */
  lemma HoldBackSafe(sent: string, held: string, x: string, close: string)
    requires close != "" && |close| <= |held|
    requires Index(sent + held, close) < 0
    ensures Index(held + x, close) != 0
    ensures Index(sent + (held + x), close)
      == var r := Index(held + x, close); if r < 0 then -1 else |sent| + r
  {
    var body := sent + held;
    assert body + x == sent + (held + x);
    forall j | 0 <= j <= |sent| ensures !Occurs(body + x, close, j) {
      OccursAppend(body, close, x, j);
    }
    IndexSkip(body + x, close, |sent|);
    assert (body + x)[|sent|..] == held + x;
    OccursDrop(body + x, close, |sent|, 0);
  }

  // ----- one step keeps the invariant -----

  lemma CloseFits(tags: seq<string>, tag: string)
    requires ValidTags(tags) && tag in tags
    ensures |CloseOf(tag)| <= HoldBack(tags)
  {
  }

  /** A rest that begins inside the last chunk is trimmed as a whole. */
  lemma TrimmedInLastChunk(chunks: seq<string>, x: string, rest: string)
    requires |rest| < |x|
    ensures Concat(chunks + [x]) == Concat(chunks) + x
    ensures TrimmedRest(chunks + [x], rest) == TrimLeft(rest)
  {
    ConcatOne(chunks, x);
    assert (chunks + [x])[..|chunks|] == chunks;
  }

  /** A rest that began in an earlier chunk just grows. */
  lemma TrimmedGrows(chunks: seq<string>, x: string, rest: string)
    requires |rest| <= |Concat(chunks)|
    ensures |Concat(chunks + [x])| == |Concat(chunks)| + |x|
    ensures TrimmedRest(chunks + [x], rest + x) == TrimmedRest(chunks, rest) + x
  {
    SameChunkGrows(chunks, x, |rest|);
    TrimGrows(rest, x, SameChunk(chunks, |rest|));
    calc {
      TrimmedRest(chunks + [x], rest + x);
      TrimUpTo(rest + x, SameChunk(chunks + [x], |rest + x|));
      TrimUpTo(rest + x, SameChunk(chunks, |rest|));
      TrimmedRest(chunks, rest) + x;
    }
  }

  lemma TrimGrows(rest: string, x: string, k: nat)
    requires k <= |rest|
    ensures TrimUpTo(rest + x, k) == TrimUpTo(rest, k) + x
  {
    LeadingBlanksAppend(rest, x);
    DropAppend(rest, x, Min(k, LeadingBlanks(rest)));
  }

  lemma SameChunkGrows(chunks: seq<string>, x: string, after: nat)
    requires after <= |Concat(chunks)|
    ensures |Concat(chunks + [x])| == |Concat(chunks)| + |x|
    ensures SameChunk(chunks + [x], after + |x|) == SameChunk(chunks, after)
  {
    assert (chunks + [x])[..|chunks|] == chunks;
  }

  lemma JoinPieces(a: string, b: string, c: string, d: string)
    ensures (a + b + "") + ("" + c + d) == a + (b + c) + d
    ensures "" + c == c && b + "" == b
  {
  }

  /** Rendering piece by piece: a further piece. */
  lemma OutputMore(h: Handling, tag: string, sent: string, next: string)
    requires tag != ""
    ensures Output(h, tag, CloseOf(tag), sent, true, false) + Output(h, tag, CloseOf(tag), next, sent == "", false)
      == Output(h, tag, CloseOf(tag), sent + next, true, false)
  {
    JoinPieces(tag, sent, next, "");
    JoinPieces(tag, tag + sent + "", tag + next + "", "");
  }

  /** Rendering piece by piece: the last piece. */
  lemma OutputLast(h: Handling, tag: string, sent: string, next: string)
    requires tag != "" && (next != "" || sent == "")
    ensures Output(h, tag, CloseOf(tag), sent, true, false) + Output(h, tag, CloseOf(tag), next, sent == "", true)
      == Render(h, tag, sent + next)
  {
    var close := CloseOf(tag);
    JoinPieces(tag, sent, next, close);
    JoinPieces(tag, sent, tag + next + close, close);
  }

  /** The buffer is ready to be processed: the closing tag is neither in the part already sent nor
      across its edge. */
  predicate Ready(cfg: Config, sent: string, tag: string, s: State, t: string)
  {
    && tag != "" && s.phase == InThinking && s.openTag == tag && s.closeTag == CloseOf(tag)
    && SentInv(cfg, sent, sent + s.buffer, s, t)
    && (Index(sent + s.buffer, s.closeTag) == var i := Index(s.buffer, s.closeTag);
        if i < 0 then -1 else |sent| + i)
    && (!s.first ==> Index(s.buffer, s.closeTag) != 0 && |s.buffer| >= HoldBack(cfg.openTags))
  }

  lemma BufferCloses(cfg: Config, sent: string, tag: string, s: State, t: string)
    requires Ready(cfg, sent, tag, s, t)
    requires Index(s.buffer, s.closeTag) >= 0
    ensures var (s', t', c') := ProcessBuffer(cfg, s); var r := ReadBody(tag, sent + s.buffer);
      && s'.phase == Streaming && r.Closed? && t + t' == Render(cfg.handling, tag, r.thought)
      && c' == TrimLeft(r.rest)
  {
    var at := Index(s.buffer, s.closeTag);
    ClosedBody(tag, sent, s.buffer);
    OutputLast(cfg.handling, tag, sent, s.buffer[..at]);
  }

  lemma ClosedBody(tag: string, sent: string, buffer: string)
    requires tag != "" && Index(buffer, CloseOf(tag)) >= 0
    requires Index(sent + buffer, CloseOf(tag)) == |sent| + Index(buffer, CloseOf(tag))
    ensures var at := Index(buffer, CloseOf(tag));
      ReadBody(tag, sent + buffer) == Closed(tag, sent + buffer[..at], buffer[at + |CloseOf(tag)|..])
  {
    var at := Index(buffer, CloseOf(tag));
    CutAppend(sent, buffer, at);
    CutAppend(sent, buffer, at + |CloseOf(tag)|);
  }

  lemma BufferHolds(cfg: Config, sent: string, tag: string, s: State, t: string)
    requires Ready(cfg, sent, tag, s, t)
    requires Index(s.buffer, s.closeTag) < 0
    ensures var (s', t', c') := ProcessBuffer(cfg, s); var body := sent + s.buffer;
      && ReadBody(tag, body) == Open(tag, body) && c' == ""
      && InvOn(cfg, Open(tag, body), [body], s', t + t', c')
  {
    var n, body := |sent|, sent + s.buffer;
    if |s.buffer| > HoldBack(cfg.openTags) {
      var cut := |s.buffer| - HoldBack(cfg.openTags);
      AppendCut(sent, s.buffer, cut);
      CutAppend(sent, s.buffer, cut);
      OutputMore(cfg.handling, tag, sent, s.buffer[..cut]);
    } else {
      assert t + "" == t;
      CutAppend(sent, s.buffer, 0);
    }
  }

  lemma BufferStep(cfg: Config, chunks: seq<string>, x: string, sent: string, tag: string, s: State, t: string)
    requires Ready(cfg, sent, tag, s, t)
    requires var r := ReadBody(tag, sent + s.buffer); r.Closed? ==> |r.rest| < |x|
    ensures var (s', t', c') := ProcessBuffer(cfg, s);
      InvOn(cfg, ReadBody(tag, sent + s.buffer), chunks + [x], s', t + t', c')
  {
    ConcatOne(chunks, x);
    if Index(s.buffer, s.closeTag) >= 0 {
      BufferCloses(cfg, sent, tag, s, t);
      TrimmedInLastChunk(chunks, x, ReadBody(tag, sent + s.buffer).rest);
    } else {
      BufferHolds(cfg, sent, tag, s, t);
    }
  }

  lemma StreamingStep(cfg: Config, chunks: seq<string>, x: string, s: State, t: string, c: string)
    requires ValidTags(cfg.openTags) && s.phase == Streaming && Inv(cfg, chunks, s, t, c)
    ensures Inv(cfg, chunks + [x], s, t, c + x)
  {
    var p := Concat(chunks);
    ReadAppend(cfg, p, x);
    match Read(cfg, p)
    case Plain =>
      NeverTagStable(cfg.openTags, p, x);
      ConcatOne(chunks, x);
    case Closed(_, _, rest) =>
      ConcatOne(chunks, x);
      TrimmedGrows(chunks, x, rest);
  }

  lemma ThinkingStep(cfg: Config, chunks: seq<string>, x: string, s: State, t: string, tag: string, body: string)
    requires ValidTags(cfg.openTags) && tag in cfg.openTags && InvOn(cfg, Open(tag, body), chunks, s, t, "")
    requires Index(body, CloseOf(tag)) < 0
    ensures var (s', t', c') := ProcessBuffer(cfg, s.(buffer := s.buffer + x));
      InvOn(cfg, ReadBody(tag, body + x), chunks + [x], s', t + t', c')
  {
    var s1, sent := s.(buffer := s.buffer + x), body[..|body| - |s.buffer|];
    CloseFits(cfg.openTags, tag);
    assert body + x == sent + s1.buffer;
    if s.first {
      assert sent + s1.buffer == s1.buffer;
    } else {
      HoldBackSafe(sent, s.buffer, x, s.closeTag);
    }
    ClosesNow(body, x, s.closeTag);
    BufferStep(cfg, chunks, x, sent, tag, s1, t);
  }

  /** A closing tag completed by the last chunk leaves less than that chunk behind it. */
  lemma ClosesNow(body: string, x: string, close: string)
    requires Index(body, close) < 0
    ensures Index(body + x, close) >= 0 ==> |body + x| - (Index(body + x, close) + |close|) < |x|
  {
    var at := Index(body + x, close);
    if at >= 0 { OccursAppend(body, close, x, at); }
  }

  /** Before content everything fed is in the initial buffer. */
  lemma PreContentState(cfg: Config, chunks: seq<string>, s: State, t: string, c: string)
    requires UsableTags(cfg.openTags) && s.phase == PreContent && Inv(cfg, chunks, s, t, c)
    ensures Read(cfg, Concat(chunks)).Plain? && s == INITIAL.(initial := Concat(chunks)) && t == "" && c == ""
  {
  }

  lemma ShorterOrSame(w: string, p: string)
    ensures w <= p ==> |w| < |p| || p <= w
  {
  }

  /** A text that starts no tag and is no beginning of one will never start one. */
  lemma GivesUp(tags: seq<string>, w: string)
    requires FindTag(tags, w) < 0 && !Growing(tags, w)
    ensures NeverTag(tags, w)
  {
    forall i | 0 <= i < |tags| ensures !(tags[i] <= w) && !(w <= tags[i]) {
      ShorterOrSame(w, tags[i]);
    }
  }

  lemma PreContentPlain(cfg: Config, chunks: seq<string>, x: string)
    requires UsableTags(cfg.openTags)
    requires var p := Concat(chunks); Read(cfg, p).Plain? && FindTag(cfg.openTags, TrimLeft(p + x)) < 0
    ensures var (s', t', c') := PreContentStep(cfg, INITIAL.(initial := Concat(chunks)), x);
      InvOn(cfg, Plain, chunks + [x], s', t', c')
  {
    var all := Concat(chunks) + x;
    ConcatOne(chunks, x);
    if !Growing(cfg.openTags, TrimLeft(all)) { GivesUp(cfg.openTags, TrimLeft(all)); }
  }

  lemma PreContentOpens(cfg: Config, chunks: seq<string>, x: string)
    requires UsableTags(cfg.openTags)
    requires var p := Concat(chunks); Read(cfg, p).Plain? && FindTag(cfg.openTags, TrimLeft(p + x)) >= 0
    ensures var (s', t', c') := PreContentStep(cfg, INITIAL.(initial := Concat(chunks)), x);
      InvOn(cfg, Read(cfg, Concat(chunks) + x), chunks + [x], s', t', c')
  {
    var p := Concat(chunks);
    var stripped := TrimLeft(p + x);
    var tag := cfg.openTags[FindTag(cfg.openTags, stripped)];
    var body := stripped[|tag|..];
    OpensNow(cfg, p, x);
    Associate(body, "", "");
    BufferStep(cfg, chunks, x, "", tag, State(InThinking, "", body, tag, CloseOf(tag), true), "");
    Associate(ProcessBuffer(cfg, State(InThinking, "", body, tag, CloseOf(tag), true)).1, "", "");
  }

  lemma PreContentStepInv(cfg: Config, chunks: seq<string>, x: string, s: State, t: string, c: string)
    requires UsableTags(cfg.openTags) && s.phase == PreContent && Inv(cfg, chunks, s, t, c)
    ensures var (s', t', c') := PreContentStep(cfg, s, x);
      Inv(cfg, chunks + [x], s', t + t', c + c')
  {
    var (_, t', c') := PreContentStep(cfg, s, x);
    PreContentState(cfg, chunks, s, t, c);
    ConcatOne(chunks, x);
    Associate(t', "", "");
    Associate(c', "", "");
    if FindTag(cfg.openTags, TrimLeft(Concat(chunks) + x)) >= 0 {
      PreContentOpens(cfg, chunks, x);
    } else {
      PreContentPlain(cfg, chunks, x);
    }
  }

  lemma ThinkingStepInv(cfg: Config, chunks: seq<string>, x: string, s: State, t: string, c: string)
    requires ValidTags(cfg.openTags) && s.phase == InThinking && Inv(cfg, chunks, s, t, c)
    ensures var (s', t', c') := ProcessBuffer(cfg, s.(buffer := s.buffer + x));
      Inv(cfg, chunks + [x], s', t + t', c + c')
  {
    var p := Concat(chunks);
    ConcatOne(chunks, x);
    ReadAppend(cfg, p, x);
    OpenTag(cfg, p);
    ThinkingStep(cfg, chunks, x, s, t, Read(cfg, p).tag, Read(cfg, p).body);
  }

  lemma FeedKeepsInv(cfg: Config, chunks: seq<string>, x: string, s: State, t: string, c: string)
    requires ValidTags(cfg.openTags) && Inv(cfg, chunks, s, t, c)
    ensures var (s', t', c') := Feed(cfg, s, x);
      Inv(cfg, chunks + [x], s', t + t', c + c')
  {
    if x == "" {
      EmptyChunk(cfg, chunks, s, t, c);
    } else {
      match s.phase
      case PreContent => PreContentStepInv(cfg, chunks, x, s, t, c);
      case InThinking => ThinkingStepInv(cfg, chunks, x, s, t, c);
      case Streaming => StreamingStep(cfg, chunks, x, s, t, c);
    }
  }

  lemma OpenTag(cfg: Config, text: string)
    requires ValidTags(cfg.openTags)
    ensures var r := Read(cfg, text);
      r.Open? ==> r.tag in cfg.openTags && Index(r.body, CloseOf(r.tag)) < 0
  {
  }

  lemma EmptyChunk(cfg: Config, chunks: seq<string>, s: State, t: string, c: string)
    requires ValidTags(cfg.openTags) && Inv(cfg, chunks, s, t, c)
    ensures Inv(cfg, chunks + [""], s, t + "", c + "")
  {
    var p := Concat(chunks);
    ConcatOne(chunks, "");
    assert p + "" == p && t + "" == t && c + "" == c;
    if Read(cfg, p).Closed? {
      var rest := Read(cfg, p).rest;
      TrimmedGrows(chunks, "", rest);
      assert rest + "" == rest;
    }
  }

  lemma {:induction false} RunKeepsInv(cfg: Config, chunks: seq<string>)
    requires ValidTags(cfg.openTags)
    ensures var (s, t, c) := Run(cfg, chunks); Inv(cfg, chunks, s, t, c)
  {
    if chunks == [] {
      EmptyStart(cfg);
    } else {
      var n := |chunks| - 1;
      var before, x := chunks[..n], chunks[n];
      assert chunks == before + [x];
      RunKeepsInv(cfg, before);
      var (s, t, c) := Run(cfg, before);
      FeedKeepsInv(cfg, before, x, s, t, c);
    }
  }

  lemma EmptyStart(cfg: Config)
    requires ValidTags(cfg.openTags)
    ensures Inv(cfg, [], INITIAL, "", "")
  {
    EmptyReads(cfg);
  }

  lemma EmptyReads(cfg: Config)
    requires UsableTags(cfg.openTags)
    ensures Read(cfg, "") == Plain
  {
    assert TrimLeft("") == "";
    assert forall j :: 0 <= j < |cfg.openTags| ==> |cfg.openTags[j]| > 0;
  }

  // ----- main results -----

  /** Every chunking of every text: the emitted thinking is the one-shot rendering of the text up to
      the first closing tag, and the emitted content is the one-shot content. */
  lemma EmittedMeetsSpec(cfg: Config, chunks: seq<string>)
    requires ValidTags(cfg.openTags)
    ensures Emitted(cfg, chunks) == (ThinkingSpec(cfg, Concat(chunks)), ContentSpec(cfg, chunks))
  {
    RunKeepsInv(cfg, chunks);
    var (s, t, c) := Run(cfg, chunks);
    var r := Read(cfg, Concat(chunks));
    if r.Open? {
      FinishOpen(cfg, chunks, r, s, t, c);
    } else {
      FinishOther(cfg, chunks, r, s, t, c);
    }
  }

  lemma FinishOpen(cfg: Config, chunks: seq<string>, r: Reading, s: State, t: string, c: string)
    requires r.Open? && r.tag != "" && InvOn(cfg, r, chunks, s, t, c)
    requires |CloseOf(r.tag)| <= HoldBack(cfg.openTags)
    ensures Finish(cfg, s).1 == c == "" && t + Finish(cfg, s).0 == Render(cfg.handling, r.tag, r.body)
  {
    OutputLast(cfg.handling, r.tag, r.body[..|r.body| - |s.buffer|], s.buffer);
  }

  lemma FinishOther(cfg: Config, chunks: seq<string>, r: Reading, s: State, t: string, c: string)
    requires !r.Open? && InvOn(cfg, r, chunks, s, t, c)
    ensures t + Finish(cfg, s).0 == t
    ensures c + Finish(cfg, s).1 == if r.Plain? then Concat(chunks) else c
  {
  }

  /** Chunking changes the content only through blanks after the closing tag: the content is the
      trimmed rest exactly when the chunk that completes the tag also holds all those blanks. */
  lemma ContentTrimmedIff(cfg: Config, chunks: seq<string>)
    requires ValidTags(cfg.openTags) && Read(cfg, Concat(chunks)).Closed?
    ensures var rest := Read(cfg, Concat(chunks)).rest;
      Emitted(cfg, chunks).1 == TrimLeft(rest) <==> SameChunk(chunks, |rest|) >= LeadingBlanks(rest)
  {
    EmittedMeetsSpec(cfg, chunks);
    var rest := Read(cfg, Concat(chunks)).rest;
    var m := Min(SameChunk(chunks, |rest|), LeadingBlanks(rest));
    if m < LeadingBlanks(rest) {
      assert |rest[m..]| > |TrimLeft(rest)|;
    }
  }

  lemma ClosedContent(cfg: Config, chunks: seq<string>)
    requires ValidTags(cfg.openTags) && Read(cfg, Concat(chunks)).Closed?
    ensures var rest := Read(cfg, Concat(chunks)).rest;
      |rest| <= |Concat(chunks)| && Emitted(cfg, chunks).1 == TrimmedRest(chunks, rest)
  {
    EmittedMeetsSpec(cfg, chunks);
  }

  /** A text behind a complete block. */
  lemma RestBehind(cfg: Config, block: string, x: string)
    requires ValidTags(cfg.openTags) && Read(cfg, block).Closed? && Read(cfg, block).rest == ""
    ensures block != "" && Read(cfg, block + x).Closed? && Read(cfg, block + x).rest == x
  {
    ReadAppend(cfg, block, x);
    assert "" + x == x;
  }

  /** After any complete block, a blank survives when it arrives in a later chunk and is dropped when
      it does not: the content does depend on the chunking. */
  lemma ChunkingMatters(cfg: Config, block: string)
    requires ValidTags(cfg.openTags) && Read(cfg, block).Closed? && Read(cfg, block).rest == ""
    ensures Emitted(cfg, [block, " b"]).1 == " b" && Emitted(cfg, [block + " b"]).1 == "b"
  {
    var x := " b";
    RestBehind(cfg, block, x);
    OneChunk(block + x);
    TwoChunks(block, x);
    ClosedContent(cfg, [block, x]);
    ClosedContent(cfg, [block + x]);
    BlankBehind(block, x);
    BlankWithin(block, x);
  }

  lemma OneChunk(x: string)
    ensures Concat([x]) == x && [] + [x] == [x]
  {
    ConcatOne([], x);
    assert [] + [x] == [x] && "" + x == x;
  }

  lemma TwoChunks(a: string, b: string)
    ensures Concat([a, b]) == a + b && [a] + [b] == [a, b]
  {
    OneChunk(a);
    ConcatOne([a], b);
    assert [a] + [b] == [a, b];
  }

  lemma BlankBehind(block: string, x: string)
    ensures |x| <= |Concat([block, x])| && TrimmedRest([block, x], x) == x
  {
    OneChunk(block);
    TwoChunks(block, x);
    TrimmedGrows([block], x, "");
    assert TrimmedRest([block], "") == "";
    assert "" + x == x;
  }

  lemma BlankWithin(block: string, x: string)
    requires x == " b" && block != ""
    ensures |x| <= |Concat([block + x])| && TrimmedRest([block + x], x) == "b"
  {
    OneChunk(block + x);
    TrimmedInLastChunk([], block + x, x);
    LeadingBlanksIs(x, 1);
  }

  lemma FindThink(text: string)
    requires "<think>" <= text
    ensures FindTag(DEFAULT_TAGS, text) == 1
  {
    var tags := DEFAULT_TAGS;
    assert text[6] == "<think>"[6] == '>' && tags[0][6] == 'i';
    assert tags[1] <= text && !(tags[0] <= text);
  }

  lemma BodyOfBlock()
    ensures ReadBody("<think>", "a</think>") == Closed("<think>", "a", "")
  {
    var body, close := "a</think>", "</think>";
    assert CloseOf("<think>") == close && body == "a" + close;
    assert body[0] != close[0];
    assert Occurs(body, close, 1);
  }

  /** A complete block under the default tags. */
  lemma DefaultBlock(h: Handling, size: int)
    ensures ValidTags(DEFAULT_TAGS)
    ensures Read(Config(h, size, DEFAULT_TAGS), "<think>a</think>") == Closed("<think>", "a", "")
  {
    var text := "<think>a</think>";
    DefaultTagsValid();
    LeadingBlanksIs(text, 0);
    assert text[0..] == text && text == "<think>" + "a</think>";
    FindThink(text);
    assert text[7..] == "a</think>";
    BodyOfBlock();
  }

  /** The initial buffer size never changes what one call emits or the state it leaves. */
  lemma BufferSizeIrrelevant(cfg: Config, size: int, s: State, text: string)
    requires ValidTags(cfg.openTags) && cfg.openTags != []
    ensures Feed(cfg, s, text) == Feed(cfg.(initialBufferSize := size), s, text)
  {
    var w := TrimLeft(s.initial + text);
    if CouldBeTagPrefix(cfg.openTags, w) && FindTag(cfg.openTags, w) < 0 {
      PrefixOrGrowing(cfg.openTags, w);
    }
  }

  /** A string that could start some tag either is already found or is still growing. */
  lemma PrefixOrGrowing(tags: seq<string>, w: string)
    requires ValidTags(tags) && tags != [] && CouldBeTagPrefix(tags, w) && FindTag(tags, w) < 0
    ensures Growing(tags, w)
  {
    if w == "" {
      assert "" <= tags[0] && |tags[0]| > 0;
    } else {
      var i :| 0 <= i < |tags| && w <= tags[i];
      assert w <= tags[i] && |w| < |tags[i]|;
    }
  }

  /** Content marks the streaming phase, which never emits thinking again. */
  lemma ContentEndsThinking(cfg: Config, s: State, text: string)
    requires UsableTags(cfg.openTags)
    ensures var (s', t, c) := Feed(cfg, s, text);
      && (c != "" ==> s'.phase == Streaming)
      && (s.phase == Streaming ==> s'.phase == Streaming && t == "")
    ensures s.phase == Streaming ==> Finish(cfg, s).0 == ""
    ensures Finish(cfg, s).0 == "" || Finish(cfg, s).1 == ""
  {
  }
}
