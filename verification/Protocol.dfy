/** The block protocol of an Anthropic stream, as an acceptor over frames: message_start, then blocks
    that open at 0, 1, 2, ... and never overlap, each with deltas of its own kind, then message_delta
    and message_stop. Pings are allowed anywhere after the first frame. */
module Protocol {

  datatype BlockKind =
    | TextBlock
    | ThinkingBlock(signature: string)
    | ToolBlock(id: string, name: string)
    | RedactedBlock(data: string)

  datatype Delta =
    | TextDelta(text: string)
    | ThinkingDelta(text: string)
    | SignatureDelta(signature: string)
    | JsonDelta(json: string)

  datatype Frame =
    | MessageStart
    | BlockStart(index: nat, kind: BlockKind)
    | BlockDelta(index: nat, delta: Delta)
    | BlockStop(index: nat)
    | MessageDelta(stopReason: string)
    | MessageStop
    | Ping

  predicate Fits(kind: BlockKind, delta: Delta)
  {
    match delta
    case TextDelta(_) => kind.TextBlock?
    case ThinkingDelta(_) => kind.ThinkingBlock?
    case SignatureDelta(_) => kind.ThinkingBlock?
    case JsonDelta(_) => kind.ToolBlock?
  }

  /** What a client has seen so far. */
  datatype Stage =
    | Fresh
    | Between(next: nat)
    | Inside(index: nat, kind: BlockKind)
    | Ending
    | Done
    | Violated

  function Accept(s: Stage, f: Frame): Stage
  {
    match (s, f)
    case (Fresh, MessageStart) => Between(0)
    case (Between(n), BlockStart(i, kind)) => if i == n then Inside(i, kind) else Violated
    case (Inside(n, kind), BlockDelta(i, delta)) => if i == n && Fits(kind, delta) then s else Violated
    case (Inside(n, _), BlockStop(i)) => if i == n then Between(n + 1) else Violated
    case (Between(_), MessageDelta(_)) => Ending
    case (Ending, MessageStop) => Done
    case (Fresh, Ping) => Violated
    case (_, Ping) => s
    case _ => Violated
  }

  function After(s: Stage, frames: seq<Frame>): Stage
  {
    if frames == [] then s else Accept(After(s, frames[..|frames| - 1]), frames[|frames| - 1])
  }

  /** A complete, well-formed stream. */
  predicate WellFormed(frames: seq<Frame>) { After(Fresh, frames) == Done }

  lemma {:induction false} AfterAppend(s: Stage, a: seq<Frame>, b: seq<Frame>)
    ensures After(s, a + b) == After(After(s, a), b)
  {
    if b == [] {
      assert a + b == a;
    } else {
      var n := |b| - 1;
      assert (a + b)[..|a| + n] == a + b[..n] && (a + b)[|a| + n] == b[n];
      AfterAppend(s, a, b[..n]);
    }
  }

  lemma AfterOne(s: Stage, f: Frame)
    ensures After(s, [f]) == Accept(s, f)
  {
    assert [f][..0] == [];
  }

  lemma {:induction false} ViolatedForever(frames: seq<Frame>)
    ensures After(Violated, frames) == Violated
  {
    if frames != [] { ViolatedForever(frames[..|frames| - 1]); }
  }

  // ----- what an accepted stream gives a client -----

  /** The indices of the blocks opened, in order. */
  function Opened(frames: seq<Frame>): seq<nat>
  {
    if frames == [] then []
    else
      var n := |frames| - 1;
      Opened(frames[..n]) + if frames[n].BlockStart? then [frames[n].index] else []
  }

  function Closed(frames: seq<Frame>): seq<nat>
  {
    if frames == [] then []
    else
      var n := |frames| - 1;
      Closed(frames[..n]) + if frames[n].BlockStop? then [frames[n].index] else []
  }

  /** In a well-formed stream the blocks open as 0, 1, 2, ... and close in that order, each once. */
  lemma BlocksAreNumbered(frames: seq<Frame>)
    requires WellFormed(frames)
    ensures Opened(frames) == Closed(frames)
    ensures forall k :: 0 <= k < |Opened(frames)| ==> Opened(frames)[k] == k
  {
    Numbering(frames);
  }

  lemma {:induction false} Numbering(frames: seq<Frame>)
    ensures var s := After(Fresh, frames);
      s != Violated ==>
        && (forall k :: 0 <= k < |Opened(frames)| ==> Opened(frames)[k] == k)
        && match s
           case Fresh => Opened(frames) == [] && Closed(frames) == []
           case Between(n) => Opened(frames) == Closed(frames) && |Opened(frames)| == n
           case Inside(n, _) => Opened(frames) == Closed(frames) + [n] && |Closed(frames)| == n
           case _ => Opened(frames) == Closed(frames)
  {
    if frames != [] { Numbering(frames[..|frames| - 1]); }
  }
}
