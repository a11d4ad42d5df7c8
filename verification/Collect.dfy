/** The non-streaming reply, rebuilt from the very bytes a streaming client would get. Deltas are routed
    through a table from block index to block, which is right only because indices are never shared. */
module Collect {
  import opened Protocol
  import opened Wire
  import Json
  import JsonReader
  import Sse

  /** blockAcc as a value. */
  datatype Acc = Acc(
    blockType: BlockType, id: string, name: string, data: string, signature: string, text: string, partial: string)

  function FreshAcc(b: BlockIn): Acc { Acc(b.blockType, b.id, b.name, b.data, b.signature, "", "") }

  function Add(a: Acc, d: Delta): Acc
  {
    match d
    case TextDelta(t) => a.(text := a.text + t)
    case ThinkingDelta(t) => a.(text := a.text + t)
    case SignatureDelta(s) => a.(signature := s)
    case JsonDelta(j) => a.(partial := a.partial + j)
  }

  /** `byIndex` maps a block index to a position in `order`. */
  datatype Collected = Collected(messageId: string, order: seq<Acc>, byIndex: map<nat, nat>, stopReason: string)

  const NOTHING := Collected("", [], map[], "end_turn")

  predicate Routed(c: Collected) { forall i :: i in c.byIndex ==> c.byIndex[i] < |c.order| }

  /** One payload's effect. */
  function Take(c: Collected, ev: EventIn): (r: Collected)
    requires Routed(c)
    ensures Routed(r)
  {
    match ev
    case StartIn(i, block) => c.(order := c.order + [FreshAcc(block)], byIndex := c.byIndex[i := |c.order|])
    case DeltaIn(i, d) =>
      if i !in c.byIndex then c
      else c.(order := c.order[c.byIndex[i] := Add(c.order[c.byIndex[i]], d)])
    case MessageIn(id) => c.(messageId := id)
    case StopIn(reason) => c.(stopReason := reason)
    case Skipped => c
  }

  function ReadPayload(data: string): EventIn
  {
    var v := JsonReader.Parse(data);
    if v.None? then Skipped else ReadEvent(v.value)
  }

  function TakeAll(datas: seq<string>): (c: Collected)
    ensures Routed(c)
  {
    if datas == [] then NOTHING
    else Take(TakeAll(datas[..|datas| - 1]), ReadPayload(datas[|datas| - 1]))
  }

  datatype OutBlock =
    | OutThinking(thinking: string, signature: string)
    | OutRedacted(data: string)
    | OutText(text: string)
    | OutTool(id: string, name: string, input: string)

  /** The accumulated input if it is usable JSON, or an empty object. */
  function ToolInput(partial: string): string
  {
    var raw := Sse.TrimSpace(partial);
    if raw != "" && JsonReader.Parse(raw).Some? then raw else "{}"
  }

  function OutOf(a: Acc): seq<OutBlock>
  {
    match a.blockType
    case ThinkingType => [OutThinking(a.text, a.signature)]
    case RedactedType => [OutRedacted(a.data)]
    case TextType => [OutText(a.text)]
    case ToolType => [OutTool(a.id, a.name, ToolInput(a.partial))]
    case OtherType => []
  }

  function Blocks(order: seq<Acc>): seq<OutBlock>
  {
    if order == [] then [] else Blocks(order[..|order| - 1]) + OutOf(order[|order| - 1])
  }

  /** What a reply may give as the input of a tool block whose deltas were `sent`: usable JSON always, and
      the text sent, trimmed, unless that is empty or no JSON. */
  predicate InputFor(sent: string, got: string)
  {
    var trimmed := Sse.TrimSpace(sent);
    && JsonReader.Parse(got).Some? && (got == "{}" || got == trimmed)
    && (got == "{}" <==> trimmed == "" || trimmed == "{}" || JsonReader.Parse(trimmed).None?)
  }

  lemma EmptyObjectParses()
    ensures JsonReader.Parse("{}").Some?
  {
    JsonReader.ParsePrinted(Json.Obj([]), false);
    assert Json.Print(Json.Obj([]), false) == "{}";
  }

  lemma InputIs(partial: string)
    ensures InputFor(partial, ToolInput(partial))
  {
    EmptyObjectParses();
  }

  lemma ObjectEnds(members: seq<Json.Member>, ascii: bool)
    ensures var p := Json.Print(Json.Obj(members), ascii); |p| >= 2 && p[0] == '{' && p[|p| - 1] == '}'
  {
  }

  /** A printed object, not nested too deeply, is the input of the reply's block as it stands. */
  lemma PrintedInput(a: Acc, v: Json.Json, ascii: bool)
    requires a.blockType == ToolType && a.partial == Json.Print(v, ascii)
    requires v.Obj? && Json.ValidJson(v) && JsonReader.Nesting(v) <= JsonReader.NESTING_LIMIT
    ensures OutOf(a) == [OutTool(a.id, a.name, Json.Print(v, ascii))]
  {
    ObjectEnds(v.members, ascii);
    Sse.TrimKeeps(a.partial);
    JsonReader.ParsePrinted(v, ascii);
  }

  /** Deltas that make no JSON give an empty object. */
  lemma UnusableInput(a: Acc)
    requires a.blockType == ToolType
    ensures JsonReader.Parse(Sse.TrimSpace(a.partial)).None? ==> OutOf(a) == [OutTool(a.id, a.name, "{}")]
    ensures Sse.TrimSpace(a.partial) == "" ==> OutOf(a) == [OutTool(a.id, a.name, "{}")]
  {
  }

  datatype Response = Response(id: string, content: seq<OutBlock>, stopReason: string)

  function ResponseOf(c: Collected): Response
  {
    Response(c.messageId, Blocks(c.order), c.stopReason)
  }

  // ----- the collector, over shared accumulator objects -----

  class BlockAcc {
    const blockType: BlockType
    const id: string
    const name: string
    const data: string
    var signature: string
    var text: string
    var partial: string

    function Abs(): Acc
      reads this
    {
      Acc(blockType, id, name, data, signature, text, partial)
    }

    constructor (b: BlockIn)
      ensures Abs() == FreshAcc(b)
    {
      blockType, id, name, data, signature := b.blockType, b.id, b.name, b.data, b.signature;
      text, partial := "", "";
    }

    method AddDelta(d: Delta)
      modifies this
      ensures Abs() == Add(old(Abs()), d)
    {
      match d {
        case TextDelta(t) => text := text + t;
        case ThinkingDelta(t) => text := text + t;
        case SignatureDelta(s) => signature := s;
        case JsonDelta(j) => partial := partial + j;
      }
    }
  }

  /** The two collections share their objects exactly as `c` says. */
  ghost predicate Shares(order: seq<BlockAcc>, byIndex: map<nat, BlockAcc>, c: Collected)
    reads order
  {
    && Routed(c) && |order| == |c.order|
    && (forall k :: 0 <= k < |order| ==> order[k].Abs() == c.order[k])
    && (forall j, k :: 0 <= j < k < |order| ==> order[j] != order[k])
    && byIndex.Keys == c.byIndex.Keys
    && (forall i :: i in byIndex ==> byIndex[i] == order[c.byIndex[i]])
  }

  method Start(order: seq<BlockAcc>, byIndex: map<nat, BlockAcc>, i: nat, b: BlockIn, ghost c: Collected)
    returns (order': seq<BlockAcc>, byIndex': map<nat, BlockAcc>)
    requires Shares(order, byIndex, c)
    ensures Shares(order', byIndex', Take(c, StartIn(i, b)))
    ensures |order'| == |order| + 1 && order'[..|order|] == order && fresh(order'[|order|])
  {
    var acc := new BlockAcc(b);
    order' := order + [acc];
    byIndex' := byIndex[i := acc];
  }

  method Delta(order: seq<BlockAcc>, byIndex: map<nat, BlockAcc>, i: nat, d: Delta, ghost c: Collected)
    requires Shares(order, byIndex, c)
    modifies order
    ensures Shares(order, byIndex, Take(c, DeltaIn(i, d)))
  {
    if i !in byIndex { return; }
    byIndex[i].AddDelta(d);
  }

  lemma TakeNext(datas: seq<string>, n: nat)
    requires n < |datas|
    ensures TakeAll(datas[..n + 1]) == Take(TakeAll(datas[..n]), ReadPayload(datas[n]))
  {
    assert datas[..n + 1][..n] == datas[..n];
  }

  /** The block part of the switch. */
  method Route(order: seq<BlockAcc>, byIndex: map<nat, BlockAcc>, ev: EventIn, ghost c: Collected)
    returns (order': seq<BlockAcc>, byIndex': map<nat, BlockAcc>)
    requires Shares(order, byIndex, c)
    modifies order
    ensures Shares(order', byIndex', Take(c, ev))
    ensures forall k :: 0 <= k < |order'| ==> order'[k] in order || fresh(order'[k])
  {
    order', byIndex' := order, byIndex;
    match ev {
      case StartIn(i, block) => order', byIndex' := Start(order, byIndex, i, block, c);
      case DeltaIn(i, d) => Delta(order, byIndex, i, d, c);
      case _ =>
    }
  }

  /** The loop of collectResponse. */
  method GatherBlocks(datas: seq<string>)
    returns (messageId: string, stopReason: string, order: seq<BlockAcc>)
    ensures var c := TakeAll(datas);
      && c.messageId == messageId && c.stopReason == stopReason
      && |order| == |c.order| && forall k :: 0 <= k < |order| ==> order[k].Abs() == c.order[k]
  {
    messageId, stopReason, order := "", "end_turn", [];
    var byIndex: map<nat, BlockAcc> := map[];
    ghost var c := NOTHING;
    for n := 0 to |datas|
      invariant c == TakeAll(datas[..n]) && c.messageId == messageId && c.stopReason == stopReason
      invariant Shares(order, byIndex, c) && forall k :: 0 <= k < |order| ==> fresh(order[k])
    {
      TakeNext(datas, n);
      var ev := ReadPayload(datas[n]);
      order, byIndex := Route(order, byIndex, ev, c);
      if ev.MessageIn? { messageId := ev.id; }
      if ev.StopIn? { stopReason := ev.reason; }
      c := Take(c, ev);
    }
    assert datas[..|datas|] == datas;
  }

  /** collectResponse. */
  method CollectResponse(sseBytes: string) returns (r: Response)
    ensures r == ResponseOf(TakeAll(Sse.SseData(sseBytes)))
  {
    var datas := Sse.SplitSseData(sseBytes);
    var messageId, stopReason, order := GatherBlocks(datas);
    var content := BuildContentBlocks(order, TakeAll(datas).order);
    r := Response(messageId, content, stopReason);
  }

  method BuildContentBlocks(order: seq<BlockAcc>, ghost accs: seq<Acc>) returns (blocks: seq<OutBlock>)
    requires |order| == |accs| && forall k :: 0 <= k < |order| ==> order[k].Abs() == accs[k]
    ensures blocks == Blocks(accs)
  {
    blocks := [];
    for k := 0 to |order|
      invariant blocks == Blocks(accs[..k])
    {
      assert accs[..k + 1][..k] == accs[..k];
      var acc := order[k];
      match acc.blockType {
        case ThinkingType => blocks := blocks + [OutThinking(acc.text, acc.signature)];
        case RedactedType => blocks := blocks + [OutRedacted(acc.data)];
        case TextType => blocks := blocks + [OutText(acc.text)];
        case ToolType =>
          var input := "{}";
          var raw := Sse.TrimSpace(acc.partial);
          if raw != "" && JsonReader.Parse(raw).Some? { input := raw; }
          blocks := blocks + [OutTool(acc.id, acc.name, input)];
        case OtherType =>
      }
    }
    assert accs[..|order|] == accs;
  }
}
