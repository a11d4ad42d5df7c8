/** The JSON of each frame and how the non-streaming collector reads it back. */
module Wire {
  import opened Options
  import opened Json
  import opened Protocol
  import JsonReader
  import Numbers

  /** What a frame carries besides the block protocol. */
  datatype Meta = Meta(messageId: string, model: string, startUsage: Json, endUsage: Json)

  /** The usage objects are JSON, and not nested so deep that the frame around them could not be read. */
  predicate ValidMeta(meta: Meta)
  {
    && ValidJson(meta.startUsage) && ValidJson(meta.endUsage)
    && JsonReader.Nesting(meta.startUsage) + 2 <= JsonReader.NESTING_LIMIT
    && JsonReader.Nesting(meta.endUsage) + 1 <= JsonReader.NESTING_LIMIT
  }

  // ----- decimal numbers -----

  function Digit(d: nat): char
    requires d < 10
  {
    ('0' as int + d) as char
  }

  function Decimal(n: nat): (s: string)
    ensures s != "" && forall i :: 0 <= i < |s| ==> '0' <= s[i] <= '9'
    ensures (s[0] == '0' ==> |s| == 1) && (n > 0 ==> s[0] != '0')
  {
    if n < 10 then [Digit(n)] else Decimal(n / 10) + [Digit(n % 10)]
  }

  /** The value of a decimal text. */
  function DecimalValue(s: string): Option<nat>
  {
    if s == "" || !('0' <= s[|s| - 1] <= '9') then None
    else
      var d := s[|s| - 1] as int - '0' as int;
      if |s| == 1 then Some(d)
      else
        var front := DecimalValue(s[..|s| - 1]);
        if front.None? then None else Some(front.value * 10 + d)
  }

  lemma {:induction false} DecimalRoundTrip(n: nat)
    ensures DecimalValue(Decimal(n)) == Some(n)
  {
    if n >= 10 {
      DecimalRoundTrip(n / 10);
      var s := Decimal(n);
      assert s[..|s| - 1] == Decimal(n / 10);
    }
  }

  // ----- writing -----

  function Type(name: string): Member { Member("type", Str(name)) }

  function Index(n: nat): Member { Member("index", Num(Decimal(n))) }

  function EventName(f: Frame): string
  {
    match f
    case MessageStart => "message_start"
    case BlockStart(_, _) => "content_block_start"
    case BlockDelta(_, _) => "content_block_delta"
    case BlockStop(_) => "content_block_stop"
    case MessageDelta(_) => "message_delta"
    case MessageStop => "message_stop"
    case Ping => "ping"
  }

  function KindJson(kind: BlockKind): Json
  {
    match kind
    case TextBlock => Obj([Type("text"), Member("text", Str(""))])
    case ThinkingBlock(signature) =>
      Obj([Type("thinking"), Member("thinking", Str("")), Member("signature", Str(signature))])
    case ToolBlock(id, name) =>
      Obj([Type("tool_use"), Member("id", Str(id)), Member("name", Str(name)), Member("input", Obj([]))])
    case RedactedBlock(data) => Obj([Type("redacted_thinking"), Member("data", Str(data))])
  }

  function DeltaJson(delta: Delta): Json
  {
    match delta
    case TextDelta(text) => Obj([Type("text_delta"), Member("text", Str(text))])
    case ThinkingDelta(text) => Obj([Type("thinking_delta"), Member("thinking", Str(text))])
    case SignatureDelta(signature) => Obj([Type("signature_delta"), Member("signature", Str(signature))])
    case JsonDelta(json) => Obj([Type("input_json_delta"), Member("partial_json", Str(json))])
  }

  function MessageJson(meta: Meta): Json
  {
    Obj([Member("id", Str(meta.messageId)), Type("message"), Member("role", Str("assistant")),
         Member("content", Arr([])), Member("model", Str(meta.model)), Member("stop_reason", Null),
         Member("stop_sequence", Null), Member("usage", meta.startUsage)])
  }

  function FrameMembers(meta: Meta, f: Frame): seq<Member>
  {
    [Type(EventName(f))] +
    match f
    case MessageStart => [Member("message", MessageJson(meta))]
    case BlockStart(i, kind) => [Index(i), Member("content_block", KindJson(kind))]
    case BlockDelta(i, delta) => [Index(i), Member("delta", DeltaJson(delta))]
    case BlockStop(i) => [Index(i)]
    case MessageDelta(reason) =>
      [Member("delta", Obj([Member("stop_reason", Str(reason)), Member("stop_sequence", Null)])),
       Member("usage", meta.endUsage)]
    case MessageStop => []
    case Ping => []
  }

  // ----- reading -----

  /** The value of a key; a later duplicate wins. Null is what Go leaves for an absent field. */
  function Get(members: seq<Member>, key: string): Json
  {
    if members == [] then Null
    else
      var last := members[|members| - 1];
      if last.key == key then last.value else Get(members[..|members| - 1], key)
  }

  function GetIn(v: Json, key: string): Json { if v.Obj? then Get(v.members, key) else Null }

  /** A string field; another type makes Unmarshal fail. */
  function ReadString(v: Json, key: string): Option<string>
  {
    var x := GetIn(v, key);
    if x.Null? then Some("") else if x.Str? then Some(x.s) else None
  }

  function ReadInt(v: Json, key: string): Option<nat>
  {
    var x := GetIn(v, key);
    if x.Null? then Some(0) else if x.Num? then DecimalValue(x.text) else None
  }

  datatype BlockType = TextType | ThinkingType | RedactedType | ToolType | OtherType

  function ReadType(name: string): BlockType
  {
    if name == "thinking" then ThinkingType
    else if name == "redacted_thinking" then RedactedType
    else if name == "text" then TextType
    else if name == "tool_use" then ToolType
    else OtherType
  }

  /** contentBlockIn. */
  datatype BlockIn = BlockIn(blockType: BlockType, id: string, name: string, signature: string, data: string)

  function ReadBlock(v: Json): Option<BlockIn>
  {
    var t, id, name, sig, data :=
      ReadString(v, "type"), ReadString(v, "id"), ReadString(v, "name"), ReadString(v, "signature"),
      ReadString(v, "data");
    if t.None? || id.None? || name.None? || sig.None? || data.None? || !(v.Obj? || v.Null?) then None
    else Some(BlockIn(ReadType(t.value), id.value, name.value, sig.value, data.value))
  }

  /** deltaIn: the fields are read together, the type picks one of them. */
  function ReadDelta(v: Json): Option<Delta>
  {
    var t, text, thinking := ReadString(v, "type"), ReadString(v, "text"), ReadString(v, "thinking");
    var partial, sig := ReadString(v, "partial_json"), ReadString(v, "signature");
    if t.None? || text.None? || thinking.None? || partial.None? || sig.None? then None
    else if t.value == "text_delta" then Some(TextDelta(text.value))
    else if t.value == "thinking_delta" then Some(ThinkingDelta(thinking.value))
    else if t.value == "signature_delta" then Some(SignatureDelta(sig.value))
    else if t.value == "input_json_delta" then Some(JsonDelta(partial.value))
    else None
  }

  /** What the collector makes of one payload. */
  datatype EventIn =
    | StartIn(index: nat, block: BlockIn)
    | DeltaIn(index: nat, delta: Delta)
    | MessageIn(id: string)
    | StopIn(reason: string)
    | Skipped

  /** The switch of collectResponse, up to the effect on its accumulators. */
  function ReadEvent(v: Json): EventIn
  {
    var t, index := ReadString(v, "type"), ReadInt(v, "index");
    if !v.Obj? || t.None? || index.None? then Skipped
    else if t.value == "message_start" then
      var id := ReadString(GetIn(v, "message"), "id");
      if id.Some? then MessageIn(id.value) else Skipped
    else if t.value == "content_block_start" then
      var block := ReadBlock(GetIn(v, "content_block"));
      if block.Some? then StartIn(index.value, block.value) else Skipped
    else if t.value == "content_block_delta" then
      var delta := ReadDelta(GetIn(v, "delta"));
      if delta.Some? then DeltaIn(index.value, delta.value) else Skipped
    else if t.value == "message_delta" then
      var reason := ReadString(GetIn(v, "delta"), "stop_reason");
      if reason.Some? && reason.value != "" then StopIn(reason.value) else Skipped
    else Skipped
  }

  // ----- reading what was written -----

  function KindIn(kind: BlockKind): BlockIn
  {
    match kind
    case TextBlock => BlockIn(TextType, "", "", "", "")
    case ThinkingBlock(signature) => BlockIn(ThinkingType, "", "", signature, "")
    case ToolBlock(id, name) => BlockIn(ToolType, id, name, "", "")
    case RedactedBlock(data) => BlockIn(RedactedType, "", "", "", data)
  }

  function FrameIn(meta: Meta, f: Frame): EventIn
  {
    match f
    case MessageStart => MessageIn(meta.messageId)
    case BlockStart(i, kind) => StartIn(i, KindIn(kind))
    case BlockDelta(i, delta) => DeltaIn(i, delta)
    case MessageDelta(reason) => if reason != "" then StopIn(reason) else Skipped
    case _ => Skipped
  }

  /** Lookups in explicit lists of members. */
  lemma Get1(a: Member, key: string)
    ensures Get([a], key) == if a.key == key then a.value else Null
  {
    assert [a][..0] == [];
  }

  lemma Get2(a: Member, b: Member, key: string)
    ensures Get([a, b], key) == if b.key == key then b.value else if a.key == key then a.value else Null
  {
    assert [a, b][..1] == [a];
    Get1(a, key);
  }

  lemma Get3(a: Member, b: Member, c: Member, key: string)
    ensures Get([a, b, c], key) ==
      if c.key == key then c.value else if b.key == key then b.value else if a.key == key then a.value else Null
  {
    assert [a, b, c][..2] == [a, b];
    Get2(a, b, key);
  }

  lemma Get4(a: Member, b: Member, c: Member, d: Member, key: string)
    ensures Get([a, b, c, d], key) == if d.key == key then d.value else Get([a, b, c], key)
  {
    assert [a, b, c, d][..3] == [a, b, c];
  }

  lemma ReadTextBlock()
    ensures ReadBlock(KindJson(TextBlock)) == Some(KindIn(TextBlock))
  {
    var a, b := Type("text"), Member("text", Str(""));
    forall key ensures Get([a, b], key) == if b.key == key then b.value else if a.key == key then a.value else Null {
      Get2(a, b, key);
    }
  }

  lemma ReadRedactedBlock(data: string)
    ensures ReadBlock(KindJson(RedactedBlock(data))) == Some(KindIn(RedactedBlock(data)))
  {
    var a, b := Type("redacted_thinking"), Member("data", Str(data));
    forall key ensures Get([a, b], key) == if b.key == key then b.value else if a.key == key then a.value else Null {
      Get2(a, b, key);
    }
  }

  lemma ReadThinkingBlock(signature: string)
    ensures ReadBlock(KindJson(ThinkingBlock(signature))) == Some(KindIn(ThinkingBlock(signature)))
  {
    var a, b, c := Type("thinking"), Member("thinking", Str("")), Member("signature", Str(signature));
    forall key ensures Get([a, b, c], key) ==
      if c.key == key then c.value else if b.key == key then b.value else if a.key == key then a.value else Null
    {
      Get3(a, b, c, key);
    }
  }

  lemma ReadToolBlock(id: string, name: string)
    ensures ReadBlock(KindJson(ToolBlock(id, name))) == Some(KindIn(ToolBlock(id, name)))
  {
    var a, b, c, d := Type("tool_use"), Member("id", Str(id)), Member("name", Str(name)), Member("input", Obj([]));
    forall key ensures Get([a, b, c, d], key) ==
      if d.key == key then d.value else if c.key == key then c.value
      else if b.key == key then b.value else if a.key == key then a.value else Null
    {
      Get3(a, b, c, key);
      Get4(a, b, c, d, key);
    }
  }

  lemma ReadKind(kind: BlockKind)
    ensures ReadBlock(KindJson(kind)) == Some(KindIn(kind))
  {
    match kind
    case TextBlock => ReadTextBlock();
    case ThinkingBlock(signature) => ReadThinkingBlock(signature);
    case ToolBlock(id, name) => ReadToolBlock(id, name);
    case RedactedBlock(data) => ReadRedactedBlock(data);
  }

  lemma ReadDeltaBack(delta: Delta)
    ensures ReadDelta(DeltaJson(delta)) == Some(delta)
  {
    var ms := DeltaJson(delta).members;
    forall key
      ensures Get(ms, key) == if ms[1].key == key then ms[1].value else if ms[0].key == key then ms[0].value else Null
    {
      assert ms == [ms[0], ms[1]];
      Get2(ms[0], ms[1], key);
    }
  }

  lemma ReadStart(meta: Meta, i: nat, kind: BlockKind)
    ensures ReadEvent(Obj(FrameMembers(meta, BlockStart(i, kind)))) == StartIn(i, KindIn(kind))
  {
    var a, b, c := Type("content_block_start"), Index(i), Member("content_block", KindJson(kind));
    assert FrameMembers(meta, BlockStart(i, kind)) == [a, b, c];
    Get3(a, b, c, "type");
    Get3(a, b, c, "index");
    Get3(a, b, c, "content_block");
    DecimalRoundTrip(i);
    ReadKind(kind);
  }

  lemma ReadBlockDelta(meta: Meta, i: nat, delta: Delta)
    ensures ReadEvent(Obj(FrameMembers(meta, BlockDelta(i, delta)))) == DeltaIn(i, delta)
  {
    var a, b, c := Type("content_block_delta"), Index(i), Member("delta", DeltaJson(delta));
    assert FrameMembers(meta, BlockDelta(i, delta)) == [a, b, c];
    Get3(a, b, c, "type");
    Get3(a, b, c, "index");
    Get3(a, b, c, "delta");
    DecimalRoundTrip(i);
    ReadDeltaBack(delta);
  }

  lemma ReadBlockStop(meta: Meta, i: nat)
    ensures ReadEvent(Obj(FrameMembers(meta, BlockStop(i)))) == Skipped
  {
    var a, b := Type("content_block_stop"), Index(i);
    assert FrameMembers(meta, BlockStop(i)) == [a, b];
    Get2(a, b, "type");
  }

  /** Later members with other keys do not disturb a lookup. */
  lemma {:induction false} GetFirst(ms: seq<Member>, key: string)
    requires ms != [] && ms[0].key == key && forall i :: 0 < i < |ms| ==> ms[i].key != key
    ensures Get(ms, key) == ms[0].value
  {
    if |ms| > 1 { GetFirst(ms[..|ms| - 1], key); }
  }

  lemma GetAt(members: seq<Member>, i: nat)
    requires i < |members| && forall j :: i < j < |members| ==> members[j].key != members[i].key
    ensures Get(members, members[i].key) == members[i].value
    decreases |members|
  {
    if i < |members| - 1 { GetAt(members[..|members| - 1], i); }
  }

  /** What message_start says besides the id: an empty assistant message of the model asked for. */
  lemma MessageFields(meta: Meta)
    ensures var v := MessageJson(meta);
      && GetIn(v, "type") == Str("message") && GetIn(v, "role") == Str("assistant")
      && GetIn(v, "content") == Arr([]) && GetIn(v, "model") == Str(meta.model)
      && GetIn(v, "stop_reason") == Null && GetIn(v, "stop_sequence") == Null && GetIn(v, "usage") == meta.startUsage
  {
    var members := MessageJson(meta).members;
    GetAt(members, 1);
    GetAt(members, 2);
    GetAt(members, 3);
    GetAt(members, 4);
    GetAt(members, 5);
    GetAt(members, 6);
    GetAt(members, 7);
  }

  /** The events the collector skips: their names and all they say. */
  lemma SkippedFrames(meta: Meta, i: nat)
    ensures EventName(Ping) == "ping" && FrameMembers(meta, Ping) == [Type("ping")]
    ensures EventName(MessageStop) == "message_stop" && FrameMembers(meta, MessageStop) == [Type("message_stop")]
    ensures EventName(BlockStop(i)) == "content_block_stop"
    ensures FrameMembers(meta, BlockStop(i)) == [Type("content_block_stop"), Member("index", Num(Decimal(i)))]
  {
  }

  lemma ReadMessageId(meta: Meta)
    ensures ReadString(MessageJson(meta), "id") == Some(meta.messageId)
  {
    GetFirst(MessageJson(meta).members, "id");
  }

  lemma ReadMessageStart(meta: Meta)
    ensures ReadEvent(Obj(FrameMembers(meta, MessageStart))) == MessageIn(meta.messageId)
  {
    var a, b := Type("message_start"), Member("message", MessageJson(meta));
    assert FrameMembers(meta, MessageStart) == [a, b];
    Get2(a, b, "type");
    Get2(a, b, "index");
    Get2(a, b, "message");
    ReadMessageId(meta);
  }

  lemma ReadMessageDelta(meta: Meta, reason: string)
    ensures ReadEvent(Obj(FrameMembers(meta, MessageDelta(reason)))) == FrameIn(meta, MessageDelta(reason))
  {
    var x, y := Member("stop_reason", Str(reason)), Member("stop_sequence", Null);
    var a, b, c := Type("message_delta"), Member("delta", Obj([x, y])), Member("usage", meta.endUsage);
    assert FrameMembers(meta, MessageDelta(reason)) == [a, b, c];
    Get3(a, b, c, "type");
    Get3(a, b, c, "index");
    Get3(a, b, c, "delta");
    Get2(x, y, "stop_reason");
  }

  lemma ReadBare(meta: Meta, f: Frame)
    requires f.MessageStop? || f.Ping?
    ensures ReadEvent(Obj(FrameMembers(meta, f))) == Skipped
  {
    assert FrameMembers(meta, f) == [Type(EventName(f))];
    Get1(Type(EventName(f)), "type");
  }

  /** The collector reads every frame as what it says. */
  lemma ReadFrame(meta: Meta, f: Frame)
    ensures ReadEvent(Obj(FrameMembers(meta, f))) == FrameIn(meta, f)
  {
    match f
    case MessageStart => ReadMessageStart(meta);
    case BlockStart(i, kind) => ReadStart(meta, i, kind);
    case BlockDelta(i, delta) => ReadBlockDelta(meta, i, delta);
    case BlockStop(i) => ReadBlockStop(meta, i);
    case MessageDelta(reason) => ReadMessageDelta(meta, reason);
    case MessageStop => ReadBare(meta, f);
    case Ping => ReadBare(meta, f);
  }

  lemma ValidParts(meta: Meta, kind: BlockKind, delta: Delta)
    requires ValidMeta(meta)
    ensures ValidJson(KindJson(kind)) && ValidJson(DeltaJson(delta)) && ValidJson(MessageJson(meta))
  {
  }

  lemma IndexValid(i: nat)
    ensures ValidJson(Index(i).value)
  {
    Numbers.DigitsAreNumber(Decimal(i));
  }

  lemma ThreeValid(a: Member, b: Member, c: Member)
    requires ValidJson(a.value) && ValidJson(b.value) && ValidJson(c.value)
    ensures ValidJson(Obj([a, b, c])) && ValidJson(Obj([a, b])) && ValidJson(Obj([a]))
  {
  }

  lemma BlockStartValid(meta: Meta, i: nat, kind: BlockKind)
    requires ValidMeta(meta)
    ensures ValidJson(Obj(FrameMembers(meta, BlockStart(i, kind))))
  {
    ValidParts(meta, kind, TextDelta(""));
    IndexValid(i);
    ThreeValid(Type("content_block_start"), Index(i), Member("content_block", KindJson(kind)));
    assert FrameMembers(meta, BlockStart(i, kind)) ==
      [Type("content_block_start"), Index(i), Member("content_block", KindJson(kind))];
  }

  lemma BlockDeltaValid(meta: Meta, i: nat, delta: Delta)
    requires ValidMeta(meta)
    ensures ValidJson(Obj(FrameMembers(meta, BlockDelta(i, delta))))
  {
    ValidParts(meta, TextBlock, delta);
    IndexValid(i);
    ThreeValid(Type("content_block_delta"), Index(i), Member("delta", DeltaJson(delta)));
    assert FrameMembers(meta, BlockDelta(i, delta)) ==
      [Type("content_block_delta"), Index(i), Member("delta", DeltaJson(delta))];
  }

  lemma MessageDeltaValid(meta: Meta, reason: string)
    requires ValidMeta(meta)
    ensures ValidJson(Obj(FrameMembers(meta, MessageDelta(reason))))
  {
    var x, y := Member("stop_reason", Str(reason)), Member("stop_sequence", Null);
    ThreeValid(x, y, y);
    ThreeValid(Type("message_delta"), Member("delta", Obj([x, y])), Member("usage", meta.endUsage));
    assert FrameMembers(meta, MessageDelta(reason)) ==
      [Type("message_delta"), Member("delta", Obj([x, y])), Member("usage", meta.endUsage)];
  }

  lemma MessageStartValid(meta: Meta)
    requires ValidMeta(meta)
    ensures ValidJson(Obj(FrameMembers(meta, MessageStart)))
  {
    var t, m := Type("message_start"), Member("message", MessageJson(meta));
    ValidParts(meta, TextBlock, TextDelta(""));
    ThreeValid(t, m, t);
    assert FrameMembers(meta, MessageStart) == [t, m];
  }

  lemma BlockStopValid(meta: Meta, i: nat)
    ensures ValidJson(Obj(FrameMembers(meta, BlockStop(i))))
  {
    var t := Type("content_block_stop");
    IndexValid(i);
    ThreeValid(t, Index(i), t);
    assert FrameMembers(meta, BlockStop(i)) == [t, Index(i)];
  }

  lemma BareValid(meta: Meta, f: Frame)
    requires f.MessageStop? || f.Ping?
    ensures ValidJson(Obj(FrameMembers(meta, f)))
  {
    var t := Type(EventName(f));
    ThreeValid(t, t, t);
    assert FrameMembers(meta, f) == [t];
  }

  lemma FrameValid(meta: Meta, f: Frame)
    requires ValidMeta(meta)
    ensures ValidJson(Obj(FrameMembers(meta, f)))
  {
    match f
    case BlockStart(i, kind) => BlockStartValid(meta, i, kind);
    case BlockDelta(i, delta) => BlockDeltaValid(meta, i, delta);
    case MessageDelta(reason) => MessageDeltaValid(meta, reason);
    case MessageStart => MessageStartValid(meta);
    case BlockStop(i) => BlockStopValid(meta, i);
    case _ => BareValid(meta, f);
  }

  lemma {:induction false} Shallow(ms: seq<Member>, n: nat)
    requires forall i :: 0 <= i < |ms| ==> JsonReader.Nesting(ms[i].value) <= n
    ensures JsonReader.Nesting(Obj(ms)) <= n + 1
  {
    if ms != [] { Shallow(ms[1..], n); }
  }

  lemma PartsShallow(meta: Meta, kind: BlockKind, delta: Delta)
    requires ValidMeta(meta)
    ensures JsonReader.Nesting(KindJson(kind)) <= 2 && JsonReader.Nesting(DeltaJson(delta)) <= 2
    ensures JsonReader.Nesting(MessageJson(meta)) + 1 <= JsonReader.NESTING_LIMIT
  {
    Shallow([], 0);
    Shallow(KindJson(kind).members, 1);
    Shallow(DeltaJson(delta).members, 1);
    Shallow(MessageJson(meta).members, JsonReader.NESTING_LIMIT - 2);
  }

  /** No frame is nested too deep to be read. */
  lemma FrameShallow(meta: Meta, f: Frame)
    requires ValidMeta(meta)
    ensures JsonReader.Nesting(Obj(FrameMembers(meta, f))) <= JsonReader.NESTING_LIMIT
  {
    PartsShallow(meta, if f.BlockStart? then f.kind else TextBlock, if f.BlockDelta? then f.delta else TextDelta(""));
    if f.MessageDelta? { Shallow(FrameMembers(meta, f)[1].value.members, 0); }
    Shallow(FrameMembers(meta, f), JsonReader.NESTING_LIMIT - 1);
  }

  lemma NameOnOneLine(f: Frame)
    ensures forall i :: 0 <= i < |EventName(f)| ==> EventName(f)[i] != '\n'
  {
  }
}
