# A verified model of the gateway's core

kiro-gateway-go translates between the Anthropic Messages API and Kiro. This Dafny project models the
parts of it that are hardest to get right and proves what they promise:

* **From upstream bytes to client events.** A parser cuts JSON objects out of a noisy byte stream and
  assembles tool calls (`EventParser`, `StreamParsers`, `ChunkBorders`, `ToolCalls`, `ToolAssembly`, `Braces`,
  `Utf8`), a state machine splits `<thinking>` blocks with a hold-back buffer (`Thinking`, `ThinkingParsers`), a
  pipeline joins them (`Pipeline`, `Pipelines`), a formatter writes a block protocol (`Protocol`, `Formatter`,
  `Formatters`), a driver and a pinger share the writer (`Streams`, `StreamWriters`), and the non-streaming
  reply is rebuilt from the same bytes (`Json`, `Numbers`, `JsonReader`, `Sse`, `SseClient`, `Wire`, `Collect`,
  `NonStreaming`, `Replies`, `Grouping`, `EndToEnd`, `NativeEvents`, `ToolReports`). The central result crosses
  all of them: every byte stream gives a well-formed event stream, because the state machine never emits
  thinking after content; the formatter alone does not guarantee it.
* **The tokenizer.** A hand-written matcher against the regular expression it replaces (`Regex`,
  `Pretoken`), and byte pair encoding with cached ranks against repeated merging (`Bpe`, `Tokenizer`).
* **Requests.** A chain of list transformations that must end in alternation with every tool result behind
  its calls and lose no word (`Messages`, `Normalize`, `Chains`, `Payloads`, `PayloadLaws`, `Speech`,
  `PayloadText`), the trimmer that must keep it (`Trim`), and the schema sanitizer (`Schema`).
* **Accounts.** Shared statistics under concurrent requests and the failover loop (`Accounts`,
  `AccountManagers`, `Selection`, `Failover`).

Code that changes state is modelled by methods and classes with the source's fields and loops; each is
proved equal to a function of its inputs and old state, and the theorems are about those functions.
`Options` and `Text` are small helpers. A Go byte string is a Dafny string whose characters are bytes;
where the source works on runes a character is a Unicode scalar value. Library calls the model does not
look into (the decoding of upstream objects, bracket-call search, id generation, Unicode tables, the clock,
random draws, payload sizes) are function parameters, and every theorem holds for all of them, under the
stated conditions.

`dafny verify dfyconfig.toml` checks everything.

## Where the code does not do what one may expect

Each of these is proved for the code as it is.

* Leading blanks of the content after a thinking block are removed only as far as they arrive in the same
  chunk as the closing tag (`Thinking.ContentTrimmedIff`, `Thinking.ChunkingMatters`).
* The formatter writes a thinking block without closing open text, so the block protocol holds if and only
  if no thinking event meets an open text block (`Formatter.WellFormedIff`, `Formatter.Clash`).
* A comment in internal/routesanthropic/handler.go:133-137 says that outside as_reasoning_content no
  thinking events reach the formatter. In the modes pass and strip_tags they do, and are dropped
  (`EndToEnd.OtherModesDropThinking`, `Counterexamples.ThinkingIsDelivered`).
* A character split between two reads is lost (`ChunkBorders.SplitCharacterChangesEvents`). Borders are harmless
  exactly where they cut no character (`Utf8.CleanSplitIff`, `ChunkBorders.HarmlessIff`).
* A tool id that is not a string makes the pipeline's Finish panic; the client then has the frames written
  so far (`Counterexamples.NonStringIdStops`, `Pipelines.StreamPipeline.AppendTools`).
* The key that tells duplicate tool calls joins name and arguments with a hyphen, so that two different calls can
  share it; the second is dropped (`ToolCalls.KeysMeetIff`, `ToolCalls.HyphenDropsCall`).
* A trailing assistant message is moved to the history without its tool calls
  (`PayloadLaws.PayloadKeepsTools`) and without the placeholder for empty content, which shows exactly when the
  message is not merged with one before it (`PayloadLaws.EmptyContentOnlyWhenMoved`,
  `PayloadLaws.EmptyMessageShows`).
* Tool results on an assistant message directly behind a caller are lost when it is merged
  (`Chains.MergeLosesIff`, `Chains.TrappedResultIsLost`). The converter attaches results to user messages only
  (internal/convertersanthropic/converters_messages.go:80-117), and then none is lost
  (`Chains.ConvertedKeepsTools`).
* The trimmer looks for the text of a dropped tool result in a list type that payloads built here do not
  have, so that text is lost (`Trim.TypedOrphansVanish`).
* Selection with a single account ignores quarantine (`Accounts.ChosenIsEligible`).
* The comment on GetNextAccount (internal/accountmanager/failover.go:36-38) says that the exhaustion message is
  the last attempted account's. It is that of the account in front of the sticky one, which need not have been
  attempted (`Failover.ExhaustionMessageIff`, `Failover.WrongAccountNamed`); after a full circle it is the same
  account (`Failover.FullCircleAnswer`).

## Model

| member | source | states |
|---|---|---|
| `ThinkingParsers.ThinkingParser.constructor` | internal/thinkingparser/state_machine.go:61-86 | A new parser for any non-empty tags is in the initial state; the hold-back is twice the longest open tag. |
| `ThinkingParsers.ThinkingParser.Feed` | internal/thinkingparser/state_machine.go:91-105 | One chunk changes the fields and returns thinking and content as the transition function says. |
| `ThinkingParsers.ThinkingParser.HandlePreContent` | internal/thinkingparser/state_machine.go:142-186 | Before content: a leading tag opens a block, a possible prefix is buffered, anything else is content. |
| `ThinkingParsers.ThinkingParser.MatchOpenTag` | internal/thinkingparser/state_machine.go:149-167 | The first tag in the table that the text starts with, or none. |
| `ThinkingParsers.ThinkingParser.MatchPartialTag` | internal/thinkingparser/state_machine.go:169-175 | Whether the text is a proper beginning of some tag. |
| `ThinkingParsers.ThinkingParser.ProcessThinkingBuffer` | internal/thinkingparser/state_machine.go:200-242 | Inside a block: split at the first closing tag, else send all but the hold-back. |
| `ThinkingParsers.ThinkingParser.CouldBeTagPrefix` | internal/thinkingparser/state_machine.go:245-255 | Whether the text begins some tag. |
| `ThinkingParsers.ThinkingParser.Finish` | internal/thinkingparser/state_machine.go:108-128 | Flushes the buffer of the phase and leaves the other fields alone. |
| `ThinkingParsers.ThinkingParser.Reset` | internal/thinkingparser/state_machine.go:131-139 | Back to the initial state. |
| `Thinking.DefaultTagsValid` | internal/thinkingparser/state_machine.go:61-64 | The four default tags are such that no tag begins another and each closing tag fits the hold-back. |
| `Thinking.DetectionIff` | internal/thinkingparser/state_machine.go:149-167 | For any non-empty tags, the tag found does not change with more input if and only if no tag hides behind a longer one that begins with it: the condition on the table in the rows below. |
| `Thinking.EmittedMeetsSpec` | internal/thinkingparser/state_machine.go:88-292 | For every text and every way of cutting it into chunks the emitted thinking is the one-shot rendering of the text up to the first closing tag (in pass mode one pair of tags around it) and the emitted content is the one-shot content. |
| `Thinking.RunKeepsInv` | internal/thinkingparser/state_machine.go:88-242 | After every chunk of every run the fields, the thinking and the content emitted so far agree with the reading of the text so far. |
| `Thinking.HoldBackSafe` | internal/thinkingparser/state_machine.go:227-239 | Sending all but the hold-back never sends part of a closing tag, however the tag is split, and leaves some thinking before it. |
| `Thinking.BufferSizeIrrelevant` | internal/thinkingparser/state_machine.go:169-185 | The configured initial buffer size changes neither what a call emits nor the state it leaves. |
| `Thinking.ContentTrimmedIff` | internal/thinkingparser/state_machine.go:222-224 | Content after a block is the rest without its leading blanks exactly when those blanks arrive in the chunk of the closing tag. |
| `Thinking.ChunkingMatters` | internal/thinkingparser/state_machine.go:222-224 | After any complete block the same text gives different content under two chunkings. |
| `Thinking.DefaultBlock` | internal/thinkingparser/state_machine.go:61-64 | Under the default tags a complete block exists, so the previous row speaks of something. |
| `Thinking.ContentEndsThinking` | internal/thinkingparser/state_machine.go:88-242 | Once content has been emitted no call emits thinking again. |
| `StreamParsers.StreamParser.Feed` | internal/parsers/parser.go:113-203 | Cleans the chunk on its own, appends it, cuts and processes every complete object. |
| `StreamParsers.StreamParser.Drain` | internal/parsers/parser.go:116-200 | The loop: what stays in the buffer, the new state and the events. |
| `StreamParsers.FindEarliest` | internal/parsers/parser.go:121-129 | The earliest pattern in the buffer; ties go to the first in the table. |
| `StreamParsers.FindNext` | internal/parsers/parser.go:119-146 | The next complete object and the offset behind it, or none. |
| `StreamParsers.StreamParser.ProcessObject` | internal/parsers/parser.go:148-199 | What one object does, by the kind of its pattern. |
| `StreamParsers.StreamParser.ProcessContent` | internal/parsers/parser.go:208-221 | Content with a follow-up prompt, or equal to the last content, gives no event. |
| `StreamParsers.StreamParser.ProcessToolStart` | internal/parsers/toolcalls.go:33-64 | A start closes the pending call and opens another; an id is drawn in any case. |
| `StreamParsers.StreamParser.ProcessToolInput` | internal/parsers/toolcalls.go:69-74 | A fragment extends the pending call. |
| `StreamParsers.StreamParser.ProcessToolStop` | internal/parsers/toolcalls.go:79-83 | A truthy stop closes it. |
| `StreamParsers.StreamParser.FinalizeToolCall` | internal/parsers/toolcalls.go:145-188 | Blank arguments become "{}", others are reformatted or diagnosed; the call joins the list. |
| `StreamParsers.StreamParser.GetToolCalls` | internal/parsers/toolcalls.go:197-219 | Closes the pending call and returns the deduplicated list. |
| `ToolAssembly.CallAssembled` | internal/parsers/toolcalls.go:33-188 | A start, any number of fragments and a stop add exactly one call with the start's id and name and all argument texts in order, behind the call that was pending, and give no event. |
| `ToolAssembly.CallsAreAssemblies` | internal/parsers/toolcalls.go:33-219 | For every list of objects the calls at the end are those of its starts, in order, each with its own id and name, an id drawn if it has none, and all the fragments up to the next start or stop, normalised; the diagnosis is that of the last truncated one. |
| `ToolAssembly.EventsAreReported` | internal/parsers/parser.go:148-221 | For every list of objects: content is reported unless it is a follow-up or repeats what was reported last, metadata if it is a refusal, reasoning and usage always, each as decoded, in order. |
| `EventParser.EarliestStable` | internal/parsers/parser.go:51-70 | Later bytes move neither the earliest pattern nor its kind. |
| `EventParser.EventPatternsGood` | internal/parsers/parser.go:51-70 | No pattern of the table holds a brace after its first byte and none begins another. |
| `EventParser.NextStable` | internal/parsers/parser.go:118-146 | A complete object stays the next one whatever bytes follow. |
| `EventParser.CutSplit` | internal/parsers/parser.go:118-146 | Cutting a longer buffer is cutting its first part and then what that left, with the rest. |
| `EventParser.DrainSplit` | internal/parsers/parser.go:118-203 | The same for events and state. |
| `EventParser.FeedSplit` | internal/parsers/parser.go:113-203 | Feeding two chunks gives the same events, buffer, last content, pending and finished calls as feeding them as one, if no character straddles the border. |
| `EventParser.ChunkingIrrelevant` | internal/parsers/parser.go:113-203 | A whole stream cut anywhere but inside a character parses as in one piece. |
| `EventParser.NextIsObject` | internal/parsers/parser.go:118-146 | Behind brace-free noise the next object cut is the printed one, with the kind of its first key. |
| `EventParser.CutsExactlyTheObjects` | internal/parsers/parser.go:118-146 | Noise around printed objects with known first keys: exactly those objects are cut, in order. |
| `ChunkBorders.HarmlessIff` | internal/parsers/parser.go:106-203 | Cutting a text into given chunks gives the same events and state behind every stream if and only if no border cuts a character. |
| `ChunkBorders.SplitCharacterChangesEvents` | internal/parsers/parser.go:106-114 | A content object whose text is one two-byte character gives that text in one piece, and not with a border inside the character. |
| `ChunkBorders.StreamGivesObjects` | internal/parsers/parser.go:113-203 | A stream of noise and printed objects with known first keys, in chunks that cut no character, has exactly the effect of those objects in order and leaves the last noise in the buffer. |
| `Utf8.CleanValid` | internal/parsers/parser.go:113-114 | Cleaning a chunk does not touch a valid part in front. |
| `Utf8.CleanSplitIff` | internal/parsers/parser.go:106-114 | Cleaning two chunks one at a time is cleaning them together if and only if no character straddles the border; otherwise bytes are lost. |
| `Utf8.CleanEachIff` | internal/parsers/parser.go:106-114 | The same for any number of chunks. |
| `Utf8.ValidNeverStraddles` | internal/parsers/parser.go:106-114 | A border behind a text that is valid on its own is harmless, whatever follows. |
| `Utf8.EncodedIsOne` | internal/parsers/parser.go:113-114 | The UTF-8 encoding of every Unicode scalar value, built by arithmetic on the code point, is one character, whatever follows it. |
| `Utf8.CharacterIsEncoded` | internal/parsers/parser.go:113-114 | And every character is the encoding of a scalar value. |
| `Utf8.ValidIff` | internal/parsers/parser.go:113-114 | A text is valid, and so passes the cleaning unchanged, exactly when it encodes a list of code points. |
| `Utf8.CleanIsValid` | internal/parsers/parser.go:113-114 | What the cleaning leaves is valid. |
| `Braces.FindMatchingBrace` | internal/parsers/brace_scanner.go:27-68 | The loop returns the matching brace of the specification, or -1. |
| `Braces.MatchingBraceStable` | internal/parsers/brace_scanner.go:36-67 | A matching brace stays the same after more bytes. |
| `Braces.PrintedObjectEnd` | internal/parsers/brace_scanner.go:27-68 | On any printed JSON object with anything behind it the scan returns exactly the object's last brace. |
| `ToolCalls.CollectById` | internal/parsers/dedup.go:25-43 | The first loop with its position map computes the by-id pass. |
| `ToolCalls.CollectByKey` | internal/parsers/dedup.go:56-70 | The last loop keeps the first call of each key. |
| `ToolCalls.DeduplicateToolCalls` | internal/parsers/dedup.go:24-71 | The method computes the specified result. |
| `ToolCalls.ByIdIsBest` | internal/parsers/dedup.go:25-43 | Per id, in first-seen order, the first of the calls with the largest arguments is kept, "{}" ranking lowest. |
| `ToolCalls.RanksAbove` | internal/parsers/dedup.go:33-38 | A call takes the place of another of its id when its arguments are not "{}" and are longer, unless the other's are "{}". |
| `ToolCalls.FalsyIs` | internal/parsers/dedup.go:142-165 | The falsy values are null, false, zero and what is empty. |
| `ToolCalls.FirstPerKeyKeys` | internal/parsers/dedup.go:56-70 | No key is lost or kept twice. |
| `ToolCalls.CombinedOrder` | internal/parsers/dedup.go:45-54 | Before the key pass ids are distinct and calls with ids come first. |
| `ToolCalls.DedupIsIdempotent` | internal/parsers/dedup.go:24-71 | The result has distinct ids and distinct keys, loses no key, and is a fixed point. |
| `ToolCalls.KeysMeetIff` | internal/parsers/dedup.go:56-70 | Two calls have one key exactly when name and arguments agree, or one name goes on with a hyphen and the other call's arguments make up for the difference. |
| `ToolCalls.DifferentCallsSurvive` | internal/parsers/dedup.go:24-71 | Calls with different ids, or none, with no hyphen in their names, which differ pairwise in name or arguments all survive. |
| `ToolCalls.EmptyIdsSurvive` | internal/parsers/dedup.go:24-71 | Two calls with empty ids and different keys both survive. |
| `ToolCalls.HyphenDropsCall` | internal/parsers/dedup.go:56-70 | Two calls with different ids, names and arguments of which the second is dropped because of a hyphen. |
| `Json.WriteString` | internal/pyjson/dumps.go:184-262 | The two string writers append the quoted string. |
| `Json.WriteValue` | internal/pyjson/dumps.go:83-125 | The recursive writers append the printed value. |
| `Json.WriteObject` | internal/pyjson/dumps.go:127-159 | An object, with ", " and ": " separators. |
| `Json.WriteArray` | internal/pyjson/dumps.go:161-178 | An array. |
| `Json.QuoteRoundTrip` | internal/pyjson/dumps.go:184-262 | Reading a printed string back by RFC 8259 section 7 returns it, for every string and in both escaping modes. |
| `Json.UnescapeEscape` | internal/pyjson/dumps.go:184-262 | So does each character, surrogate pairs included. |
| `Json.UnescapePair` | internal/pyjson/dumps.go:251-257 | The surrogate pair of a code point above U+FFFF denotes that code point. |
| `Json.PrintPrintable` | internal/pyjson/dumps.go:83-262 | A printed value holds no control character; in ASCII mode it is printable ASCII. |
| `Json.PythonArray` | internal/pyjson/dumps.go:161-178 | A comma and a blank between items. |
| `Json.PythonObject` | internal/pyjson/dumps.go:127-159 | A comma and a blank between members, a colon and a blank behind keys. |
| `Json.ShortForms` | internal/pyjson/dumps.go:184-262 | The short escapes of json.dumps, and no escape for a slash. |
| `Json.LongForms` | internal/pyjson/dumps.go:184-262 | Other control characters, and in ASCII mode everything above the tilde, as four lower-case hexadecimal digits. |
| `JsonReader.ParsePrinted` | internal/pyjson/dumps.go:83-262 | Every printed value reads back as itself by RFC 8259, in both escaping modes, exactly when it is not nested deeper than the decoder accepts; a deeper one is rejected. |
| `Numbers.NumberIff` | internal/pyjson/dumps.go:83-125 | A text passes as a number exactly when it is spelled by the grammar of RFC 8259, section 6. |
| `Pipelines.StreamPipeline.Feed` | internal/streamingcore/pipeline.go:37-131 | The events of one chunk and the new state. |
| `Pipelines.StreamPipeline.LiftEvent` | internal/streamingcore/pipeline.go:44-120 | What one parser event becomes: thinking before content, empty texts dropped. |
| `Pipelines.StreamPipeline.AppendTools` | internal/streamingcore/pipeline.go:157-169 | The tool calls as events; an id that is not a string panics. |
| `Pipelines.StreamPipeline.Finish` | internal/streamingcore/pipeline.go:135-180 | Flushed thinking, flushed content, tool calls, diagnosis, in this order. |
| `ToolReports.CallsAreReported` | internal/streamingcore/pipeline.go:157-247 | The i-th tool event of any stream has the id and name of the i-th call of the pipeline and as its input the object the arguments decode to, or an empty one when they do not. |
| `ToolReports.CallReachesClient` | internal/streamingcore/pipeline.go:157-247 | A stream of a start, fragments and a stop, with noise between: the client gets one tool block with the call's id and name, one delta with the printed form of the decoded arguments, and nothing else. |
| `ToolReports.StreamIsAssembled` | internal/streamingcore/pipeline.go:37-180 | For every byte stream the calls are those of its starts with their fragments, deduplicated, and the parser's events are those its objects report. |
| `ToolReports.DiagnosisIff` | internal/streamingcore/pipeline.go:123-180 | The last event of a stream is the diagnosis of its last truncated call; without one there is no diagnosis at all. |
| `NativeEvents.NativeArrives` | internal/streamingcore/pipeline.go:71-120 | For every stream the events carry exactly the native thinking, signatures, redacted data, usage and refusals of its objects, each from its own field, in order. |
| `Counterexamples.NonStringIdStops` | internal/streamingcore/pipeline.go:157-215 | A stream that is one tool start with an id that is not a string: Finish panics, and the client gets message_start and nothing else. |
| `Pipeline.ThinkingBeforeContent` | internal/streamingcore/pipeline.go:37-180 | For every byte stream, chunking and decoder no thinking event follows a content event. |
| `Pipeline.EventsIndependentOfChunking` | internal/streamingcore/pipeline.go:37-180 | Two ways of cutting one stream between characters give the same events, apart from repeated diagnoses, and the same state. |
| `NativeEvents.StreamHasNoEmptyDelta` | internal/streaminganthropic/formatter.go:191-257 | No stream makes the client a text or thinking delta without text. |
| `Formatters.BlockIndex.CloseThinking` | internal/streaminganthropic/block_index.go:36-44 | Closes an open thinking block and advances the index. |
| `Formatters.BlockIndex.CloseText` | internal/streaminganthropic/block_index.go:49-57 | The same for text. |
| `Formatters.BlockIndex.OpenThinking` | internal/streaminganthropic/block_index.go:63-70 | Opens at the running index unless open. |
| `Formatters.BlockIndex.OpenText` | internal/streaminganthropic/block_index.go:76-83 | The same for text. |
| `Formatters.BlockIndex.ReserveToolBlock` | internal/streaminganthropic/block_index.go:90-94 | Takes the running index and advances it. |
| `Formatters.StreamFormatter.Handle` | internal/streaminganthropic/formatter.go:148-186 | The frames and the new state of one event. |
| `Formatters.StreamFormatter.HandleContent` | internal/streaminganthropic/formatter.go:191-213 | Content closes thinking, opens text, and is recorded. |
| `Formatters.StreamFormatter.HandleThinking` | internal/streaminganthropic/formatter.go:219-257 | Thinking by mode: a thinking block, text, or nothing; always recorded. |
| `Formatters.StreamFormatter.HandleToolUse` | internal/streaminganthropic/formatter.go:270-302 | A tool call closes what is open and writes its block; a truncated one is recorded. |
| `Formatters.StreamFormatter.EmitToolUseBlock` | internal/streaminganthropic/formatter.go:307-328 | Start, one delta, stop at a fresh index. |
| `Formatters.StreamFormatter.HandleNativeThinking` | internal/streaminganthropic/native_thinking.go:19-28 | Native thinking opens its block after closing text. |
| `Formatters.StreamFormatter.HandleThinkingSignature` | internal/streaminganthropic/native_thinking.go:32-49 | A signature is the last delta of its block. |
| `Formatters.StreamFormatter.HandleRedactedThinking` | internal/streaminganthropic/native_thinking.go:53-68 | A redacted block opens and closes at once. |
| `Formatters.StreamFormatter.OpenNativeThinking` | internal/streaminganthropic/native_thinking.go:73-88 | Opens an unsigned block unless one is open. |
| `Formatters.StreamFormatter.EmitBracketToolCall` | internal/streaminganthropic/finish.go:178-200 | A bracket call is written like a tool call. |
| `Formatters.StreamFormatter.ChooseStopReason` | internal/streaminganthropic/finish.go:65-82 | Refusal, truncation, tool use, end of turn, in this order. |
| `Formatters.StreamFormatter.Finish` | internal/streaminganthropic/finish.go:27-97 | Bracket calls, closing stops, message_delta, message_stop. |
| `Protocol.BlocksAreNumbered` | internal/streaminganthropic/block_index.go:13-20 | An accepted stream opens blocks 0, 1, 2, ... and closes each once, in that order. |
| `Formatter.HandleLeads` | internal/streaminganthropic/formatter.go:148-328 | One event in a safe place keeps the client in step with the block fields. |
| `Formatter.Clash` | internal/streaminganthropic/formatter.go:222-234 | A thinking block opened while text is open reuses the text block's index, and the client sees a violation. |
| `Formatter.WellFormedIff` | internal/streaminganthropic/formatter.go:148-328 | For every list of events the stream is well-formed if and only if no thinking event meets an open text block (as_reasoning_content mode; always in the others). |
| `Formatter.ThinkingFirstIsSafe` | internal/streaminganthropic/formatter.go:215-257 | Thinking before content suffices, however native thinking, tools and the rest interleave. |
| `Grouping.FramesAreGroups` | internal/streaminganthropic/formatter.go:148-328 | The blocks a client reads are the groups of the events: neighbouring texts, neighbouring thinking with its signature, redacted blocks and calls, for every safely ordered list. |
| `Streams.FeedAll` | internal/routesanthropic/stream.go:89-108 | The read loop hands every event of every chunk to the formatter. |
| `Streams.Conclude` | internal/routesanthropic/stream.go:102-121 | After the loop: drain, close, or stop where the body broke. |
| `Streams.Drive` | internal/routesanthropic/stream.go:81-122 | message_start, the loop, the drain and the closing frames, or the prefix of a broken response. |
| `Streams.EveryStreamIsWellFormed` | internal/routesanthropic/stream.go:81-122 | For every byte stream, chunking, decoder, mode and library the client never sees a violation of the block protocol, and the message is complete exactly when the body did not break and every tool call could be reported. |
| `Grouping.BrokenIsGrouped` | internal/routesanthropic/stream.go:102-121 | When the body breaks the client has read the groups of the events so far. |
| `Streams.OutputIndependentOfChunking` | internal/routesanthropic/stream.go:81-122 | Two ways of cutting one stream between characters write the same frames. |
| `StreamWriters.StreamWriter.Write` | internal/routesanthropic/stream_ping.go:37-42 | Appends one event and marks the stream started. |
| `StreamWriters.StreamWriter.SendPing` | internal/routesanthropic/stream_ping.go:52-61 | A ping goes out only after the first event. |
| `StreamWriters.Perform` | internal/routesanthropic/stream_ping.go:30-86 | Any schedule of writes and ticks on the writer. |
| `StreamWriters.PingsAreHarmless` | internal/routesanthropic/stream_ping.go:30-86 | Under every schedule deleting the pings gives what the pipeline wrote, no ping is first, and the protocol state is the same. |
| `StreamWriters.EveryLateTickPings` | internal/routesanthropic/stream_ping.go:52-86 | Every tick behind the first frame reaches the client as one ping, and no other ping does. |
| `Streams.EveryPingedStreamIsWellFormed` | internal/routesanthropic/stream_ping.go:30-86 | The same for whole responses, with message_start first. |
| `Sse.FormatEvent` | internal/sse/framing.go:20-36 | The event line if named, the data line, the blank line. |
| `Sse.SplitSseData` | internal/routesanthropic/collect.go:249-264 | The nested loops compute the specified split. |
| `Sse.SplitOfFramed` | internal/sse/framing.go:20-36 | Splitting framed events gives back exactly their payloads, for all one-line payloads without outer spaces (section 9.2.5 of the WHATWG HTML standard). |
| `Sse.TrimSpaceIs` | internal/routesanthropic/collect.go:249-264 | Trimming takes the spaces off both ends, all of them and nothing else. |
| `SseClient.ClientReadsBack` | internal/sse/framing.go:20-36 | A client that follows section 9.2.6 of the WHATWG HTML standard reads back exactly the framed events, names and data, in order. |
| `Wire.ReadFrame` | internal/routesanthropic/collect.go:99-153 | The collector reads each frame's JSON as what the frame says. |
| `Wire.DecimalRoundTrip` | internal/routesanthropic/collect.go:205-205 | A block index survives printing and reading. |
| `Replies.WriteEvent` | internal/streaminganthropic/payloads.go:28-39 | Print, frame and append one event. |
| `Wire.MessageFields` | internal/streaminganthropic/payloads.go:40-59 | message_start is an empty assistant message of the model asked for. |
| `Replies.CollectorGetsFrames` | internal/routesanthropic/collect.go:86-154 | Writing, framing, splitting, parsing and reading is the identity on frames, with the reader of the rows above as the parser. |
| `EndToEnd.ClientGetsFrames` | internal/streaminganthropic/payloads.go:28-39 | Such a client gets one event per frame of a response, named for it, whose data say what the frame says. |
| `Collect.GatherBlocks` | internal/routesanthropic/collect.go:96-154 | The loop with its list and its index table, which share the accumulator objects. |
| `Collect.CollectResponse` | internal/routesanthropic/collect.go:86-171 | The reply built from the bytes. |
| `Collect.BuildContentBlocks` | internal/routesanthropic/collect.go:177-199 | The blocks in opening order; unusable tool input becomes "{}". |
| `Collect.PrintedInput` | internal/routesanthropic/collect.go:191-195 | The input of a tool block is exactly what its deltas said, for every printed object within the decoder's nesting limit. |
| `Collect.InputIs` | internal/routesanthropic/collect.go:191-195 | The input is always usable JSON; it is "{}" exactly when the deltas, trimmed, are empty, "{}" or no JSON, and otherwise the trimmed deltas. |
| `NonStreaming.CollectorSees` | internal/routesanthropic/collect.go:96-154 | On every stream the protocol accepts, routing deltas by index collects the block types, texts, thinking, signatures, tool calls and redacted data that a reader of the frames sees. |
| `NonStreaming.CollectorReadsOff` | internal/routesanthropic/collect.go:96-154 | The blocks routed by index are, one by one and in order, those of a reader who ignores indices and gives each delta to the last block. |
| `NonStreaming.FramesShow` | internal/streaminganthropic/formatter.go:148-328 | The frames of any events show exactly their text, thinking, redacted blocks and tool calls, those of the stream before the bracket calls. |
| `NonStreaming.FramesStop` | internal/streaminganthropic/finish.go:65-96 | The stop reason is the one the events call for. |
| `NonStreaming.TruncationsRecorded` | internal/streaminganthropic/formatter.go:291-299 | The truncated calls are recorded under the ids that were sent. |
| `Replies.ReplyMatchesStream` | internal/routesanthropic/collect.go:79-171 | For every byte stream and chunking the non-streaming reply has the id, stop reason, text, thinking, redacted data and tool calls of the stream, the calls with exactly the inputs sent where these are printed objects, and its blocks are, in order, those a streaming client reads. |
| `Grouping.ReplyIsGrouped` | internal/routesanthropic/collect.go:79-199 | The blocks of that reply are, one by one, the groups of the events: text, thinking with its signature, redacted data, calls with their inputs. |
| `Replies.ServeNonStreaming` | internal/routesanthropic/stream.go:209-231 | The stream driven into a buffer and collected: a reply as in the row above, or none exactly when the body broke or a tool id is not a string. |
| `EndToEnd.StreamTexts` | internal/streamingcore/pipeline.go:44-69 | Thinking and content events concatenate to the one-shot reading of the concatenated content strings. |
| `EndToEnd.ReplyTextIsContent` | internal/routesanthropic/collect.go:79-171 | So the reply's text is the content part of that reading. |
| `EndToEnd.OtherModesDropThinking` | internal/routesanthropic/handler.go:128-145 | In every mode but as_reasoning_content the client is shown no thinking, whatever the pipeline delivers. |
| `Counterexamples.ThinkingIsDelivered` | internal/routesanthropic/handler.go:128-145 | A stream whose thinking the pipeline does deliver in the modes pass and strip_tags, and of which nothing is shown. |
| `Bpe.LookUp` | internal/tokenizer/bpe.go:56-65 | The rank of a pair by a fresh lookup. |
| `Bpe.InitialParts` | internal/tokenizer/bpe.go:51-71 | One part per byte with all ranks cached. |
| `Bpe.FindBest` | internal/tokenizer/bpe.go:74-81 | The scan over cached ranks finds the leftmost pair of lowest rank. |
| `Bpe.MergeParts` | internal/tokenizer/bpe.go:86-93 | Deleting one offset and patching two ranks is one merge, and every cached rank again equals a fresh lookup. |
| `Bpe.BytePairEncode` | internal/tokenizer/bpe.go:36-101 | The ids are those of the last parts of a list that starts with single bytes, merges the leftmost pair of lowest rank at each step, and ends where no pair is a token. |
| `Bpe.BestIs` | internal/tokenizer/bpe.go:74-81 | The best pair has the lowest rank, and the leftmost place among those of that rank. |
| `Bpe.MergeAllResult` | internal/tokenizer/bpe.go:73-94 | Merging loses no byte, ends with no mergeable pair, and makes only vocabulary tokens. |
| `Bpe.GreedyExists` | internal/tokenizer/bpe.go:73-94 | Every list of parts leads, merging the leftmost pair of lowest rank at each step, to a list without a mergeable pair, the one of the simple form. |
| `Bpe.GreedyIsUnique` | internal/tokenizer/bpe.go:73-94 | There is only one such list of steps. |
| `Bpe.PieceRoundTrip` | internal/tokenizer/bpe.go:36-101 | Decoding a piece's ids returns its bytes if all its bytes are tokens and no two tokens share a rank. |
| `Pretoken.MatchApostrophe` | internal/tokenizer/pretoken.go:145-165 | Alternative 1. |
| `Pretoken.MatchLetters` | internal/tokenizer/pretoken.go:205-227 | Alternative 2. |
| `Pretoken.MatchDigits` | internal/tokenizer/pretoken.go:233-248 | Alternative 3. |
| `Pretoken.MatchOther` | internal/tokenizer/pretoken.go:259-279 | Alternative 4. |
| `Pretoken.MatchSpaceEnd` | internal/tokenizer/pretoken.go:285-298 | Alternative 5. |
| `Pretoken.MatchSpaceCRLF` | internal/tokenizer/pretoken.go:312-329 | Alternative 6. |
| `Pretoken.MatchHoldback` | internal/tokenizer/pretoken.go:342-359 | Alternative 7, where 5 and 6 have failed. |
| `Pretoken.MatchSpace` | internal/tokenizer/pretoken.go:366-375 | Alternative 8. |
| `Pretoken.OtherIs` | internal/tokenizer/pretoken.go:43-48 | Treating the optional blank of alternative 4 as possessive loses nothing. |
| `Pretoken.SpaceCRLFIs` | internal/tokenizer/pretoken.go:53-58 | Alternative 6 ends behind the last line break of the run of spaces. |
| `Pretoken.HoldbackIs` | internal/tokenizer/pretoken.go:60-66 | Alternative 7 holds back exactly the last space. |
| `Pretoken.NextPretokenEnd` | internal/tokenizer/pretoken.go:106-135 | Returns the end of the leftmost-first match of the quoted pattern, and advances. |
| `Pretoken.AlwaysMatches` | internal/tokenizer/pretoken.go:131-134 | The eight alternatives match at every position, so the fallback is dead. |
| `Pretoken.TablesAre` | internal/tokenizer/pretoken.go:43-66 | The classes of the pattern, character by character: line breaks, letters in either case, the long s, and the negated classes. |
| `Pretoken.SplitPretokens` | internal/tokenizer/pretoken.go:77-101 | The pieces are all successive matches of the pattern. |
| `Pretoken.PiecesCover` | internal/tokenizer/pretoken.go:77-101 | They are non-empty and concatenate to the text. |
| `Tokenizer.EncodeOrdinary` | internal/tokenizer/bpe.go:113-126 | Encodes every piece in order. |
| `Tokenizer.PieceIsGreedy` | internal/tokenizer/bpe.go:113-126 | The tokens of each piece are those of any such list of steps from its bytes. |
| `Tokenizer.RoundTrip` | internal/tokenizer/bpe.go:113-126 | Decoding the tokens of any text returns its bytes, under the same conditions on the vocabulary. |
| `Messages.ResultsToText` | internal/converterscore/text.go:43-77 | The text of tool results. |
| `Messages.CallsToText` | internal/converterscore/text.go:10-39 | The text of tool calls. |
| `Messages.TextsNotEmpty` | internal/converterscore/text.go:10-77 | Tool content always leaves text behind. |
| `Messages.ToolTexts` | internal/converterscore/text.go:10-77 | The texts with and without name, id, arguments and content. |
| `Normalize.EnsureAssistantBeforeToolResults` | internal/converterscore/normalize.go:29-73 | The loop; modified is reported exactly when some tool result had no call before it. |
| `Normalize.StripAllToolContent` | internal/converterscore/thinking.go:237-287 | The loop; modified exactly when there was tool content. |
| `Normalize.MergeAdjacentMessages` | internal/converterscore/normalize.go:97-131 | The loop that updates the last message in place. |
| `Normalize.EnsureFirstMessageIsUser` | internal/converterscore/normalize.go:170-184 | A filler in front unless a user is first. |
| `Normalize.NormalizeMessageRoles` | internal/converterscore/normalize.go:198-219 | Every other role becomes user. |
| `Normalize.EnsureAlternatingRoles` | internal/converterscore/normalize.go:237-254 | A filler between two users. |
| `Normalize.AnchorIs` | internal/converterscore/normalize.go:29-73 | Afterwards every tool result follows an assistant with tool calls; nothing changes exactly when that held before. |
| `Chains.MergeKeeps` | internal/converterscore/normalize.go:97-131 | Merging keeps that, leaves neighbours of different roles and no tool result on an assistant. |
| `Chains.RunIsMerged` | internal/converterscore/normalize.go:97-131 | A run of messages of one role becomes one message: the contents on lines of their own, an assistant's calls and first reasoning, a user's results, in order. |
| `Chains.MergeLosesIff` | internal/converterscore/normalize.go:97-131 | Merging anchored messages keeps all tool calls of assistants and every line of text in order, and all tool results exactly when no assistant message carries any. |
| `Chains.TrappedResultIsLost` | internal/converterscore/normalize.go:97-131 | Two assistant messages, a call and its result: the result is anchored, and merging drops it. |
| `Chains.AlternateKeeps` | internal/converterscore/normalize.go:237-254 | Fillers make the roles alternate and separate no tool result from its calls. |
| `Chains.ChainIsGood` | internal/converterscore/payload.go:258-268 | For any messages the chain ends in strict alternation from user on with every tool result behind its calls. |
| `Chains.ChainWithoutTools` | internal/converterscore/payload.go:258-268 | Without tools no tool content survives. |
| `Chains.ChainKeepsTools` | internal/converterscore/payload.go:258-268 | With tools no tool call of an assistant is lost, and no tool result behind calls is lost if and only if none is on an assistant message. |
| `Chains.ConvertedKeepsTools` | internal/convertersanthropic/converters_messages.go:80-117 | Nothing is lost of messages whose tool results are all on user messages, as the converter makes them. |
| `Payloads.BuildKiroHistory` | internal/converterscore/payload.go:29-93 | The history entries. |
| `Payloads.SplitCurrent` | internal/converterscore/payload.go:274-359 | History, current message, system prompt and placeholder. |
| `Payloads.BuildKiroPayload` | internal/converterscore/payload.go:229-391 | The whole build; it panics on an empty list only. |
| `Payloads.PayloadIsGood` | internal/converterscore/payload.go:258-359 | For every non-empty list of messages with any roles history and current message alternate, start and end with user, and every tool result directly follows an assistant entry with tool uses. |
| `Payloads.PayloadWithoutTools` | internal/converterscore/payload.go:258-341 | Without tools neither tool uses nor tool results reach Kiro. |
| `PayloadLaws.SystemPromptOnce` | internal/converterscore/payload.go:281-300 | The system prompt is put in front of exactly one message, the first, and changes nothing else. |
| `PayloadText.AssembledIs` | internal/converterscore/payload.go:281-359 | Every entry spelled out by its message: content or placeholder, system prompt in front of the first, thinking tags in front of a current user message, tool uses, tool results, reasoning; a trailing assistant bare before a placeholder. |
| `PayloadText.ChainTells` | internal/converterscore/payload.go:258-268 | The chain keeps every word of the messages, in order and on its side of the conversation. |
| `PayloadText.NothingSaidIsLost` | internal/converterscore/payload.go:229-391 | For every non-empty list of messages the entries are spelled out as above, and every content and every name, id, argument text and result that becomes text reaches Kiro whole, in order, in an entry of the right side. |
| `PayloadLaws.PayloadKeepsTools` | internal/converterscore/payload.go:291-341 | All tool results behind calls reach Kiro, in order, exactly when none is on an assistant message; all tool calls do exactly when the trailing run of assistant messages has none. |
| `PayloadLaws.EmptyContentOnlyWhenMoved` | internal/converterscore/payload.go:302-316 | Some entry has empty content exactly when the last message given is an assistant's without content, without anything that becomes text, and not behind another assistant message. |
| `PayloadLaws.EmptyMessageShows` | internal/converterscore/payload.go:302-316 | One empty assistant message gives an entry with empty content, two do not. |
| `Trim.Conversation.StripEmptyToolUses` | internal/converterscore/payloadtrim.go:44-52 | Empty lists of tool uses go. |
| `Trim.Conversation.DropPairs` | internal/converterscore/payloadtrim.go:197-200 | The pairs loop, with the payload in step with the local variable. |
| `Trim.Conversation.TrimPayloadToLimit` | internal/converterscore/payloadtrim.go:170-216 | The history after trimming. |
| `Trim.AlignToUserMessage` | internal/converterscore/payloadtrim.go:61-70 | Drops leading entries until a user's. |
| `Trim.RepairOrphans` | internal/converterscore/payloadtrim.go:77-157 | The repair loop. |
| `Trim.StripIs` | internal/converterscore/payloadtrim.go:44-52 | Exactly the empty lists of tool uses go; content, reasoning and every other entry stay. |
| `Trim.FewestPairs` | internal/converterscore/payloadtrim.go:184-200 | The fewest leading pairs go after which the payload fits or at most two entries remain. |
| `Trim.RepairIs` | internal/converterscore/payloadtrim.go:77-157 | Afterwards every user entry has exactly those of its tool results, in order, that answer a tool use of the entry directly before it; nothing changes exactly when all did. |
| `Trim.AlignIsNoOp` | internal/converterscore/payloadtrim.go:61-70 | Alignment does nothing to a history that starts with a user entry. |
| `Trim.TrimmedIs` | internal/converterscore/payloadtrim.go:170-216 | For any history the result is a suffix that is empty or starts with a user entry, repaired as in the row above. |
| `Trim.TypedOrphansVanish` | internal/converterscore/payloadtrim.go:115-131 | The text of a dropped result of the kind this package builds is not preserved. |
| `Trim.LooseTextsStay` | internal/converterscore/payloadtrim.go:111-153 | Every non-empty text of a dropped result in loose parts stands in the repaired entry, behind the content it had. |
| `Trim.TwoTextsMarked` | internal/converterscore/payloadtrim.go:140-153 | Two dropped texts: the marker, then both joined by a semicolon. |
| `Trim.BuiltAndTrimmed` | internal/converterscore/payload.go:386-388 | Building and trimming at any limit keeps the alternation and leaves every tool result, the current message's included, behind an assistant entry with tool uses. |
| `Accounts.QuarantineWindow` | internal/accountmanager/breaker.go:13-38 | base times the minimum of 2^(fails-1) and the cap, with no multiplier above max(1, cap) on the way. |
| `Accounts.WindowMonotone` | internal/accountmanager/breaker.go:13-38 | More failures never shorten the window, and it never exceeds base times cap. |
| `Selection.ChoiceFollowsReports` | internal/accountmanager/selection.go:14-48 | For every history of reports: one of several accounts is chosen exactly as the reports say, the first in circular order that is on, untried and, if its last failure is within base times min(2^(n-1), cap) for its n failures in a row, granted a retry by its draw. |
| `Selection.FailedAccountRests` | internal/accountmanager/breaker.go:44-68 | An account whose last counted report is a failure is not chosen among several before its window has passed, unless its draw is below the retry chance. |
| `Selection.FailedAccountReturns` | internal/accountmanager/breaker.go:44-68 | From then on, or with such a draw, the search does not fail, and the account is chosen if those before it are off or tried. |
| `Selection.JustFailedIsSkipped` | internal/accountmanager/breaker.go:44-68 | Two accounts, the first just failed: the second is chosen, and after the window the first again. |
| `Selection.MessageIsLast` | internal/accountmanager/failover.go:94-184 | An account's message is that of the last report about it; a success clears it. |
| `Accounts.WindowDoubles` | internal/accountmanager/breaker.go:13-38 | The window is the base after one failure and doubles with every further one, up to base times cap. |
| `AccountManagers.Manager.IsInQuarantine` | internal/accountmanager/breaker.go:44-68 | Failures, the window and the random exemption. |
| `AccountManagers.Manager.NextEnabledIdx` | internal/accountmanager/selection.go:14-48 | The scan returns the first eligible account in circular order from the sticky one. |
| `Accounts.ExhaustedMeansNone` | internal/accountmanager/selection.go:25-47 | With several accounts selection fails only if every account was ineligible when visited. |
| `Accounts.ChosenIsEligible` | internal/accountmanager/failover.go:39-76 | One of several accounts is chosen only if eligible; a single one is chosen in any state unless tried already. |
| `Accounts.ExhaustedSaysWhy` | internal/accountmanager/failover.go:56-87 | A failed search gives the message of the account in front of the sticky one, or of the single account, if it has one, and a default otherwise. |
| `AccountManagers.Manager.GetNextAccount` | internal/accountmanager/failover.go:39-88 | The choice, with the single-account bypass and the exhaustion messages. |
| `AccountManagers.Manager.ReportSuccess` | internal/accountmanager/failover.go:94-117 | Resets the statistics and moves the sticky index. |
| `AccountManagers.Manager.ReportFailureAs` | internal/accountmanager/failover.go:155-184 | Records the message; only a recoverable failure counts and opens quarantine. |
| `Accounts.CountersAreExact` | internal/accountmanager/failover.go:94-184 | Over every interleaving of reports each counter is the number of recoverable failure reports behind that account's last success report, and the sticky index is in range and is that of the account named by the last success report. |
| `Failover.TakeRound` | internal/routesanthropic/failover.go:73-89 | One round of the loop, with reports of other requests before and during it. |
| `Failover.FailoverMessages` | internal/routesanthropic/failover.go:67-90 | The loop ends under any interference and makes a run. |
| `Failover.RunIsBounded` | internal/routesanthropic/failover.go:67-90 | A run makes at most one attempt per account id, whatever other requests report. |
| `Failover.IdealRun` | internal/routesanthropic/failover.go:67-90 | With distinct ids, all accounts enabled, none in quarantine when its turn comes, no interference and only recoverable failures a run tries each account exactly once, in circular order. |
| `Failover.AttemptLeaves` | internal/routesanthropic/failover.go:67-90 | What an attempt leaves for later requests: success clears the account and makes it sticky, a fatal error leaves its message, a recoverable one counts and is dated, nothing else changes. |
| `Failover.ExhaustionMessageIff` | internal/accountmanager/failover.go:36-87 | The message of a failed selection is that of the account in front of the sticky one, so it is the last attempted account's, as its comment says, exactly when that is the same account (if their messages differ). |
| `Failover.WrongAccountNamed` | internal/accountmanager/failover.go:78-87 | Two accounts, the second disabled: the first is tried and the message is the second one's, which the client sees if the failure had none. |
| `Failover.GivingUp` | internal/routesanthropic/failover.go:222-258 | A single account is tried once and its own status and message are the answer; without accounts and with several the answer is 503, with several naming the last error. |
| `Failover.FullCircleAnswer` | internal/routesanthropic/failover.go:222-258 | After a full circle under the same conditions the last attempted account is the one in front of the sticky one, and the answer carries its message. |
| `Schema.SanitizedMembers` | internal/converterscore/tools.go:25-87 | The result has no additionalProperties and no empty required at any schema position, and a schema is unchanged exactly when it had none. |
| `Schema.SanitizeIsIdempotent` | internal/converterscore/tools.go:25-87 | Sanitizing twice is sanitizing once. |
| `Schema.PrunedIff` | internal/converterscore/tools.go:25-87 | The result is, at every depth, the schema without exactly the rejected members, every other member under its key and in its order, every property name, array length and other value the same; nothing else is. |
| `Schema.KeptFromIs` | internal/converterscore/tools.go:30-55 | The places of the members that stay are all those not rejected, in order. |
| `Schema.SanitizeProperties` | internal/converterscore/tools.go:62-72 | Property names stay, whatever they spell. |

## Left out

- Streams.EveryStreamIsWellFormed: does not model failing writes to the client; a write error ends the
  response early, like a broken body.
- Thinking.EmittedMeetsSpec: the content is the one-shot content up to the blanks of a later chunk, because
  that is what the source does; the exact condition is `Thinking.ContentTrimmedIff`. A table with an empty tag,
  on which the source panics, and one whose tags hide each other (`Thinking.DetectionIff`) are not covered.
- EventParser.FeedSplit: the condition is exact for the cleaning of chunks and for streams behind every stream
  (`ChunkBorders.HarmlessIff`); for one given buffer a lost byte may fall into noise and not show.
- StreamParsers.StreamParser.ProcessContent: the comparison of two decoded contents is a parameter.
- StreamParsers.StreamParser.FinalizeToolCall: reformatting, truncation diagnosis and argument texts are
  parameters of the parser.
- Replies.CollectorGetsFrames: keys are compared exactly, whereas Go's decoder also accepts other cases; the
  frames written here have exact keys. The usage objects in a frame must not exhaust the decoder's nesting limit.
- Replies.ReplyMatchesStream: strings are characters; bytes that are not valid UTF-8 inside them are not
  modelled.
- JsonReader.ParsePrinted: a number keeps its text; its conversion to a float is not modelled.
- Collect.GatherBlocks: the usage fields of message_start and message_delta are not collected.
- Collect.CollectResponse: the reply has no model and no usage.
- Formatters.StreamFormatter.Handle: cache usage and the context percentage are not recorded, only that a
  context usage was seen.
- Formatters.StreamFormatter.Finish: message_delta carries no token counts.
- Pipelines.StreamPipeline.LiftEvent: a usage event carries the whole object's bytes and a context-usage event
  the number's text; the field extraction and the refusal details are not modelled.
- Json.WriteValue: the source reformats a token stream; the model prints the tree those tokens denote. Number
  formatting, invalid UTF-8 in strings and the error for a malformed stream are not modelled.
- Accounts.QuarantineWindow: durations are unbounded integers; overflow of 64-bit nanoseconds is not modelled.
- Tokenizer.RoundTrip: assumes that every byte is a token and that no two tokens share a rank; the vocabulary
  file is not part of this model.
- Pretoken.NextPretokenEnd: works on characters; byte offsets and invalid UTF-8 are not modelled. The Unicode
  classes are parameters that must not overlap.
- Pretoken.SplitPretokens: the same.
- Failover.FailoverMessages: the response body of the error and the per-attempt HTTP request are not modelled;
  an attempt is one of four outcomes.
- Payloads.BuildKiroHistory: images are not carried, and tool arguments stay texts.
- Payloads.BuildKiroPayload: images, model id, conversation id, profile and tool definitions are not carried
  in the payload; message content is a string, which is what both converters produce. Tool names that are too
  long make the source panic before this point.
- Normalize.MergeAdjacentMessages: content given as a list of blocks, and images, are not modelled.
- Trim.Conversation.TrimPayloadToLimit: the payload is its history and current message; sizes come from a
  parameter.
- Schema.SanitizedMembers: an object is a list of members; Go's map has no order.
- Token counts, usage fields and the float arithmetic behind them.
- ParseBracketToolCalls: its result is a parameter of the formatter.
- The OpenAI dialect, which is a simpler twin of the Anthropic one.
- HTTP routing, authentication, credential storage, model discovery, configuration and logging.
