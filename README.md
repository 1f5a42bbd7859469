# RESP2/RESP3 resumable reply parser, in Dafny

This project models the parser state that `createParserState` builds in
`src/resp3_parser.ts`. That state has four parts:

- a byte buffer, `chunk`;
- a read cursor, `count`;
- a stack of suspended routines;
- a `BlobComposer`.

The model also covers the two helper files, `src/blob_composer.ts` and
`src/utils.ts`.

`process()` decodes one reply of the Redis serialization protocol, RESP2 or
RESP3, starting at the cursor. When the bytes run out in the middle of a
reply, every routine on the way pushes a frame. A frame records which routine
it is and the locals it needs. The routine then returns `undefined`. The next
`process()`, after `appendChunk`, pops the frames and carries on where it
stopped.

The main result is that the reply does not depend on how the input is cut
into chunks. `Resp3.ParserState.Process` gives what the reference reading
`RefReply` gives, and so does every `process()` after any number of
`appendChunk` calls. `RefReply` is a plain recursive descent over all the
bytes received since the reply started. The agreement covers the value, the
cursor where the reply ends, `undefined` exactly where those bytes run short,
and the exception. It rests on the class invariant `Valid()`. That invariant
says the suspended stack, resumed on all bytes received, reads that same
reply, whatever bytes come later (`Reading.ReadsFrom`). Every routine keeps
the invariant. A routine that suspends leaves frames whose continuation
reading (module `Continuation`) is what the routine, restarted on the whole
input, would read.

This result holds for the machine with two corrections, which the rest of the
model uses. The code as written breaks it in two places: after a `null`
attribute map, and when a streamed list or streamed map resumes over a
suspended element. "## Findings" gives an input for each, read both ways.

Files:

- `utils.dfy` (module `Utils`)
  - bytes, the `ASCII` table, and JavaScript's `o += undefined`
  - `decode`, with its short ASCII path
  - `concat`
- `blob_composer.dfy` (module `Composer`)
  - the `BlobComposer` class, whose `parts` field is updated in place
  - `compose`'s copy loop
- `resp.dfy` (module `Resp`)
  - the reply values: `Reply`, `Entry`, `Size`, `Blob`
  - one `Frame` constructor per resumable routine, carrying the locals that routine pushes
  - the outcome of a routine: `Step`, which is `Ready`, `Pending` (for `undefined`) or `Threw`
  - `Chain`, the well-formedness of a stack of frames
- `lines.dfy` (module `Lines`)
  - specifications of the line scans: where a line stops, its bytes, and the decimal fold with its switch to `BigInt`
  - the scanning loops, as methods proved against those specifications
- `reference.dfy` (module `Reference`)
  - a reference reading of one reply from a complete buffer, by plain recursive descent with no frames and no composer
  - one function per routine; each moves the position exactly as the routine moves `count`
  - an outcome is a value with the position after it, `Short` where the routine would suspend, or the exception
- `stability.dfy` (module `Stability`)
  - a reference reading that gives a value or throws on some bytes gives the same on those bytes followed by any others
- `rebase.dfy` (module `Rebase`)
  - a reference reading gives the same value wherever its bytes sit in the buffer, with every position shifted
- `continuation.dfy` (module `Continuation`)
  - the reading of a stack of frames: the top frame's routine resumed with its saved locals over the frames below it
  - this is what `call` does when it pops a frame
- `resumed_rebase.dfy` and `resumed_stability.dfy` (modules `ResumedRebase` and `ResumedStability`)
  - the stack's reading also does not depend on where its bytes sit
  - once the stack's reading is decided, later bytes leave it as it is
- `resumption.dfy` (module `Resumption`)
  - a leaf scan cut at the end of the buffer, resumed from its saved locals, reads what the uncut scan reads
  - every routine started on an empty stack reads as its reference reading
- `suspension.dfy` (module `Suspension`)
  - for each routine, the frames it pushes when it suspends read what the routine, restarted, reads
- `reading.dfy` (module `Reading`)
  - `ReadsFrom`, the invariant that ties the state to `RefReply` of all received bytes, and how it survives `appendChunk` and a buffer that is replaced
- `parser.dfy` (module `Resp3`)
  - the `ParserState` class
  - one method per routine of `createParserState`, plus the five public operations
- `findings.dfy` (module `Findings`)
  - the inputs on which the code as written depends on where the input is split

## Model

| member | source | states |
|---|---|---|
| Utils.AsciiTable | src/utils.ts:5-7 | 128 entries; entry `i` is the one character whose code is `i` |
| Utils.Decode | src/utils.ts:12-53 | two cases go character by character through `ASCII`: a short payload whose bytes are all at most 0x7E, and a single byte below 128; anything else goes to `TextDecoder`; the empty buffer gives `''` |
| Utils.DecodeAsWrittenLosesHighByte | src/utils.ts:17-19 | as written, `decode` of the single byte 0x80 is `undefined` |
| Utils.DecodeAgreesWithAsWritten | src/utils.ts:12-53 | the corrected `Decode` agrees with the code as written on every input except a single byte at or above 0x80 |
| Utils.Concat | src/utils.ts:56-71 | `concat(a, b)` has length `\|a\| + \|b\|` and holds `a` then `b` |
| Composer.TotalSizeIsFlattenLength | src/blob_composer.ts:5-7 | the `reduce(sum, 0)` of the part lengths is the length of the parts laid end to end |
| Composer.FlattenAppend | src/blob_composer.ts:36-38 | laying out parts distributes over appending parts |
| Composer.Join | src/blob_composer.ts:71-76 | the copy loop fills a buffer of `size` bytes with the parts concatenated in insertion order |
| Composer.BlobComposer.Size | src/blob_composer.ts:22-24 | `size` is the total length of the parts |
| Composer.BlobComposer.Count | src/blob_composer.ts:29-31 | `count` is 0 exactly when there are no parts |
| Composer.BlobComposer.Add | src/blob_composer.ts:36-38 | `add` appends the slice as the last part; `count` grows by one and `size` by the slice length |
| Composer.BlobComposer.Clear | src/blob_composer.ts:43-49 | `clear` leaves no parts |
| Composer.BlobComposer.Compose | src/blob_composer.ts:54-86 | `compose` returns the parts concatenated in order; one part comes back as it is, and no part gives the empty buffer; no part is left afterwards |
| Resp.LeafChain | src/resp3_parser.ts:503-533 | the frame of a routine that reads the buffer itself is a well-formed stack on its own |
| Resp.ChainPush | src/resp3_parser.ts:379-405 | a routine that suspends on top of its callee's chain leaves a well-formed chain |
| Resp.ChainPop | src/resp3_parser.ts:84-86 | popping the top frame leaves the chain its routine waits on |
| Resp.ChainWidens | src/resp3_parser.ts:84-86 | a chain that yields a map or a string also yields a reply |
| Lines.ScanStop | src/resp3_parser.ts:511 | the scan for the end of a line stops at the first CR, zero byte or end of buffer, never before its start |
| Lines.SpanSplit | src/resp3_parser.ts:805-807 | adjacent spans of the buffer join |
| Lines.AccumulateAppend | src/resp3_parser.ts:805-807 | folding digits across a switch to `BigInt` gives the value of all the digits, so no digit is lost |
| Lines.OverflowsExtends | src/resp3_parser.ts:805-807 | once the running value reaches `Number.MAX_SAFE_INTEGER`, the result stays a `BigInt` |
| Lines.Take | src/resp3_parser.ts:891 | `Math.min(s, Math.max(0, available))` is at most `s`, and is all that is available when it is less than `s` |
| Lines.FoldDigits | src/resp3_parser.ts:509-516 | the digit loop stops at the end of the line with the decimal fold of its digits |
| Lines.FoldDecimals | src/resp3_parser.ts:796-811 | the decimals loop either reads the whole line without reaching the ceiling, or stops right after the digit that reaches it |
| Lines.FoldAscii | src/resp3_parser.ts:737-740 | the ASCII loop appends `ASCII[x]` for every byte of the line |
| Lines.LineEnd | src/resp3_parser.ts:764-766 | `parseLine`'s loop stops where the line ends |
| Reference.RefLine | src/resp3_parser.ts:759-788 | a line is read exactly when its CR is in the buffer, and the position is then past the CR LF |
| Reference.RefAsciiLine | src/resp3_parser.ts:730-757 | the same for the ASCII line |
| Reference.RefSize | src/resp3_parser.ts:535-566 | a size is read only from a byte in the buffer, and takes at least 2 bytes; sizes never throw |
| Reference.RefDecimals | src/resp3_parser.ts:790-825 | decimals end right past the CR LF of their line, and are an integer or a `BigInt` |
| Reference.RefInt | src/resp3_parser.ts:208-240 | an integer needs its first byte in the buffer, and takes at least 2 bytes |
| Reference.RefBoolean | src/resp3_parser.ts:246-262 | a boolean is read exactly when a data byte is under the cursor |
| Reference.RefPayload | src/resp3_parser.ts:887-916 | a payload of `s` bytes is read exactly when all `s` are in the buffer; it is those bytes, as one fragment, and the CR LF after them is skipped |
| Reference.RefBlob | src/resp3_parser.ts:857-885 | a blob needs its first byte in the buffer, takes at least 2 bytes, and never throws |
| Reference.RefChunk | src/resp3_parser.ts:939-941 | a fragment takes at least 3 bytes after its `;` and never throws |
| Reference.RefChunks | src/resp3_parser.ts:918-937 | the fragment list ends at least one byte on and never throws |
| Reference.ChunksUnfold | src/resp3_parser.ts:919-922 | a fragment with a payload is followed by the rest of the stream |
| Reference.ChunksAdvance | src/resp3_parser.ts:919-922 | the fragment loop's invariant: the fragments read so far, then the stream from the cursor, make up the whole stream |
| Reference.PrefixedTwice | src/blob_composer.ts:36-38 | fragments added in two steps are the fragments added together |
| Reference.RefReply | src/resp3_parser.ts:88-136 | no byte under the cursor runs short; a byte that is not a tag of the protocol version throws `SyntaxError`; a reply always consumes its tag |
| Reference.RefResp2 | src/resp3_parser.ts:97-101 | every RESP2 routine consumes input when it gives a reply; the values are tied to the machine by `Dispatch` and `RouteResp2` |
| Reference.RefResp3 | src/resp3_parser.ts:122-132 | every RESP3 routine consumes input when it gives a reply; the values are tied to the machine by `RouteResp3` and the routes below it |
| Reference.RefAggregate | src/resp3_parser.ts:568-686 | an aggregate is read only when a byte of its size is there, and spans at least two bytes; its value facts are `AggregateSized` |
| Reference.AggregateSized | src/resp3_parser.ts:576-594 | a size of 2^32 or more throws `RangeError`, as `new Array(s)` does; a negative size gives `null`; any other size gives a list, set or push of exactly that many elements |
| Reference.RefSlots | src/resp3_parser.ts:379-405 | a list of `s` slots holds exactly `s` replies, the saved ones first |
| Reference.RefStreamed | src/resp3_parser.ts:479-501 | a streamed list consumes at least one byte, its `.` |
| Reference.RefEntry | src/resp3_parser.ts:407-409 | an entry consumes input; it is the two-slot `RefSlots`, whose count fact gives exactly a key and a value |
| Reference.RefHash | src/resp3_parser.ts:628-656 | a map reply is a map or `null`, read only when a byte of its size is there, and spans at least two bytes; its value facts are `HashSized` |
| Reference.HashSized | src/resp3_parser.ts:636-654 | a size of 2^32 or more throws `RangeError`, as `new Hash(s)` does; a negative size gives `null`; any other size gives a map of exactly that many entries |
| Reference.RefEntries | src/resp3_parser.ts:439-473 | the entry list never moves the cursor back; its count fact is `EntriesCount` |
| Reference.EntriesCount | src/resp3_parser.ts:439-473 | a list of `s` entries holds exactly `s` entries, the saved ones first |
| Reference.RefStreamedEntries | src/resp3_parser.ts:415-437 | a streamed map consumes at least its `.` |
| Reference.RefAttributes | src/resp3_parser.ts:688-704 | attributes and their reply consume input |
| Reference.RefWithAttributes | src/resp3_parser.ts:706-724 | the reply after an attribute map is always attributed |
| Stability.ScanStable | src/resp3_parser.ts:509-516 | a line whose CR has arrived ends at the same place, with the same bytes, whatever follows |
| Stability.LineStable | src/resp3_parser.ts:759-788 | a line read is unchanged by bytes appended after it |
| Stability.AsciiLineStable | src/resp3_parser.ts:730-757 | the same for an ASCII line |
| Stability.SizeStable | src/resp3_parser.ts:535-566 | a size read is unchanged by bytes appended after it |
| Stability.DecimalsStable | src/resp3_parser.ts:790-825 | decimals read are unchanged by bytes appended after them |
| Stability.IntStable | src/resp3_parser.ts:208-240 | an integer read is unchanged by bytes appended after it |
| Stability.BlobStable | src/resp3_parser.ts:857-885 | a blob read, payload and position, is unchanged by bytes appended after it |
| Stability.ChunkStable | src/resp3_parser.ts:939-941 | the same for one fragment |
| Stability.ChunksStable | src/resp3_parser.ts:918-937 | the same for a whole streamed blob |
| Stability.ReplyStable | src/resp3_parser.ts:88-136 | a reply or exception read from a buffer is the one read from that buffer with any bytes appended |
| Stability.PrefixDecides | src/resp3_parser.ts:965-984 | what `process()` reads from the bytes received so far, when it is not a suspension, is what it reads once more bytes are appended |
| Stability.Resp2Stable | src/resp3_parser.ts:97-101 | the RESP2 routines' readings are unchanged by appended bytes |
| Stability.Resp3Stable | src/resp3_parser.ts:122-132 | the RESP3 routines' readings are unchanged by appended bytes |
| Stability.AggregateStable | src/resp3_parser.ts:568-686 | an aggregate read is unchanged by appended bytes |
| Stability.SlotsStable | src/resp3_parser.ts:379-405 | a list of slots read is unchanged by appended bytes |
| Stability.StreamedStable | src/resp3_parser.ts:479-501 | a streamed list read is unchanged by appended bytes |
| Stability.EntryStable | src/resp3_parser.ts:407-409 | an entry read is unchanged by appended bytes |
| Stability.HashStable | src/resp3_parser.ts:628-656 | a map read is unchanged by appended bytes |
| Stability.EntriesStable | src/resp3_parser.ts:439-473 | an entry list read is unchanged by appended bytes |
| Stability.StreamedEntriesStable | src/resp3_parser.ts:415-437 | a streamed map read is unchanged by appended bytes |
| Stability.AttributesStable | src/resp3_parser.ts:688-704 | attributes and their reply, once read, are unchanged by appended bytes |
| Stability.WithAttributesStable | src/resp3_parser.ts:706-724 | an attributed reply read is unchanged by appended bytes |
| Rebase.ReplyMoves | src/resp3_parser.ts:965-980 | a reply read at `i` of `b` is read at `\|p\| + i` of `p + b` with every position moved by `\|p\|`; this is what `appendChunk` relies on when it rebases `count` onto a new buffer |
| Rebase.ScanMoves | src/resp3_parser.ts:509-516 | the same for the end of a line and its bytes |
| Rebase.BlobMoves | src/resp3_parser.ts:857-885 | the same for a blob |
| Rebase.ChunksMoves | src/resp3_parser.ts:918-937 | the same for a streamed blob |
| Rebase.SlotsMoves | src/resp3_parser.ts:379-405 | the same for the slots of a list |
| Rebase.EntriesMoves | src/resp3_parser.ts:439-473 | the same for the entries of a map |
| Rebase.AggregateMoves | src/resp3_parser.ts:568-686 | the same for lists, sets and pushes |
| Rebase.HashMoves | src/resp3_parser.ts:628-656 | the same for maps |
| ResumedRebase.CallMoves | src/resp3_parser.ts:84-86 | a suspended stack resumed at `\|p\| + c` of `p + b` reads what it reads at `c` of `b`, with every position moved by `\|p\|` |
| ResumedRebase.FrameMoves | src/resp3_parser.ts:84-86 | the same for one frame resumed over the frames below it |
| ResumedStability.CallStable | src/resp3_parser.ts:84-86 | once a suspended stack's reading on `b` gives a value or throws, it gives the same on `b + more` |
| ResumedStability.FrameStable | src/resp3_parser.ts:84-86 | the same for one frame resumed over the frames below it |
| Resumption.ScanResume | src/resp3_parser.ts:509-516 | a line scan cut at the end of the buffer and resumed where it stopped ends where the uncut scan ends, and the two pieces of line bytes join into the uncut line |
| Resumption.LineKResume | src/resp3_parser.ts:759-788 | `parseLine` resumed with the cut line's bytes in the composer reads the uncut line |
| Resumption.AsciiJsAppend | src/resp3_parser.ts:737-740 | appending `ASCII` characters in two steps is appending them at once |
| Resumption.AsciiKResume | src/resp3_parser.ts:730-757 | `parseAsciiLineBytes` resumed with the text so far reads the uncut line |
| Resumption.Uint32KResume | src/resp3_parser.ts:503-533 | `parseUint32` resumed with its partial value reads the uncut number |
| Resumption.OverflowsSplit | src/resp3_parser.ts:805-807 | the fold reaches `Number.MAX_SAFE_INTEGER` on `x + y` exactly when it does on `x`, or on `y` from the value of `x` |
| Resumption.DecimalsResume | src/resp3_parser.ts:790-825 | `parseDecimals` resumed with its partial value reads the uncut number, and continues as `parseBigIntDecimals` exactly when the cut part reached the ceiling |
| Resumption.BigDecimalsKResume | src/resp3_parser.ts:827-855 | `parseBigIntDecimals` resumed with its partial value reads the uncut number |
| Resumption.IntIsDecimals | src/resp3_parser.ts:208-240 | past its first byte, `parseInt` is `parseDecimals` with the sign that byte gives |
| Resumption.SizeIsUint32 | src/resp3_parser.ts:535-566 | a size that is not `?`, `0` or `-` is `parseUint32` from 0 |
| Resumption.PayloadResume | src/resp3_parser.ts:887-916 | `captureUncomposedBlob` resumed with what is still owed, the bytes taken so far in the composer, reads the uncut payload |
| Resumption.PayloadJoin | src/resp3_parser.ts:887-916 | the same when the rest of the payload is already in the buffer |
| Resumption.BlobSized | src/resp3_parser.ts:857-885 | `captureBlob` after its size: a positive size captures that many bytes, 0 is `''` after 2 more bytes, a negative size is `null`, `?` is a streamed blob |
| Resumption.FailureFresh | src/resp3_parser.ts:190-206 | on an empty stack, `parseFailure`'s continuation is the reference reading `RefFailure` |
| Resumption.AggregateFresh | src/resp3_parser.ts:568-686 | on an empty stack, the aggregate routines' continuation is `RefAggregate` |
| Resumption.HashFresh | src/resp3_parser.ts:628-656 | on an empty stack, `parseHash`'s continuation is `RefHash` |
| Resumption.SlotsFresh | src/resp3_parser.ts:379-405 | on an empty stack, `parseExpressionList`'s continuation is `RefSlots` |
| Resumption.EntriesFresh | src/resp3_parser.ts:439-473 | on an empty stack, `parseEntryList`'s continuation is `RefEntries` |
| Resumption.ChunkedFresh | src/resp3_parser.ts:918-937 | on an empty stack, `captureChunkedBlob`'s continuation is `RefChunks` |
| Resumption.PushResumes | src/resp3_parser.ts:379-405 | a routine that pushes itself over its callee's suspended chain leaves a stack that reads as the routine resumed |
| Suspension.Uint32Suspends | src/resp3_parser.ts:503-533 | the frame `parseUint32` pushes, with its partial value, reads what the routine reads from where it started |
| Suspension.DecimalsSuspends | src/resp3_parser.ts:790-825 | the frame `parseDecimals` pushes reads what the routine reads from where it started, including the switch to `parseBigIntDecimals` |
| Suspension.LineSuspends | src/resp3_parser.ts:759-788 | the frame `parseLine` pushes, with the line's bytes added to the composer, reads what the routine reads from where it started |
| Suspension.PayloadSuspends | src/resp3_parser.ts:887-916 | the frame `captureUncomposedBlob` pushes, with what is still owed, reads what the routine reads from where it started |
| Suspension.ReplySuspends | src/resp3_parser.ts:88-136 | what a tag's routine leaves behind reads what the dispatcher reads from the tag |
| Suspension.NextResumes | src/resp3_parser.ts:568-686 | a routine that goes on to a second callee after its first callee gave a value leaves a stack that reads as the routine resumed before the first value |
| Suspension.NextReads | src/resp3_parser.ts:568-686 | the second callee's frame reads as the routine's continuation after the first value |
| Suspension.SameAsCall | src/resp3_parser.ts:84-86 | a stack that reads as frame `f` resumed over `below` reads as `call` on `below + [f]` |
| Suspension.StartCall | src/resp3_parser.ts:84-86 | a stack that reads as a routine's first frame, pushed on an empty stack, reads as `call` of that routine |
| Suspension.UnannotatedSuspends | src/resp3_parser.ts:688-704 | what the dispatcher leaves behind after a `null` attribute map reads as the frame `UnannotatedF` |
| Suspension.SlotsSuspend | src/resp3_parser.ts:379-405 | `parseExpressionList` suspended between slots, with the slots filled so far, reads what the list reads from where it started |
| Suspension.SlotsResumes | src/resp3_parser.ts:379-405 | after its first element, the list's frame with one more slot filled reads as the list resumed |
| Suspension.SlotsNext | src/resp3_parser.ts:379-405 | the slot loop's invariant: the slots filled so far, then the rest read from the cursor, are the list read from where it started |
| Suspension.EntriesNext | src/resp3_parser.ts:439-473 | the same for the entry loop, with `Bulk` keys decoded |
| Reading.ReadsNow | src/resp3_parser.ts:982-984 | the stack resumed on the bytes received so far reads the reply that starts at its origin |
| Reading.ReadsChunk | src/resp3_parser.ts:965-980 | a stack that reads the reply on all bytes received reads it on the current buffer too, with every position moved by the bytes dropped before the buffer |
| Reading.ReadsAnswer | src/resp3_parser.ts:982-984 | hence `call(parse)` on that stack gives the reply of all bytes received, ends where it ends, runs short where it does, and throws what it throws |
| Reading.ReadsKept | src/resp3_parser.ts:84-86 | a stack that reads as the one it replaced keeps the invariant |
| Reading.ReadsRestart | src/resp3_parser.ts:982-984 | with no frame, the next reply starts where the cursor is |
| Reading.ReadsExtended | src/resp3_parser.ts:965-980 | bytes appended to the input keep the invariant |
| Resp3.ParserState.constructor | src/resp3_parser.ts:71-82 | a new state has an empty buffer, the cursor at 0, no frames and an empty composer; it is valid, with nothing received |
| Resp3.ParserState.ParseUint32 | src/resp3_parser.ts:503-533 | with the CR in the buffer: the fold of the digits from any saved value, cursor past the CR LF; otherwise it pushes the partial value and leaves the cursor where the scan stopped, and that frame reads the uncut number |
| Resp3.ParserState.ParseBigIntDecimals | src/resp3_parser.ts:827-855 | the signed `BigInt` of all the digits, or the partial value pushed in a frame that reads the rest |
| Resp3.ParserState.ParseDecimals | src/resp3_parser.ts:790-825 | the signed value of the digits, a `BigInt` exactly when some prefix reaches `Number.MAX_SAFE_INTEGER`, or the partial value pushed; it is the reference reading `RefDecimals` |
| Resp3.ParserState.ParseInt | src/resp3_parser.ts:208-240 | `0` gives 0 and skips 3 bytes; otherwise an optional sign then the decimals; with no byte the routine is pushed; it is the reference reading `RefInt` |
| Resp3.ParserState.ParseSigned | src/resp3_parser.ts:222-238 | past a byte that is not `0`: `+` and `-` are skipped and set the sign, then the decimals are read; it is `RefInt`, and what it pushes resumes as `parseInt` |
| Resp3.ParserState.ParseNil | src/resp3_parser.ts:242-244 | `null`, with 2 bytes skipped |
| Resp3.ParserState.ParseBoolean | src/resp3_parser.ts:246-262 | any data byte is read, and only `t` is true; otherwise the routine is pushed; it is the reference reading `RefBoolean` |
| Resp3.ParserState.ParseAsciiLineBytes | src/resp3_parser.ts:730-757 | the line through `ASCII`, appended to the saved text, or the text so far pushed; from any saved text it reads what the uncut line gives, and from the empty text it is `RefAsciiLine` |
| Resp3.ParserState.ParseLine | src/resp3_parser.ts:759-788 | the line's bytes join the composer's parts; with the CR present all of them are decoded and the composer is emptied; the outcome is the line read with the composer's bytes in front, and with an empty composer it is `RefLine` |
| Resp3.ParserState.TakeLine | src/resp3_parser.ts:759-788 | the steps of `parseLine`: the composer gains the line's bytes, and the cursor stops on the CR or past the CR LF |
| Resp3.ParserState.LineOutcome | src/resp3_parser.ts:759-788 | that outcome is the continuation reading of `parseLine` with the bytes held before it |
| Resp3.ParserState.ParseSize | src/resp3_parser.ts:535-566 | `?` is streamed (3 bytes), `0` is 0 (3 bytes), `-` is -1 (4 bytes), anything else is the unsigned decimal line; with no byte the routine is pushed; it is the reference reading `RefSize` |
| Resp3.ParserState.CaptureUncomposedBlob | src/resp3_parser.ts:887-916 | `min(s, available)` payload bytes go to the composer; once all `s` have arrived the CR LF is skipped, otherwise what is still owed is pushed; the bytes held are the continuation reading of the payload from any saved `s` |
| Resp3.ParserState.Call | src/resp3_parser.ts:84-86 | whether it resumes the top frame or starts the routine, `call` does what the continuation reading of the stack it found gives: the value and where it ends, a suspension whose frames read the same, or the exception; the composer stays accounted for, and the machine stays well formed |
| Resp3.ParserState.CallResume | src/resp3_parser.ts:84-86 | the branch of `call` that pops: the same, for the frame popped over the frames below it |
| Resp3.ParserState.ResumedCalled | src/resp3_parser.ts:84-86 | a frame resumed as its own reading says has done what `call` on the whole stack reads |
| Resp3.ParserState.StartReply | src/resp3_parser.ts:84-86 | the branch of `call` that starts a routine producing a reply: it does what that routine's reference reading gives |
| Resp3.ParserState.StartPart | src/resp3_parser.ts:84-86 | the same for a routine producing a line, size, blob or entry |
| Resp3.ParserState.StartLine | src/resp3_parser.ts:84-86 | the same for `parseLine` and `parseAsciiLine` |
| Resp3.ParserState.StartSize | src/resp3_parser.ts:84-86 | the same for `parseSize` |
| Resp3.ParserState.StartBlob | src/resp3_parser.ts:84-86 | the same for `captureBlob` |
| Resp3.ParserState.StartChunk | src/resp3_parser.ts:84-86 | the same for `captureChunk` |
| Resp3.ParserState.StartEntry | src/resp3_parser.ts:84-86 | the same for `parseEntry` and `parseStreamedEntry` |
| Resp3.ParserState.Resume | src/resp3_parser.ts:84-86 | a popped frame resumes its routine with its saved locals, and does what that frame's continuation reading over the frames below it gives; with nothing to read it is pushed back unchanged |
| Resp3.ParserState.ResumeNumber | src/resp3_parser.ts:84-86 | the same for the frames of `parseInt`, `parseBoolean`, `parseDecimals` and `parseBigIntDecimals` |
| Resp3.ParserState.ResumeText | src/resp3_parser.ts:84-86 | the same for the frames of `parseFailure`, `parseDouble` and `parseBigNumbers` |
| Resp3.ParserState.ResumeBulk | src/resp3_parser.ts:84-86 | the same for the frames of `parseBulk`, `parseBulkFailure` and `parseFormatedBulk` |
| Resp3.ParserState.ResumeAggregate | src/resp3_parser.ts:84-86 | the same for the frames of the aggregates, `parseHash`, `parseAttributes` and `parseWithAttributes` |
| Resp3.ParserState.ResumeList | src/resp3_parser.ts:84-86 | the same for the frames of the four list loops |
| Resp3.ParserState.ResumeItems | src/resp3_parser.ts:84-86 | the same for `parseExpressionList` and `parseStreamedExpressionList` |
| Resp3.ParserState.ResumeMapping | src/resp3_parser.ts:84-86 | the same for `parseEntryList` and `parseStreamedEntryList` |
| Resp3.ParserState.ResumeSize | src/resp3_parser.ts:84-86 | the same for the frames of `parseSize` and `parseUint32` |
| Resp3.ParserState.ResumeLine | src/resp3_parser.ts:84-86 | the same for the frames of `parseLine` and `parseAsciiLineBytes` |
| Resp3.ParserState.ResumeBlob | src/resp3_parser.ts:84-86 | the same for the frames of the three blob routines |
| Resp3.ParserState.Dispatch | src/resp3_parser.ts:88-136 | with no tag byte it returns `undefined` with nothing consumed or pushed; a byte that is not a tag of the protocol version raises `SyntaxError` one byte on; with an empty composer it is the reference reading `RefReply`, and what it pushes reads the same reply |
| Resp3.ParserState.RouteResp2 | src/resp3_parser.ts:97-101 | the five RESP2 tags lead to their routines; with an empty composer they are `RefResp2`, and what they push reads the same |
| Resp3.ParserState.RouteResp3 | src/resp3_parser.ts:121-130 | every RESP3-only tag leads to its routine; with an empty composer it is `RefResp3`, and what it pushes reads the same |
| Resp3.ParserState.RouteResp3Aggregate | src/resp3_parser.ts:122-132 | `~ % > \|` lead to sets, maps, pushes and attributes; with an empty composer they are `RefResp3`, and what they push reads the same |
| Resp3.ParserState.RouteResp3Scalar | src/resp3_parser.ts:124-131 | `_ # , ( ! =` lead to their routines; with an empty composer they are `RefResp3`, and what they push reads the same |
| Resp3.ParserState.ParseStreamedReply | src/resp3_parser.ts:475-477 | the `.` that ends a stream is not read as a reply; any other byte starts a reply that agrees with `RefReply` |
| Resp3.ParserState.ParseUnannotated | src/resp3_parser.ts:688-704 | the reply after a `null` attribute map is `RefReply`; if it suspends, the frame `UnannotatedF` is left, so the reply is still read after `appendChunk` |
| Resp3.ParserState.ParseFailure | src/resp3_parser.ts:190-206 | the line after `-` as a `Failure`; over any stack it is the continuation reading of `call(parseLine)` followed by `new Failure` |
| Resp3.ParserState.ParseDouble | src/resp3_parser.ts:264-287 | `inf` and `-inf` are the infinities, and any other line is a double; over any stack it is the continuation reading of `call(parseAsciiLine)` then that conversion; the composer is untouched |
| Resp3.ParserState.ParseBigNumbers | src/resp3_parser.ts:289-305 | the line after `(` as a big number; over any stack it is the continuation reading of `call(parseAsciiLine)` then `BigInt`; the composer is untouched |
| Resp3.ParserState.ParseBulk | src/resp3_parser.ts:307-323 | a payload is decoded or kept as bytes, as `decodeBulk` says; size 0 gives `''` and a negative size gives `null`; over any stack it is the continuation reading of `call(captureBlob)` then that step |
| Resp3.ParserState.ParseBulkFailure | src/resp3_parser.ts:325-341 | the payload after `!` is a `Failure`, `''` when there is none; over any stack it is the continuation reading of `call(captureBlob)` then that step |
| Resp3.ParserState.ParseFormatedBulk | src/resp3_parser.ts:343-377 | a verbatim payload is split into format and content; `''` and `null` pass through; over any stack it is the continuation reading of `call(captureBlob)` then that step |
| Resp3.ParserState.BulkFrom | src/resp3_parser.ts:311-312 | the bulk reply is built from the composed payload, and the composer is emptied only by `compose` |
| Resp3.ParserState.BulkFailureFrom | src/resp3_parser.ts:329-331 | the same for `!` |
| Resp3.ParserState.VerbatimFrom | src/resp3_parser.ts:347-360 | the same for `=` |
| Resp3.ParserState.ParseAggregate | src/resp3_parser.ts:568-686 | lists, sets and pushes: the elements wrapped, or `null` for a negative size; `RangeError` for a size of 2^32 or more; over any stack with an accounted composer it is the continuation reading of `call(parseSize)` then the elements |
| Resp3.ParserState.AggregateOf | src/resp3_parser.ts:576-594 | after the size: `null`, the empty aggregate, `RangeError`, the slots, or the streamed elements, as the continuation reading says |
| Resp3.ParserState.SlotsOf | src/resp3_parser.ts:577-579 | a positive size below 2^32 fills that many slots, as the continuation reading says |
| Resp3.ParserState.ParseHash | src/resp3_parser.ts:628-656 | a map of entries, or `null`; `RangeError` for a size of 2^32 or more; over any stack it is the continuation reading of `call(parseSize)` then the entries |
| Resp3.ParserState.HashOf | src/resp3_parser.ts:636-654 | after the size, the map as the continuation reading says |
| Resp3.ParserState.EntriesOf | src/resp3_parser.ts:637-639 | a positive size below 2^32 reads that many entries into a map |
| Resp3.ParserState.ParseAttributes | src/resp3_parser.ts:688-704 | attributes then the reply they annotate, or the bare reply after a `null` map; over any stack it is the continuation reading of `call(parseHash)` then that reply |
| Resp3.ParserState.ParseWithAttributes | src/resp3_parser.ts:706-724 | the reply is returned with the attributes attached (an already attributed reply as it is); `null` raises `TypeError`; over any stack it is the continuation reading of `call(parseResp3Unmapped)` then that step |
| Resp3.ParserState.ParseExpressionList | src/resp3_parser.ts:379-405 | exactly `s` elements, the saved ones first; a suspension pushes the elements so far; over any stack it is the continuation reading of `call(parse)` then the remaining slots |
| Resp3.ParserState.ResumeSlots | src/resp3_parser.ts:385-391 | the same when an element is suspended below the list |
| Resp3.ParserState.RefillSlots | src/resp3_parser.ts:385-391 | the same once that element has arrived |
| Resp3.ParserState.FillSlots | src/resp3_parser.ts:379-405 | the slot loop on an empty stack is `RefSlots`, and a suspension leaves a frame that reads the list |
| Resp3.ParserState.NextSlot | src/resp3_parser.ts:385-391 | one slot: it keeps the loop invariant, or its failure or shortfall is the list's |
| Resp3.ParserState.SuspendSlots | src/resp3_parser.ts:393-403 | the list pushed over its element's chain reads the list from where it started |
| Resp3.ParserState.ParseEntry | src/resp3_parser.ts:407-409 | a key and a value, as a two-element list; with an empty composer it is `RefEntry` |
| Resp3.ParserState.ParseStreamedEntry | src/resp3_parser.ts:411-413 | the `.` that ends a stream is not read as an entry; any other byte starts an entry that agrees with `RefEntry` |
| Resp3.ParserState.ParseEntryList | src/resp3_parser.ts:439-473 | exactly `s` entries, the saved ones first, `Bulk` keys decoded; over any stack it is the continuation reading of `call(parseEntry)` then the remaining entries |
| Resp3.ParserState.ResumeEntries | src/resp3_parser.ts:445-460 | the same when an entry is suspended below the list |
| Resp3.ParserState.RefillEntries | src/resp3_parser.ts:445-460 | the same once that entry has arrived |
| Resp3.ParserState.FillEntries | src/resp3_parser.ts:439-473 | the entry loop on an empty stack is `RefEntries` |
| Resp3.ParserState.NextEntry | src/resp3_parser.ts:445-460 | one entry: it keeps the loop invariant, or its failure or shortfall is the map's |
| Resp3.ParserState.ParseStreamedExpressionList | src/resp3_parser.ts:479-501 | elements appended after the saved ones until the `.`; over any stack it is `StreamedK`, which finishes a suspended element before looking for the `.` |
| Resp3.ParserState.StreamReplies | src/resp3_parser.ts:483-499 | the element loop keeps the elements read so far, and ends, throws or suspends as `StreamedK` says |
| Resp3.ParserState.ParseStreamedEntryList | src/resp3_parser.ts:415-437 | entries appended after the saved ones until the `.`; over any stack it is `StreamedEntriesK` |
| Resp3.ParserState.StreamEntries | src/resp3_parser.ts:419-435 | the entry loop, as `StreamReplies` |
| Resp3.ParserState.CaptureBlob | src/resp3_parser.ts:857-885 | a size, then its payload; size 0 skips the CR LF; over any stack, the blob and the bytes held are the continuation reading of `call(parseSize)` then the payload |
| Resp3.ParserState.BlobOf | src/resp3_parser.ts:865-883 | after the size, the payload as `BlobSized` says |
| Resp3.ParserState.CaptureChunkedBlob | src/resp3_parser.ts:918-937 | fragments until an empty or null one, then 2 bytes back; the fragments held are the continuation reading of the stream |
| Resp3.ParserState.CaptureChunks | src/resp3_parser.ts:919-922 | the fragment loop: all the fragments of the stream are added to the composer in order, and it stops 2 bytes before where the reading ends; a suspension leaves one chain of frames that reads the rest |
| Resp3.ParserState.NextChunk | src/resp3_parser.ts:920 | one `call(captureChunk)` keeps the loop invariant |
| Resp3.ParserState.CaptureChunk | src/resp3_parser.ts:939-941 | skips the `;` and captures a fragment; the fragment held is `RefChunk` |
| Resp3.ParserState.Reset | src/resp3_parser.ts:953-963 | an empty buffer, the cursor at 0, no frames and no parts; the state is valid with nothing received, and `done` |
| Resp3.ParserState.AppendChunk | src/resp3_parser.ts:965-980 | with unread bytes the chunk is appended and the cursor kept; otherwise the buffer is replaced and the cursor rebased by the old length; the cursor keeps its place among all bytes received, `remainingBytes` grows by the chunk's length, and the state stays valid |
| Resp3.ParserState.ExtendedValid | src/resp3_parser.ts:965-980 | bytes received after the invariant held keep it |
| Resp3.ParserState.Answered | src/resp3_parser.ts:982-984 | `call(parse)` that follows the stack's reading answers `RefReply` of all bytes received |
| Resp3.ParserState.KeptValid | src/resp3_parser.ts:982-984 | frames that read as the ones `process()` found keep the invariant |
| Resp3.ParserState.RestartValid | src/resp3_parser.ts:982-984 | after a reply or an exception, the next reply starts at the cursor |
| Resp3.ParserState.Process | src/resp3_parser.ts:982-984 | the outcome is `RefReply` of all bytes received since the reply started, however they were split into chunks: the reply with the cursor where it ends, `undefined` where they run short, or the exception; a reply or exception leaves no frames and no parts, and the next reply starts at the cursor; `undefined` means no data byte under the cursor; with nothing left to read nothing changes |
| Findings.NullAttributesSplit | src/resp3_parser.ts:688-702 | `~?\r\n\|-1\r\n.\r\n` in one chunk throws `SyntaxError`; cut after the map, the stack as written reads an empty set, and the corrected stack throws `SyntaxError` |
| Findings.NullAttributesInOneChunk | src/resp3_parser.ts:688-702 | the one-chunk reading of that input throws `SyntaxError` |
| Findings.StreamedResumeStalls | src/resp3_parser.ts:479-501 | `~?\r\n$3\r\n\0ab\r\n.\r\n` in one chunk is the set holding `\0ab`; cut before the blob's bytes, the list as written suspends on any later bytes, and the corrected reading gives the same set |
| Findings.BlobInOneChunk | src/resp3_parser.ts:479-501 | the one-chunk reading of that input |
| Findings.BlobResumed | src/resp3_parser.ts:479-501 | the corrected resumption of that input |
| Findings.StreamedEntriesStall | src/resp3_parser.ts:415-437 | `%?\r\n$3\r\n\0ab\r\n:1\r\n.\r\n` in one chunk is the map holding `\0ab` => 1; cut before the key's bytes, the map as written suspends on any later bytes, and the corrected reading gives the same map |
| Findings.IntOneAt | src/resp3_parser.ts:208-240 | `:1\r\n` reads the integer 1 and ends after its line |
| Findings.MapInOneChunk | src/resp3_parser.ts:415-437 | the one-chunk reading of that input |
| Findings.MapResumed | src/resp3_parser.ts:415-437 | the corrected resumption of that input |
| Findings.MapEntryResumed | src/resp3_parser.ts:407-409 | the suspended entry, resumed: the key, then the value 1 |
| Findings.MapValueRead | src/resp3_parser.ts:379-405 | after the key, the value fills the entry's second slot |
| Findings.MapKeyResumed | src/resp3_parser.ts:307-317 | the suspended key, resumed: the blob `\0ab` as a bulk string |
| Findings.MapKeyHeld | src/resp3_parser.ts:887-912 | the blob under the key, resumed: its three bytes held by the composer |
| Findings.MapEntryInOneChunk | src/resp3_parser.ts:407-409 | in one chunk, the entry is the key `\0ab` and the value 1 |
| Findings.MapKeyInOneChunk | src/resp3_parser.ts:307-317 | in one chunk, the key is the blob `\0ab` as a bulk string |

Definitions that model a source expression and claim nothing of their own:

- `Utils.At`: `chunk[i]`, which is `undefined` outside the buffer (src/resp3_parser.ts:90).
- `Utils.AsciiLookup`: `ASCII[x]` (src/utils.ts:18).
- `Utils.AppendJs`: JavaScript's `o += v` (src/resp3_parser.ts:739).
- `Utils.AsciiString`: the ASCII path of `decode` (src/utils.ts:23-41).
- `Utils.Decoded`: the corrected `decode`, as a function.
- `Utils.DecodeAsWritten`: `decode` as written (src/utils.ts:12-53).
- `Findings.StreamedKAsWritten`: the streamed list's continuation as written, which tests the byte under the cursor before resuming the element below it (src/resp3_parser.ts:483).
- `Findings.StreamedEntriesKAsWritten`: the same for the streamed map (src/resp3_parser.ts:421).
- `Resp.AsReply`: a `+` line, returned by `parseLine`, used as a reply (src/resp3_parser.ts:84-86, 96 and 116).
- `Resp.Wrap`: `new Array`, `new Unordered` and `new Push` around the elements (src/resp3_parser.ts:568-686).
- `Resp.VerbatimOf`: the split of a verbatim payload (src/resp3_parser.ts:349-360).
- `Lines.Span`, `Lines.LineBytes`: `chunk.subarray(i, j)`.
- `Lines.Accumulate`, `Lines.Overflows`, `Lines.AsciiJs`: the folds of the digit and ASCII loops.
- `Reference.Wrapped`, `Reference.Prefixed`: mapping a reading's value, and putting fragments in front of it.
- `Reference.DecodeKey`: `Bulk` map keys decoded (src/resp3_parser.ts:453-460).
- `Reference.RefFailure`, `RefBigNumber`, `RefDouble`, `DoubleOf`, `RefBulk`, `RefBulkFailure`, `RefVerbatim`, `BulkReply`, `BulkFailureReply`, `VerbatimReply`: the reference readings of the routines at src/resp3_parser.ts:190-377.
- `Continuation.FreshK`, `FrameK`, `CallK`, `StreamedK`, `StreamedEntriesK` and the `After*` functions: the continuation reading of a stack.
- `Reading.ReadsFrom`: the invariant described above.
- `Resp3.ParserState.RemainingBytes` and `Done`: `remainingBytes()` and `done()` (src/resp3_parser.ts:945-951).

## Left out

- The `map` option, `parseResp2Mapped` and `parseResp3Mapped` (src/resp3_parser.ts:146-188): these run user callbacks. In this model `parse` is always one of the unmapped dispatchers.
- `TextDecoder` and `Bulk.prototype.decode` are not part of this model. They are parameters of the state (`utf8`, `bulkText`).
- `parseDouble`'s `+x`: the line is kept as a token, since floating-point conversion is not modelled.
- ParseBigNumbers, RefBigNumber: the line is kept as a token. So the `SyntaxError` that `BigInt(x)` raises on a line that is not an integer (`(abc\r\n`, `(1.5\r\n`) is not modelled.
- ParseUint32, ParseDecimals: the source computes in floating point; the model folds exact integers. `parseUint32` never switches to `BigInt`, so sizes above 2^53 are rounded floats in the source. A running value below −2^53, reached from bytes that are not digits, also differs. The two agree for every size below 2^53 and for every decimal line made of digits.
- VerbatimOf: a verbatim format whose three bytes are all missing or non-ASCII is the number `NaN` in JavaScript. The model gives the text `NaN` there. When any of those bytes is ASCII, the two agree.
- ParseLine, ParseBulk, ParseBulkFailure, RefLine, BulkReply, BulkFailureReply run the corrected `decode` (see Findings). As written, `decode` of the single byte 0x80 is `undefined`, and the caller reads that as a suspension:
  - `parseLine` has already moved `count` past the CR LF and pushes nothing (src/resp3_parser.ts:773-776); `parseBulk` does the same (311-312). So the reply `+\x80\r\n` is lost.
  - For `-\x80\r\n`, `parseFailure` pushes itself over nothing (src/resp3_parser.ts:190-206). The next line then becomes the `Failure`'s message.
  - In `*2\r\n+\x80\r\n:1\r\n:2\r\n`, `:1` fills the slot of the lost string.
- ParseAttributes, ParseUnannotated, ParseStreamedExpressionList, StreamReplies, ParseStreamedEntryList, StreamEntries run the corrected behaviour (see Findings). As written:
  - after a `null` attribute map with no byte left, `parseAttributes` returns `undefined` with nothing pushed (src/resp3_parser.ts:688-702). The map already read is forgotten, and the routine below reads the next bytes as a fresh reply.
  - resumed over a suspended element, `parseStreamedExpressionList` (src/resp3_parser.ts:483) and `parseStreamedEntryList` (421) first test the byte under the cursor. When that byte is missing or `0x00`, they push themselves back with the cursor unmoved, and every later `process()` does the same.
- `compose` returns its single part without copying, and `add` keeps slices that alias `chunk`. The model works on values, so aliasing is not visible.
- The `Resp3Parser` class (src/resp3_parser.ts:993-1085) only forwards to the state object, and `src/resp3_decoder_stream.ts` is a stream adapter. Neither is modelled.
- ParseUint32, ParseBigIntDecimals and ParseNil have no reference reading of their own. They are reached only through routines that have one, and their contracts give their outcome directly.

## Findings

| source | as written | input that shows it | evidently intended | confidence | as-written member | corrected member |
|---|---|---|---|---|---|---|
| src/utils.ts:17-19 | a one-byte payload returns `ASCII[chunk[0]]` without a range check | the single byte 0x80 decodes to `undefined`; downstream, `+\x80\r\n` is lost, `-\x80\r\n` takes the next line as its message, and in `*2\r\n+\x80\r\n:1\r\n:2\r\n` the `:1` takes the lost string's slot | bytes of 128 and above go to `TextDecoder`, as on the other paths | high, not executed | Utils.DecodeAsWrittenLosesHighByte | Utils.Decode |
| src/resp3_parser.ts:688-702 | after a `null` attribute map, `parseAttributes` returns `parseResp3Unmapped()` directly; with no byte left, that returns `undefined` with nothing pushed, so the map already read is forgotten | `~?\r\n\|-1\r\n` then `.\r\n` gives the empty set, while the same bytes in one chunk throw `SyntaxError` | the reply after the map is read after the next `appendChunk`, as it is in one chunk | high, not executed | Findings.NullAttributesSplit | Resp3.ParserState.ParseUnannotated |
| src/resp3_parser.ts:479-501 | `parseStreamedExpressionList` tests `chunk[count]` before resuming the element suspended below it | `~?\r\n$3\r\n` then `\0ab\r\n.\r\n` suspends on every later `process()`, while the same bytes in one chunk give the set holding `\0ab` | the suspended element is resumed first, whatever byte its bytes start with | high, not executed | Findings.StreamedResumeStalls | Resp3.ParserState.ParseStreamedExpressionList |
| src/resp3_parser.ts:415-437 | `parseStreamedEntryList` tests `chunk[count]` before resuming the entry suspended below it | `%?\r\n$3\r\n` then `\0ab\r\n:1\r\n.\r\n` suspends on every later `process()`, while the same bytes in one chunk give the map holding `\0ab` => 1 | the suspended entry is resumed first, whatever byte its bytes start with | high, not executed | Findings.StreamedEntriesStall | Resp3.ParserState.ParseStreamedEntryList |
