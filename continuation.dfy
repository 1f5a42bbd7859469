/**
 * What the decoder goes on to read from where it stands. A stack of
 * suspended routines, resumed on a buffer, reads exactly what the reference
 * reading of the same bytes would have read had no chunk boundary ever
 * interrupted it: the top frame's routine takes the value of the chain below
 * it and continues as the reference reading of its own routine.
 */
module Continuation {
  import opened Utils
  import opened Composer
  import opened Resp
  import opened Lines
  import opened Reference

  /**
   * What a chain of routines reads: a value, or for a blob what the composer
   * then holds (all of its bytes once they are composed, what it held before
   * for `''` and `null`).
   */
  datatype Read = Val(value: Value) | Held(blob: Blob, bytes: seq<Byte>)

  function ReadReply(o: Out<Reply>): Out<Read>
  {
    match o
    case Got(v, n) => Got(Val(AReply(v)), n)
    case Short => Short
    case Fail(e) => Fail(e)
  }

  function ReadText(o: Out<string>): Out<Read>
  {
    match o
    case Got(t, n) => Got(Val(AText(t)), n)
    case Short => Short
    case Fail(e) => Fail(e)
  }

  function ReadSize(o: Out<Size>): Out<Read>
  {
    match o
    case Got(z, n) => Got(Val(ASize(z)), n)
    case Short => Short
    case Fail(e) => Fail(e)
  }

  function ReadEntry(o: Out<Entry>): Out<Read>
  {
    match o
    case Got(e, n) => Got(Val(AnEntry(e)), n)
    case Short => Short
    case Fail(e) => Fail(e)
  }

  /** A payload read into a composer that held `h`. */
  function ReadHeld(h: seq<Byte>, o: Out<Payload>): Out<Read>
  {
    match o
    case Got(Fragments(ps), n) => Got(Held(Composed, h + Flatten(ps)), n)
    case Got(EmptyPayload, n) => Got(Held(EmptyBlob, h), n)
    case Got(NullPayload, n) => Got(Held(NullBlob, h), n)
    case Short => Short
    case Fail(e) => Fail(e)
  }

  /** The fragments of a streamed blob read into a composer that held `h`. */
  function ReadChunks(h: seq<Byte>, o: Out<seq<seq<Byte>>>): Out<Read>
  {
    match o
    case Got(ps, n) => Got(Held(Composed, h + Flatten(ps)), n)
    case Short => Short
    case Fail(e) => Fail(e)
  }

  /** The array an expression list fills, or for `parseEntry` its two slots as an entry. */
  function ReadList(shape: Shape, o: Out<seq<Reply>>): Out<Read>
  {
    match o
    case Got(items, n) =>
      if shape != EntryS then Got(Val(AReply(Wrap(shape, items))), n)
      else if |items| == 2 then Got(Val(AnEntry(Entry(items[0], items[1]))), n)
      else Short
    case Short => Short
    case Fail(e) => Fail(e)
  }

  function ReadMap(o: Out<seq<Entry>>): Out<Read>
  {
    match o
    case Got(es, n) => Got(Val(AReply(Map(es))), n)
    case Short => Short
    case Fail(e) => Fail(e)
  }

  /** A line where a reply is expected is a simple string. */
  function Norm(x: Read): Read
  {
    if x.Val? && x.value.AText? then Val(AReply(Str(x.value.text))) else x
  }

  /** A reading as the routine waiting on it takes it. */
  function View(o: Out<Read>): Out<Read>
  {
    match o
    case Got(x, n) => Got(Norm(x), n)
    case _ => o
  }

  /** What the composer's bytes are to `parseBulk` and its siblings. */
  function HeldPayload(blob: Blob, bs: seq<Byte>): Payload
  {
    match blob
    case Composed => Fragments([bs])
    case EmptyBlob => EmptyPayload
    case NullBlob => NullPayload
  }

  /*
   * Leaf routines resumed with the locals they saved.
   */

  /** `parseLine` with the bytes `h` of the line already in the composer. */
  function LineK(opts: Options, h: seq<Byte>, b: seq<Byte>, c: int): Out<string>
  {
    if Terminated(b, c) then Got(Decoded(h + LineBytes(b, c), opts.utf8), ScanStop(b, c) + 2) else Short
  }

  /** `parseAsciiLineBytes(t)`. */
  function AsciiK(t: string, b: seq<Byte>, c: int): Out<string>
  {
    if Terminated(b, c) then Got(AsciiJs(t, LineBytes(b, c)), ScanStop(b, c) + 2) else Short
  }

  /** `parseUint32(acc)`. */
  function Uint32K(acc: int, b: seq<Byte>, c: int): Out<Size>
  {
    if Terminated(b, c) then Got(Sized(Accumulate(acc, LineBytes(b, c))), ScanStop(b, c) + 2) else Short
  }

  /** `parseBigIntDecimals(sign, i)`. */
  function BigDecimalsK(i: int, sign: int, b: seq<Byte>, c: int): Out<Reply>
  {
    if Terminated(b, c) then Got(BigInt(sign * Accumulate(i, LineBytes(b, c))), ScanStop(b, c) + 2) else Short
  }

  /*
   * What a routine does with the value it waited on, given the reading of
   * its callee as `View` presents it.
   */

  function AfterFailure(o: Out<Read>): Out<Reply>
  {
    match o
    case Got(Val(AReply(Str(t))), n) => Got(Failure(t), n)
    case Got(_, _) => Short
    case Short => Short
    case Fail(e) => Fail(e)
  }

  function AfterDouble(o: Out<Read>): Out<Reply>
  {
    match o
    case Got(Val(AReply(Str(t))), n) => Got(DoubleOf(t), n)
    case Got(_, _) => Short
    case Short => Short
    case Fail(e) => Fail(e)
  }

  function AfterBigNumber(o: Out<Read>): Out<Reply>
  {
    match o
    case Got(Val(AReply(Str(t))), n) => Got(BigNumber(t), n)
    case Got(_, _) => Short
    case Short => Short
    case Fail(e) => Fail(e)
  }

  function AfterBulk(opts: Options, o: Out<Read>): Out<Reply>
  {
    match o
    case Got(Held(blob, bs), n) => Got(BulkReply(opts, HeldPayload(blob, bs)), n)
    case Got(_, _) => Short
    case Short => Short
    case Fail(e) => Fail(e)
  }

  function AfterBulkFailure(opts: Options, o: Out<Read>): Out<Reply>
  {
    match o
    case Got(Held(blob, bs), n) => Got(BulkFailureReply(opts, HeldPayload(blob, bs)), n)
    case Got(_, _) => Short
    case Short => Short
    case Fail(e) => Fail(e)
  }

  function AfterVerbatim(o: Out<Read>): Out<Reply>
  {
    match o
    case Got(Held(blob, bs), n) => Got(VerbatimReply(HeldPayload(blob, bs)), n)
    case Got(_, _) => Short
    case Short => Short
    case Fail(e) => Fail(e)
  }

  /** `parseList` and its siblings once the size is read: the elements from `b`. */
  function AfterAggregate(opts: Options, shape: Shape, b: seq<Byte>, o: Out<Read>): Out<Reply>
    requires shape != EntryS
  {
    match o
    case Got(Val(ASize(Sized(n))), k) =>
      if k < 0 then Short
      else if n >= ArrayLengthLimit then Fail(RangeError)
      else if n > 0 then Wrapped(RefSlots(opts, b, k, [], n), (items: seq<Reply>) => Wrap(shape, items))
      else if n == 0 then Got(Wrap(shape, []), k)
      else Got(Null, k)
    case Got(Val(ASize(Streamed)), k) =>
      if k < 0 then Short
      else Wrapped(RefStreamed(opts, b, k, []), (items: seq<Reply>) => Wrap(shape, items))
    case Got(_, _) => Short
    case Short => Short
    case Fail(e) => Fail(e)
  }

  /** `parseHash` once the size is read. */
  function AfterHash(opts: Options, b: seq<Byte>, o: Out<Read>): Out<Reply>
  {
    match o
    case Got(Val(ASize(Sized(n))), k) =>
      if k < 0 then Short
      else if n >= ArrayLengthLimit then Fail(RangeError)
      else if n > 0 then Wrapped(RefEntries(opts, b, k, [], n), (es: seq<Entry>) => Map(es))
      else if n == 0 then Got(Map([]), k)
      else Got(Null, k)
    case Got(Val(ASize(Streamed)), k) =>
      if k < 0 then Short
      else Wrapped(RefStreamedEntries(opts, b, k, []), (es: seq<Entry>) => Map(es))
    case Got(_, _) => Short
    case Short => Short
    case Fail(e) => Fail(e)
  }

  /** `parseAttributes` once the map is read: the reply it annotates, or for `null` the next reply. */
  function AfterAttributes(opts: Options, b: seq<Byte>, o: Out<Read>): Out<Reply>
  {
    match o
    case Got(Val(AReply(m)), n) =>
      if n < 0 then Short
      else if m.Map? then RefWithAttributes(opts, b, n, m.entries)
      else RefReply(opts, b, n, true)
    case Got(_, _) => Short
    case Short => Short
    case Fail(e) => Fail(e)
  }

  /** `parseWithAttributes(attrs)` once the annotated reply is read. */
  function AfterWith(attrs: seq<Entry>, o: Out<Read>): Out<Reply>
  {
    match o
    case Got(Val(AReply(v)), n) =>
      if v.Null? then Fail(TypeError)
      else if v.Attributed? then Got(v, n)
      else Got(Attributed(attrs, v), n)
    case Got(_, _) => Short
    case Short => Short
    case Fail(e) => Fail(e)
  }

  /** `parseExpressionList` once the reply for slot `|items|` is read. */
  function AfterSlots(opts: Options, items: seq<Reply>, s: int, b: seq<Byte>, o: Out<Read>): Out<seq<Reply>>
  {
    match o
    case Got(Val(AReply(v)), n) => if n < 0 then Short else RefSlots(opts, b, n, items + [v], s)
    case Got(_, _) => Short
    case Short => Short
    case Fail(e) => Fail(e)
  }

  /** `parseStreamedExpressionList` once the element it resumed is read. */
  function AfterStreamed(opts: Options, items: seq<Reply>, b: seq<Byte>, o: Out<Read>): Out<seq<Reply>>
  {
    match o
    case Got(Val(AReply(v)), n) => if n < 0 then Short else RefStreamed(opts, b, n, items + [v])
    case Got(_, _) => Short
    case Short => Short
    case Fail(e) => Fail(e)
  }

  /** `parseEntryList` once the entry for slot `|es|` is read. */
  function AfterEntries(opts: Options, es: seq<Entry>, s: int, b: seq<Byte>, o: Out<Read>): Out<seq<Entry>>
  {
    match o
    case Got(Val(AnEntry(e)), n) => if n < 0 then Short else RefEntries(opts, b, n, es + [DecodeKey(opts.bulkText, e)], s)
    case Got(_, _) => Short
    case Short => Short
    case Fail(e) => Fail(e)
  }

  /** `parseStreamedEntryList` once the entry it resumed is read. */
  function AfterStreamedEntries(opts: Options, es: seq<Entry>, b: seq<Byte>, o: Out<Read>): Out<seq<Entry>>
  {
    match o
    case Got(Val(AnEntry(e)), n) => if n < 0 then Short else RefStreamedEntries(opts, b, n, es + [e])
    case Got(_, _) => Short
    case Short => Short
    case Fail(e) => Fail(e)
  }

  /** `captureBlob` once the size is read, into a composer that held `h`. */
  function AfterBlob(h: seq<Byte>, b: seq<Byte>, o: Out<Read>): Out<Read>
  {
    match o
    case Got(Val(ASize(Sized(n))), k) =>
      if k < 0 then Short
      else if n > 0 then ReadHeld(h, RefPayload(b, k, n))
      else if n == 0 then Got(Held(EmptyBlob, h), k + 2)
      else Got(Held(NullBlob, h), k)
    case Got(Val(ASize(Streamed)), k) => if k < 0 then Short else ReadChunks(h, RefChunks(b, k))
    case Got(_, _) => Short
    case Short => Short
    case Fail(e) => Fail(e)
  }

  /** `captureChunkedBlob` once the fragment it resumed is read. */
  function AfterChunked(b: seq<Byte>, o: Out<Read>): Out<Read>
  {
    match o
    case Got(Held(Composed, bs), n) => if n < 0 then Short else ReadChunks(bs, RefChunks(b, n))
    case Got(Held(_, bs), n) => Got(Held(Composed, bs), n - 2)
    case Got(_, _) => Short
    case Short => Short
    case Fail(e) => Fail(e)
  }

  /*
   * The continuation of a stack.
   */

  /** A reading never ends before its start, and sizes and `''`/`null` blobs take at least two bytes. */
  predicate Ahead(o: Out<Read>, c: int)
  {
    o.Got? ==>
      o.next >= c &&
      ((o.value.Val? && o.value.value.ASize?) || (o.value.Held? && !o.value.blob.Composed?) ==> o.next >= c + 2)
  }

  /** `call(proc)` on an empty stack with the composer holding `h`: the reference reading of `proc`. */
  function FreshK(opts: Options, d: Proc, h: seq<Byte>, b: seq<Byte>, c: nat): (o: Out<Read>)
    ensures Ahead(o, c)
  {
    match d
    case ParseP => ReadReply(RefReply(opts, b, c, opts.resp3))
    case Resp3P => ReadReply(RefReply(opts, b, c, true))
    case StreamedReplyP => if At(b, c) == Some(Dot) then Short else ReadReply(RefReply(opts, b, c, opts.resp3))
    case LineP => ReadText(LineK(opts, h, b, c))
    case AsciiLineP => ReadText(RefAsciiLine(b, c))
    case SizeP => ReadSize(RefSize(b, c))
    case BlobP => ReadHeld(h, RefBlob(b, c))
    case ChunkP => ReadHeld(h, RefChunk(b, c))
    case HashP => ReadReply(RefHash(opts, b, c))
    case EntryP => ReadEntry(RefEntry(opts, b, c))
    case StreamedEntryP => if At(b, c) == Some(Dot) then Short else ReadEntry(RefEntry(opts, b, c))
  }

  /**
   * The routine of frame `f` resumed at `c` over the frames `below`, the
   * composer holding `h`: what its callee's chain reads, then its own
   * continuation from where that reading stops.
   */
  function FrameK(opts: Options, f: Frame, below: seq<Frame>, h: seq<Byte>, b: seq<Byte>, c: nat): (o: Out<Read>)
    decreases |below|, 2
    ensures Ahead(o, c)
  {
    match f
    case FailureF => ReadReply(AfterFailure(View(CallK(opts, LineP, below, h, b, c))))
    case IntF => ReadReply(RefInt(b, c))
    case BooleanF => ReadReply(RefBoolean(b, c))
    case DoubleF => ReadReply(AfterDouble(View(CallK(opts, AsciiLineP, below, h, b, c))))
    case BigNumberF => ReadReply(AfterBigNumber(View(CallK(opts, AsciiLineP, below, h, b, c))))
    case BulkF => ReadReply(AfterBulk(opts, View(CallK(opts, BlobP, below, h, b, c))))
    case BulkFailureF => ReadReply(AfterBulkFailure(opts, View(CallK(opts, BlobP, below, h, b, c))))
    case VerbatimF => ReadReply(AfterVerbatim(View(CallK(opts, BlobP, below, h, b, c))))
    case AggregateF(shape) =>
      if shape == EntryS then Short
      else ReadReply(AfterAggregate(opts, shape, b, View(CallK(opts, SizeP, below, h, b, c))))
    case HashF => ReadReply(AfterHash(opts, b, View(CallK(opts, SizeP, below, h, b, c))))
    case AttributesF => ReadReply(AfterAttributes(opts, b, View(CallK(opts, HashP, below, h, b, c))))
    case WithAttributesF(attrs) => ReadReply(AfterWith(attrs, View(CallK(opts, Resp3P, below, h, b, c))))
    case UnannotatedF => ReadReply(RefReply(opts, b, c, true))
    case ExprListF(shape, items, s) => ReadList(shape, AfterSlots(opts, items, s, b, View(CallK(opts, ParseP, below, h, b, c))))
    case StreamedListF(shape, items) =>
      if shape == EntryS then Short
      else ReadList(shape, StreamedK(opts, items, below, h, b, c))
    case EntryListF(es, s) => ReadMap(AfterEntries(opts, es, s, b, View(CallK(opts, EntryP, below, h, b, c))))
    case StreamedEntriesF(es) => ReadMap(StreamedEntriesK(opts, es, below, h, b, c))
    case SizeF => ReadSize(RefSize(b, c))
    case Uint32F(acc) => ReadSize(Uint32K(acc, b, c))
    case LineF => ReadText(LineK(opts, h, b, c))
    case AsciiLineF(t) => ReadText(AsciiK(t, b, c))
    case DecimalsF(i, sign) => ReadReply(RefDecimals(b, c, sign, i))
    case BigDecimalsF(i, sign) => ReadReply(BigDecimalsK(i, sign, b, c))
    case BlobF => AfterBlob(h, b, View(CallK(opts, SizeP, below, h, b, c)))
    case UncomposedBlobF(rest) => if rest == 0 then Short else ReadHeld(h, RefPayload(b, c, rest))
    case ChunkedBlobF => AfterChunked(b, View(CallK(opts, ChunkP, below, h, b, c)))
  }

  /**
   * A streamed list resumed with `items`: with no element suspended below
   * it, the reference reading of the rest of the stream; otherwise that
   * element first, whatever byte is under the cursor.
   */
  function StreamedK(opts: Options, items: seq<Reply>, below: seq<Frame>, h: seq<Byte>, b: seq<Byte>, c: nat): (o: Out<seq<Reply>>)
    decreases |below|, 1
    ensures o.Got? ==> o.next >= c
  {
    if below == [] then RefStreamed(opts, b, c, items)
    else AfterStreamed(opts, items, b, View(CallK(opts, StreamedReplyP, below, h, b, c)))
  }

  /** A streamed map resumed with `es`, as `StreamedK`. */
  function StreamedEntriesK(opts: Options, es: seq<Entry>, below: seq<Frame>, h: seq<Byte>, b: seq<Byte>, c: nat): (o: Out<seq<Entry>>)
    decreases |below|, 1
    ensures o.Got? ==> o.next >= c
  {
    if below == [] then RefStreamedEntries(opts, b, c, es)
    else AfterStreamedEntries(opts, es, b, View(CallK(opts, StreamedEntryP, below, h, b, c)))
  }

  /** `call(proc)` on the stack `stk`: the top frame resumed, or `proc` started. */
  function CallK(opts: Options, d: Proc, stk: seq<Frame>, h: seq<Byte>, b: seq<Byte>, c: nat): (o: Out<Read>)
    decreases |stk|, 0
    ensures Ahead(o, c)
  {
    if stk == [] then FreshK(opts, d, h, b, c)
    else FrameK(opts, stk[|stk| - 1], stk[..|stk| - 1], h, b, c)
  }

  /** The reading of a non-empty stack: its top frame resumed over the frames under it. */
  function StackK(opts: Options, stk: seq<Frame>, h: seq<Byte>, b: seq<Byte>, c: nat): (o: Out<Read>)
    requires stk != []
    ensures o == CallK(opts, ParseP, stk, h, b, c)
  {
    FrameK(opts, stk[|stk| - 1], stk[..|stk| - 1], h, b, c)
  }
}
