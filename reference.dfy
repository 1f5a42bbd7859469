/**
 * A reference reading of one RESP2/RESP3 reply from a complete buffer: plain
 * recursive descent over `b` from position `i`, with no stack of frames and no
 * composer. Each function follows one routine of `createParserState` and
 * moves the position exactly as that routine moves `count`. `Short` means the
 * routine runs out of bytes and would suspend.
 */
module Reference {
  import opened Utils
  import opened Resp
  import opened Lines
  import opened Composer

  /** The options a decoder is created with, as far as they change what it reads. */
  datatype Options = Options(
    resp3: bool,                        // `enableResp3`
    decodeBulk: bool,                   // `decodeBulk`
    utf8: seq<Byte> -> string,          // the `TextDecoder` behind `decode`
    bulkText: seq<Byte> -> string)      // `Bulk.prototype.decode`

  /** A value read up to position `next`, too few bytes, or an exception. */
  datatype Out<+T> = Got(value: T, next: int) | Short | Fail(fault: Fault)

  /**
   * What a blob reads to: its payload, as the fragments it arrives in (one for
   * a sized blob, one per `;` fragment for a streamed one), `''` (size 0) or
   * `null` (negative size).
   */
  datatype Payload = Fragments(parts: seq<seq<Byte>>) | EmptyPayload | NullPayload

  /** The bytes still ahead of `i`. */
  function Left(b: seq<Byte>, i: int): nat
  {
    if i < |b| then |b| - i else 0
  }

  /** The same outcome with its value wrapped as `f` says. */
  function Wrapped<A, B>(o: Out<A>, f: A -> B): (w: Out<B>)
    ensures o.Got? <==> w.Got?
    ensures o.Got? ==> w.value == f(o.value) && w.next == o.next
    ensures o.Short? <==> w.Short?
    ensures o.Fail? ==> w == Fail(o.fault)
  {
    match o
    case Got(v, n) => Got(f(v), n)
    case Short => Short
    case Fail(e) => Fail(e)
  }

  /** The same outcome with the fragments `p` in front of those read. */
  function Prefixed(p: seq<seq<Byte>>, o: Out<seq<seq<Byte>>>): (w: Out<seq<seq<Byte>>>)
    ensures o.Got? <==> w.Got?
    ensures o.Got? ==> w.value == p + o.value && w.next == o.next
    ensures !o.Got? ==> w == o
  {
    match o
    case Got(q, n) => Got(p + q, n)
    case _ => o
  }

  /*
   * Lines and sizes.
   */

  /** `parseLine` from `i` with an empty composer: the line's bytes decoded. */
  function RefLine(opts: Options, b: seq<Byte>, i: int): (o: Out<string>)
    ensures o.Got? <==> Terminated(b, i)
    ensures o.Got? ==> o.next >= i + 2
  {
    if Terminated(b, i) then Got(Decoded(LineBytes(b, i), opts.utf8), ScanStop(b, i) + 2) else Short
  }

  /** `parseAsciiLine`: the line's bytes looked up in `ASCII`. */
  function RefAsciiLine(b: seq<Byte>, i: int): (o: Out<string>)
    ensures o.Got? <==> Terminated(b, i)
    ensures o.Got? ==> o.next >= i + 2
  {
    if Terminated(b, i) then Got(AsciiJs("", LineBytes(b, i)), ScanStop(b, i) + 2) else Short
  }

  /** `parseSize`: `?`, the shortcuts `0` and `-`, or an unsigned decimal line. */
  function RefSize(b: seq<Byte>, i: int): (o: Out<Size>)
    ensures o.Got? ==> 0 <= i < |b| && o.next >= i + 2
    ensures !o.Fail?
  {
    var x := At(b, i);
    if x == Some(Question) then Got(Streamed, i + 3)
    else if x == Some(DigitZero) then Got(Sized(0), i + 3)
    else if x == Some(Minus) then Got(Sized(-1), i + 4)
    else if Truthy(x) && Terminated(b, i) then Got(Sized(Accumulate(0, LineBytes(b, i))), ScanStop(b, i) + 2)
    else Short
  }

  /*
   * Scalars.
   */

  /** `parseDecimals(sign, acc)`: the signed fold of the line, a `BigInt` once a prefix reaches the ceiling. */
  function RefDecimals(b: seq<Byte>, i: int, sign: int, acc: int): (o: Out<Reply>)
    ensures o.Got? ==> o.next == ScanStop(b, i) + 2 && (o.value.Int? || o.value.BigInt?)
  {
    var digits := LineBytes(b, i);
    var v := Accumulate(acc, digits);
    if !Terminated(b, i) then Short
    else if Overflows(acc, digits) then Got(BigInt(sign * v), ScanStop(b, i) + 2)
    else Got(Int(sign * v), ScanStop(b, i) + 2)
  }

  /** `parseInt`: `0`, or an optional sign and then decimals. */
  function RefInt(b: seq<Byte>, i: int): (o: Out<Reply>)
    ensures o.Got? ==> 0 <= i < |b| && o.next >= i + 2
  {
    var x := At(b, i);
    if x.None? then Short
    else if x.value == DigitZero then Got(Int(0), i + 3)
    else if x.value != Plus && x.value != Minus then RefDecimals(b, i, 1, 0)
    else RefDecimals(b, i + 1, if x.value == Plus then 1 else -1, 0)
  }

  /** `parseBoolean`: any data byte is read, and only `t` is true. */
  function RefBoolean(b: seq<Byte>, i: int): (o: Out<Reply>)
    ensures o.Got? <==> Truthy(At(b, i))
  {
    var x := At(b, i);
    if Truthy(x) then Got(Bool(x.value == LetterT), i + 3) else Short
  }

  /** `parseFailure`: the line as a `Failure`. */
  function RefFailure(opts: Options, b: seq<Byte>, i: int): Out<Reply>
  {
    Wrapped(RefLine(opts, b, i), (t: string) => Failure(t))
  }

  /** `parseBigNumbers`: the ASCII line as a big-number token. */
  function RefBigNumber(b: seq<Byte>, i: int): Out<Reply>
  {
    Wrapped(RefAsciiLine(b, i), (t: string) => BigNumber(t))
  }

  /** What `parseDouble` makes of its line: `inf` and `-inf`, or a number token. */
  function DoubleOf(t: string): Reply
  {
    if t == "inf" then Infinity(false) else if t == "-inf" then Infinity(true) else Double(t)
  }

  /** `parseDouble`: `inf` and `-inf`, or any other line as a number token. */
  function RefDouble(b: seq<Byte>, i: int): Out<Reply>
  {
    Wrapped(RefAsciiLine(b, i), DoubleOf)
  }

  /*
   * Blobs.
   */

  /** `captureUncomposedBlob(s)` from `i` with nothing captured yet: all `s` bytes, then the CR LF. */
  function RefPayload(b: seq<Byte>, i: int, s: nat): (o: Out<Payload>)
    requires 0 <= i && s > 0
    ensures o.Got? <==> s <= |b| - i
    ensures o.Got? ==> o.value == Fragments([b[i..i + s]]) && o.next == i + s + 2
  {
    if s <= |b| - i then Got(Fragments([b[i..i + s]]), i + s + 2) else Short
  }

  /** `captureBlob`: a size, then the payload, `''`, `null`, or fragments. */
  function RefBlob(b: seq<Byte>, i: int): (o: Out<Payload>)
    requires 0 <= i
    decreases Left(b, i), 1
    ensures o.Got? ==> 0 <= i < |b| && o.next >= i + 2
    ensures !o.Fail?
  {
    match RefSize(b, i)
    case Got(Sized(n), k) =>
      if n > 0 then RefPayload(b, k, n)
      else if n == 0 then Got(EmptyPayload, k + 2)
      else Got(NullPayload, k)
    case Got(Streamed, k) => Wrapped(RefChunks(b, k), (ps: seq<seq<Byte>>) => Fragments(ps))
    case Short => Short
  }

  /** `captureChunk`: a `;` fragment header is skipped, then a blob. */
  function RefChunk(b: seq<Byte>, i: int): (o: Out<Payload>)
    requires 0 <= i
    decreases Left(b, i), 2
    ensures o.Got? ==> i + 1 < |b| && o.next >= i + 3
    ensures !o.Fail?
  {
    RefBlob(b, i + 1)
  }

  /**
   * `captureChunkedBlob`: fragments until one that is empty or null, whose
   * CR LF the cursor then steps back over; all fragments in order.
   */
  function RefChunks(b: seq<Byte>, i: int): (o: Out<seq<seq<Byte>>>)
    requires 0 <= i
    decreases Left(b, i), 3
    ensures o.Got? ==> i < |b| && o.next >= i + 1
    ensures !o.Fail?
  {
    match RefChunk(b, i)
    case Got(Fragments(ps), n) => Prefixed(ps, RefChunks(b, n))
    case Got(_, n) => Got([], n - 2)
    case Short => Short
  }

  /** A fragment with a payload is followed by the rest of the stream. */
  lemma ChunksUnfold(b: seq<Byte>, i: int)
    requires 0 <= i && RefChunk(b, i).Got? && RefChunk(b, i).value.Fragments?
    ensures RefChunks(b, i) == Prefixed(RefChunk(b, i).value.parts, RefChunks(b, RefChunk(b, i).next))
  {
  }

  /** The loop of `captureChunkedBlob`: one more fragment read moves its bytes into the prefix. */
  lemma ChunksAdvance(b: seq<Byte>, i0: int, got: seq<seq<Byte>>, i: int)
    requires 0 <= i0 && 0 <= i && RefChunks(b, i0) == Prefixed(got, RefChunks(b, i))
    requires RefChunk(b, i).Got? && RefChunk(b, i).value.Fragments?
    ensures RefChunks(b, i0) == Prefixed(got + RefChunk(b, i).value.parts, RefChunks(b, RefChunk(b, i).next))
  {
    ChunksUnfold(b, i);
    PrefixedTwice(got, RefChunk(b, i).value.parts, RefChunks(b, RefChunk(b, i).next));
  }

  /** Bytes put in front twice are put in front together. */
  lemma PrefixedTwice(p: seq<seq<Byte>>, q: seq<seq<Byte>>, o: Out<seq<seq<Byte>>>)
    ensures Prefixed(p, Prefixed(q, o)) == Prefixed(p + q, o)
  {
    if o.Got? {
      assert p + (q + o.value) == (p + q) + o.value;
    }
  }

  /** `parseBulk`. */

  function RefBulk(opts: Options, b: seq<Byte>, i: int): Out<Reply>
    requires 0 <= i
  {
    Wrapped(RefBlob(b, i), (p: Payload) => BulkReply(opts, p))
  }

  /** `parseBulkFailure`. */
  function RefBulkFailure(opts: Options, b: seq<Byte>, i: int): Out<Reply>
    requires 0 <= i
  {
    Wrapped(RefBlob(b, i), (p: Payload) => BulkFailureReply(opts, p))
  }

  /** `parseFormatedBulk`. */
  function RefVerbatim(b: seq<Byte>, i: int): Out<Reply>
    requires 0 <= i
  {
    Wrapped(RefBlob(b, i), (p: Payload) => VerbatimReply(p))
  }

  /** What `parseBulk` makes of a payload. */
  function BulkReply(opts: Options, p: Payload): Reply
  {
    match p
    case Fragments(ps) => if opts.decodeBulk then Str(Decoded(Flatten(ps), opts.utf8)) else Bulk(Flatten(ps))
    case EmptyPayload => Str("")
    case NullPayload => Null
  }

  /** What `parseBulkFailure` makes of a payload. */
  function BulkFailureReply(opts: Options, p: Payload): Reply
  {
    match p
    case Fragments(ps) => Failure(Decoded(Flatten(ps), opts.utf8))
    case _ => Failure("")
  }

  /** What `parseFormatedBulk` makes of a payload. */
  function VerbatimReply(p: Payload): Reply
  {
    match p
    case Fragments(ps) => VerbatimOf(Flatten(ps))
    case EmptyPayload => Str("")
    case NullPayload => Null
  }

  /** `k.decode()` for a `Bulk` key of a sized map; other keys stay. */
  function DecodeKey(bulkText: seq<Byte> -> string, e: Entry): (d: Entry)
    ensures d.value == e.value
    ensures e.key.Bulk? ==> d.key == Str(bulkText(e.key.bytes))
    ensures !e.key.Bulk? ==> d.key == e.key
  {
    if e.key.Bulk? then Entry(Str(bulkText(e.key.bytes)), e.value) else e
  }

  /*
   * Replies.
   */

  /**
   * `parseResp2Unmapped` (`v3` false) or `parseResp3Unmapped` (`v3` true):
   * the tag byte picks the routine, which reads from the next byte.
   */
  function RefReply(opts: Options, b: seq<Byte>, i: int, v3: bool): (o: Out<Reply>)
    requires 0 <= i
    decreases Left(b, i), 1
    ensures o.Got? ==> i < |b| && o.next > i
    ensures At(b, i).None? ==> o == Short
    ensures At(b, i).Some? && !IsTag(At(b, i).value, v3) ==> o == Fail(SyntaxError)
  {
    var x := At(b, i);
    if x.None? then Short
    else if x.value in Resp2Tags then RefResp2(opts, b, i + 1, x.value)
    else if v3 && x.value in Resp3Tags then RefResp3(opts, b, i + 1, x.value)
    else Fail(SyntaxError)
  }

  /** The routines of the tags RESP2 and RESP3 share, from the byte after the tag. */
  function RefResp2(opts: Options, b: seq<Byte>, i: int, tag: Byte): (o: Out<Reply>)
    requires 0 <= i && tag in Resp2Tags
    decreases Left(b, i), 6
    ensures o.Got? ==> o.next > i
  {
    if tag == 0x2B then Wrapped(RefLine(opts, b, i), (t: string) => Str(t))
    else if tag == 0x2D then RefFailure(opts, b, i)
    else if tag == 0x3A then RefInt(b, i)
    else if tag == 0x24 then RefBulk(opts, b, i)
    else RefAggregate(opts, b, i, ListS)
  }

  /** The routines of the tags RESP3 adds, from the byte after the tag. */
  function RefResp3(opts: Options, b: seq<Byte>, i: int, tag: Byte): (o: Out<Reply>)
    requires 0 <= i && tag in Resp3Tags
    decreases Left(b, i), 6
    ensures o.Got? ==> o.next > i
  {
    if tag == 0x7E then RefAggregate(opts, b, i, SetS)
    else if tag == 0x25 then RefHash(opts, b, i)
    else if tag == 0x3E then RefAggregate(opts, b, i, PushS)
    else if tag == 0x7C then RefAttributes(opts, b, i)
    else if tag == 0x5F then Got(Null, i + 2)
    else if tag == 0x23 then RefBoolean(b, i)
    else if tag == 0x2C then RefDouble(b, i)
    else if tag == 0x28 then RefBigNumber(b, i)
    else if tag == 0x21 then RefBulkFailure(opts, b, i)
    else RefVerbatim(b, i)
  }

  /** `parseList`, `parseUnordered`, `parsePush`: a size, then the elements. */
  function RefAggregate(opts: Options, b: seq<Byte>, i: int, shape: Shape): (o: Out<Reply>)
    requires 0 <= i && shape != EntryS
    decreases Left(b, i), 4
    ensures o.Got? ==> i < |b| && o.next >= i + 2
  {
    match RefSize(b, i)
    case Got(Sized(n), k) =>
      if n >= ArrayLengthLimit then Fail(RangeError)
      else if n > 0 then Wrapped(RefSlots(opts, b, k, [], n), (items: seq<Reply>) => Wrap(shape, items))
      else if n == 0 then Got(Wrap(shape, []), k)
      else Got(Null, k)
    case Got(Streamed, k) => Wrapped(RefStreamed(opts, b, k, []), (items: seq<Reply>) => Wrap(shape, items))
    case Short => Short
  }

  /**
   * What the size of an aggregate decides: 2^32 or more throws `RangeError`,
   * as `new Array(s)` does; a negative size is `null`; any other size gives
   * exactly that many elements.
   */
  lemma AggregateSized(opts: Options, b: seq<Byte>, i: int, shape: Shape)
    requires 0 <= i && shape != EntryS && RefSize(b, i).Got? && RefSize(b, i).value.Sized?
    ensures var n := RefSize(b, i).value.n;
            var o := RefAggregate(opts, b, i, shape);
            (n >= ArrayLengthLimit ==> o == Fail(RangeError)) &&
            (o.Got? && n < 0 ==> o.value.Null?) &&
            (o.Got? && n >= 0 ==> (o.value.List? || o.value.Set? || o.value.Push?) &&
                                  o.value == Wrap(shape, o.value.items) && |o.value.items| == n)
  {
    var n := RefSize(b, i).value.n;
    var k := RefSize(b, i).next;
    if 0 < n < ArrayLengthLimit {
      var o := RefSlots(opts, b, k, [], n);
      assert RefAggregate(opts, b, i, shape) == Wrapped(o, (items: seq<Reply>) => Wrap(shape, items));
    }
  }

  /** `parseExpressionList`: replies in the slots `|acc|` to `s - 1`. */
  function RefSlots(opts: Options, b: seq<Byte>, i: int, acc: seq<Reply>, s: int): (o: Out<seq<Reply>>)
    requires 0 <= i
    decreases Left(b, i), 2
    ensures o.Got? ==> o.next >= i && (|acc| < s ==> i < |b| && o.next > i)
    ensures o.Got? && |acc| <= s ==> |o.value| == s && o.value[..|acc|] == acc
  {
    if |acc| >= s then Got(acc, i)
    else match RefReply(opts, b, i, opts.resp3)
      case Got(v, n) => RefSlots(opts, b, n, acc + [v], s)
      case Short => Short
      case Fail(e) => Fail(e)
  }

  /** `parseStreamedExpressionList`: replies until the `.` that ends the stream. */
  function RefStreamed(opts: Options, b: seq<Byte>, i: int, acc: seq<Reply>): (o: Out<seq<Reply>>)
    requires 0 <= i
    decreases Left(b, i), 2
    ensures o.Got? ==> i < |b| && o.next > i
  {
    var x := At(b, i);
    if x == Some(Dot) then Got(acc, i + 3)
    else if !Truthy(x) then Short
    else match RefReply(opts, b, i, opts.resp3)
      case Got(v, n) => RefStreamed(opts, b, n, acc + [v])
      case Short => Short
      case Fail(e) => Fail(e)
  }

  /** `parseEntry`: a key and a value. */
  function RefEntry(opts: Options, b: seq<Byte>, i: int): (o: Out<Entry>)
    requires 0 <= i
    decreases Left(b, i), 3
    ensures o.Got? ==> i < |b| && o.next > i
  {
    match RefSlots(opts, b, i, [], 2)
    case Got(kv, n) => Got(Entry(kv[0], kv[1]), n)
    case Short => Short
    case Fail(e) => Fail(e)
  }

  /** `parseHash`: a size, then the entries. */
  function RefHash(opts: Options, b: seq<Byte>, i: int): (o: Out<Reply>)
    requires 0 <= i
    decreases Left(b, i), 4
    ensures o.Got? ==> i < |b| && o.next >= i + 2 && (o.value.Map? || o.value.Null?)
  {
    match RefSize(b, i)
    case Got(Sized(n), k) =>
      if n >= ArrayLengthLimit then Fail(RangeError)
      else if n > 0 then Wrapped(RefEntries(opts, b, k, [], n), (es: seq<Entry>) => Map(es))
      else if n == 0 then Got(Map([]), k)
      else Got(Null, k)
    case Got(Streamed, k) => Wrapped(RefStreamedEntries(opts, b, k, []), (es: seq<Entry>) => Map(es))
    case Short => Short
  }

  /**
   * What the size of a map decides: 2^32 or more throws `RangeError`, as
   * `new Hash(s)` does; a negative size is `null`; any other size gives
   * exactly that many entries.
   */
  lemma HashSized(opts: Options, b: seq<Byte>, i: int)
    requires 0 <= i && RefSize(b, i).Got? && RefSize(b, i).value.Sized?
    ensures var n := RefSize(b, i).value.n;
            var o := RefHash(opts, b, i);
            (n >= ArrayLengthLimit ==> o == Fail(RangeError)) &&
            (o.Got? && n < 0 ==> o.value.Null?) &&
            (o.Got? && n >= 0 ==> o.value.Map? && |o.value.entries| == n)
  {
    var n := RefSize(b, i).value.n;
    var k := RefSize(b, i).next;
    if 0 < n < ArrayLengthLimit {
      var o := RefEntries(opts, b, k, [], n);
      EntriesCount(opts, b, k, [], n);
      assert RefHash(opts, b, i) == Wrapped(o, (es: seq<Entry>) => Map(es));
    }
  }

  /** `parseEntryList`: the entries `|acc|` to `s - 1`, `Bulk` keys decoded. */
  function RefEntries(opts: Options, b: seq<Byte>, i: int, acc: seq<Entry>, s: int): (o: Out<seq<Entry>>)
    requires 0 <= i
    decreases Left(b, i), 4
    ensures o.Got? ==> o.next >= i
  {
    if |acc| >= s then Got(acc, i)
    else match RefEntry(opts, b, i)
      case Got(e, n) => RefEntries(opts, b, n, acc + [DecodeKey(opts.bulkText, e)], s)
      case Short => Short
      case Fail(e) => Fail(e)
  }

  /** The entry list read holds exactly `s` entries, the ones already read first. */
  lemma {:induction false} EntriesCount(opts: Options, b: seq<Byte>, i: int, acc: seq<Entry>, s: int)
    requires 0 <= i
    decreases Left(b, i), s - |acc|
    ensures var o := RefEntries(opts, b, i, acc, s);
            o.Got? && |acc| <= s ==> |o.value| == s && o.value[..|acc|] == acc
  {
    if |acc| < s {
      match RefEntry(opts, b, i)
      case Got(e, n) =>
        var acc' := acc + [DecodeKey(opts.bulkText, e)];
        EntriesCount(opts, b, n, acc', s);
        assert acc'[..|acc|] == acc;
      case Short =>
      case Fail(_) =>
    }
  }

  /** `parseStreamedEntryList`: entries, keys as read, until the `.` that ends the stream. */
  function RefStreamedEntries(opts: Options, b: seq<Byte>, i: int, acc: seq<Entry>): (o: Out<seq<Entry>>)
    requires 0 <= i
    decreases Left(b, i), 4
    ensures o.Got? ==> i < |b| && o.next > i
  {
    var x := At(b, i);
    if x == Some(Dot) then Got(acc, i + 3)
    else if !Truthy(x) then Short
    else match RefEntry(opts, b, i)
      case Got(e, n) => RefStreamedEntries(opts, b, n, acc + [e])
      case Short => Short
      case Fail(e) => Fail(e)
  }

  /** `parseAttributes`: an attribute map, then the reply it annotates. */
  function RefAttributes(opts: Options, b: seq<Byte>, i: int): (o: Out<Reply>)
    requires 0 <= i
    decreases Left(b, i), 5
    ensures o.Got? ==> o.next > i
  {
    match RefHash(opts, b, i)
    case Got(m, n) => if m.Map? then RefWithAttributes(opts, b, n, m.entries) else RefReply(opts, b, n, true)
    case Short => Short
    case Fail(e) => Fail(e)
  }

  /** `parseWithAttributes`: the next reply with the attributes attached. */
  function RefWithAttributes(opts: Options, b: seq<Byte>, i: int, attrs: seq<Entry>): (o: Out<Reply>)
    requires 0 <= i
    decreases Left(b, i), 2
    ensures o.Got? ==> i < |b| && o.next > i && o.value.Attributed?
  {
    match RefReply(opts, b, i, true)
    case Got(v, n) =>
      if v.Null? then Fail(TypeError)
      else if v.Attributed? then Got(v, n)
      else Got(Attributed(attrs, v), n)
    case Short => Short
    case Fail(e) => Fail(e)
  }
}
