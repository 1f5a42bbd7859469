/**
 * What a routine leaves behind when it suspends. A routine that runs out of
 * bytes pushes its frame with the locals it has reached and moves the
 * cursor to where it stopped; resumed on any extension of the buffer, that
 * frame reads what the routine would have read from where it started. The
 * lemmas here state this for each way a routine suspends, and relate the
 * continuation of a routine started on an empty stack to its reference
 * reading.
 */
module Resumption {
  import opened Utils
  import opened Composer
  import opened Resp
  import opened Lines
  import opened Reference
  import opened Stability
  import opened Continuation
  import opened ResumedStability

  /**
   * The stack `stk`, resumed at `c` with the composer holding `h`, reads on
   * every extension of `b` what frame `f` resumed at `c0` over `below0` with
   * the composer holding `h0` reads.
   */
  ghost predicate SameAs(opts: Options, stk: seq<Frame>, h: seq<Byte>, b: seq<Byte>, c: nat,
                         f: Frame, below0: seq<Frame>, h0: seq<Byte>, c0: nat)
  {
    forall more :: View(CallK(opts, ParseP, stk, h, b + more, c)) == View(FrameK(opts, f, below0, h0, b + more, c0))
  }

  /** `call(proc)` on `stk` at `c` reads, on every extension of `b`, what it reads on `stk0` at `c0`. */
  ghost predicate CallSame(opts: Options, d: Proc, stk: seq<Frame>, h: seq<Byte>, b: seq<Byte>, c: nat,
                           stk0: seq<Frame>, h0: seq<Byte>, c0: nat)
  {
    forall more :: View(CallK(opts, d, stk, h, b + more, c)) == View(CallK(opts, d, stk0, h0, b + more, c0))
  }

  /*
   * Leaf routines: the scan of an unterminated line resumes where it stopped.
   */

  /**
   * A scan from `c` that ran off the end of `b` stopped at `s`; on `b + more`
   * the scan from `c` goes on exactly as a scan from `s`, and the line's bytes
   * are those seen so far followed by those of the scan from `s`.
   */
  lemma {:induction false} ScanResume(b: seq<Byte>, more: seq<Byte>, c: int)
    requires 0 <= c && !Terminated(b, c)
    decreases |b| - c
    ensures var s := ScanStop(b, c);
            ScanStop(b + more, c) == ScanStop(b + more, s) &&
            Terminated(b + more, c) == Terminated(b + more, s) &&
            LineBytes(b + more, c) == LineBytes(b, c) + LineBytes(b + more, s)
  {
    var s := ScanStop(b, c);
    if Truthy(At(b, c)) && b[c] != CR {
      ScanResume(b, more, c + 1);
      var e := ScanStop(b + more, c);
      assert (b + more)[c] == b[c];
      assert LineBytes(b + more, c) == [b[c]] + LineBytes(b + more, c + 1);
      assert LineBytes(b, c) == [b[c]] + LineBytes(b, c + 1);
    } else {
      assert s == c;
      assert LineBytes(b, c) == [];
    }
  }

  /** `parseLine` suspended with the line so far in the composer. */
  lemma LineKResume(opts: Options, h: seq<Byte>, b: seq<Byte>, more: seq<Byte>, c: int)
    requires 0 <= c && !Terminated(b, c)
    ensures LineK(opts, h + LineBytes(b, c), b + more, ScanStop(b, c)) == LineK(opts, h, b + more, c)
  {
    ScanResume(b, more, c);
    var s := ScanStop(b, c);
    assert (h + LineBytes(b, c)) + LineBytes(b + more, s) == h + LineBytes(b + more, c);
  }

  /** Looking up bytes in two runs is looking them up in one. */
  lemma {:induction false} AsciiJsAppend(o: string, x: seq<Byte>, y: seq<Byte>)
    ensures AsciiJs(o, x + y) == AsciiJs(AsciiJs(o, x), y)
    decreases |y|
  {
    if y == [] {
      assert x + y == x;
    } else {
      var front := y[..|y| - 1];
      assert (x + y)[..|x + y| - 1] == x + front;
      AsciiJsAppend(o, x, front);
    }
  }

  /** `parseAsciiLineBytes` suspended with the text so far. */
  lemma AsciiKResume(t: string, b: seq<Byte>, more: seq<Byte>, c: int)
    requires 0 <= c && !Terminated(b, c)
    ensures AsciiK(AsciiJs(t, LineBytes(b, c)), b + more, ScanStop(b, c)) == AsciiK(t, b + more, c)
  {
    ScanResume(b, more, c);
    AsciiJsAppend(t, LineBytes(b, c), LineBytes(b + more, ScanStop(b, c)));
  }

  /** `parseUint32` suspended with the value so far. */
  lemma Uint32KResume(acc: int, b: seq<Byte>, more: seq<Byte>, c: int)
    requires 0 <= c && !Terminated(b, c)
    ensures Uint32K(Accumulate(acc, LineBytes(b, c)), b + more, ScanStop(b, c)) == Uint32K(acc, b + more, c)
  {
    ScanResume(b, more, c);
    AccumulateAppend(acc, LineBytes(b, c), LineBytes(b + more, ScanStop(b, c)));
  }

  /** `parseBigIntDecimals` suspended with the value so far. */
  lemma BigDecimalsKResume(i: int, sign: int, b: seq<Byte>, more: seq<Byte>, c: int)
    requires 0 <= c && !Terminated(b, c)
    ensures BigDecimalsK(Accumulate(i, LineBytes(b, c)), sign, b + more, ScanStop(b, c)) == BigDecimalsK(i, sign, b + more, c)
  {
    ScanResume(b, more, c);
    AccumulateAppend(i, LineBytes(b, c), LineBytes(b + more, ScanStop(b, c)));
  }

  /** Some prefix of `x + y` reaches the ceiling when one of `x` does, or one of `y` continuing from `x`'s value. */
  lemma {:induction false} OverflowsSplit(acc: int, x: seq<Byte>, y: seq<Byte>)
    ensures Overflows(acc, x + y) == (Overflows(acc, x) || Overflows(Accumulate(acc, x), y))
    decreases |y|
  {
    if y == [] {
      assert x + y == x;
    } else {
      var front := y[..|y| - 1];
      assert (x + y)[..|x + y| - 1] == x + front;
      OverflowsSplit(acc, x, front);
      AccumulateAppend(acc, x, y);
    }
  }

  /**
   * `parseDecimals` suspended: below the ceiling it resumes as itself with the
   * value so far; past it, as `parseBigIntDecimals` with the whole value so far.
   */
  lemma DecimalsResume(i: int, sign: int, b: seq<Byte>, more: seq<Byte>, c: int)
    requires 0 <= c && !Terminated(b, c)
    ensures var v := Accumulate(i, LineBytes(b, c));
            if Overflows(i, LineBytes(b, c))
            then BigDecimalsK(v, sign, b + more, ScanStop(b, c)) == RefDecimals(b + more, c, sign, i)
            else RefDecimals(b + more, ScanStop(b, c), sign, v) == RefDecimals(b + more, c, sign, i)
  {
    ScanResume(b, more, c);
    var x, y := LineBytes(b, c), LineBytes(b + more, ScanStop(b, c));
    AccumulateAppend(i, x, y);
    OverflowsSplit(i, x, y);
  }

  /** `parseInt` past its sign reads as `parseDecimals` from the first digit. */
  lemma IntIsDecimals(b: seq<Byte>, c: int)
    requires 0 <= c && At(b, c).Some? && At(b, c).value != DigitZero
    ensures var x := At(b, c).value;
            if x == Plus then RefInt(b, c) == RefDecimals(b, c + 1, 1, 0)
            else if x == Minus then RefInt(b, c) == RefDecimals(b, c + 1, -1, 0)
            else RefInt(b, c) == RefDecimals(b, c, 1, 0)
  {
  }

  /** `parseSize` on a plain digit line reads as `parseUint32(0)`. */
  lemma SizeIsUint32(b: seq<Byte>, c: int)
    requires 0 <= c && Truthy(At(b, c))
    requires At(b, c) != Some(Question) && At(b, c) != Some(DigitZero) && At(b, c) != Some(Minus)
    ensures RefSize(b, c) == Uint32K(0, b, c)
  {
  }

  /** `captureUncomposedBlob` suspended with the part of the payload this buffer held in the composer. */
  lemma PayloadResume(h: seq<Byte>, b: seq<Byte>, more: seq<Byte>, c: int, s: nat)
    requires 0 <= c && s > 0 && Take(s, |b| - c) < s
    ensures var m := Take(s, |b| - c);
            ReadHeld(h + (if m > 0 then b[c..c + m] else []), RefPayload(b + more, c + m, s - m)) ==
            ReadHeld(h, RefPayload(b + more, c, s))
  {
    var m := Take(s, |b| - c);
    var pre: seq<Byte> := if m > 0 then b[c..c + m] else [];
    assert m > 0 ==> c + m == |b|;
    var b' := b + more;
    if s <= |b'| - c {
      assert pre == b'[c..c + m];
      PayloadJoin(h, b', c, m, s);
    }
  }

  lemma PayloadJoin(h: seq<Byte>, b: seq<Byte>, c: int, m: nat, s: nat)
    requires 0 <= c && m < s <= |b| - c
    ensures ReadHeld(h + b[c..c + m], RefPayload(b, c + m, s - m)) == ReadHeld(h, RefPayload(b, c, s))
  {
    var whole, rest := b[c..c + s], b[c + m..c + s];
    assert b[c..c + m] + rest == whole;
    FlattenOne(rest);
    FlattenOne(whole);
    assert (h + b[c..c + m]) + rest == h + whole;
  }

  lemma FlattenOne(x: seq<Byte>)
    ensures Flatten([x]) == x
  {
    assert [x][..0] == [];
  }

  /*
   * Routines started on an empty stack: their continuation is their
   * reference reading.
   */

  lemma FailureFresh(opts: Options, b: seq<Byte>, c: nat)
    ensures AfterFailure(View(CallK(opts, LineP, [], [], b, c))) == RefFailure(opts, b, c)
  {
    assert [] + LineBytes(b, c) == LineBytes(b, c);
  }

  lemma LineFresh(opts: Options, b: seq<Byte>, c: nat)
    ensures View(FrameK(opts, LineF, [], [], b, c)) == ReadReply(Wrapped(RefLine(opts, b, c), (t: string) => Str(t)))
  {
    assert [] + LineBytes(b, c) == LineBytes(b, c);
  }

  lemma DoubleFresh(opts: Options, h: seq<Byte>, b: seq<Byte>, c: nat)
    ensures AfterDouble(View(CallK(opts, AsciiLineP, [], h, b, c))) == RefDouble(b, c)
  {
  }

  lemma BigNumberFresh(opts: Options, h: seq<Byte>, b: seq<Byte>, c: nat)
    ensures AfterBigNumber(View(CallK(opts, AsciiLineP, [], h, b, c))) == RefBigNumber(b, c)
  {
  }

  /** A blob read into a composer: `captureBlob` from an empty stack is the reference blob. */
  lemma BlobFresh(opts: Options, h: seq<Byte>, b: seq<Byte>, c: nat)
    ensures AfterBlob(h, b, View(CallK(opts, SizeP, [], h, b, c))) == ReadHeld(h, RefBlob(b, c))
  {
  }

  /** A fragment of a streamed blob is the blob after its `;`. */
  lemma ChunkFresh(opts: Options, h: seq<Byte>, b: seq<Byte>, c: nat)
    ensures FrameK(opts, BlobF, [], h, b, c + 1) == ReadHeld(h, RefChunk(b, c))
  {
    BlobFresh(opts, h, b, c + 1);
  }

  /** The fragments of a streamed blob, one `captureChunk` after another. */
  lemma ChunkedFresh(opts: Options, h: seq<Byte>, b: seq<Byte>, c: nat)
    ensures AfterChunked(b, View(CallK(opts, ChunkP, [], h, b, c))) == ReadChunks(h, RefChunks(b, c))
  {
    match RefChunk(b, c)
    case Got(Fragments(ps), n) =>
      if RefChunks(b, n).Got? {
        FlattenAppend(ps, RefChunks(b, n).value);
        assert (h + Flatten(ps)) + Flatten(RefChunks(b, n).value) == h + Flatten(ps + RefChunks(b, n).value);
      }
    case Got(_, n) =>
      assert Flatten([]) == [];
      assert h + [] == h;
    case Short =>
  }

  /** `captureBlob` once its size is read: the payload routine that size selects. */
  lemma BlobSized(opts: Options, stk0: seq<Frame>, h0: seq<Byte>, b: seq<Byte>, c0: nat, size: Size, k: nat)
    requires CallK(opts, SizeP, stk0, h0, b, c0) == Got(Val(ASize(size)), k)
    ensures FrameK(opts, BlobF, stk0, h0, b, c0) ==
              match size
              case Sized(n) =>
                if n > 0 then FrameK(opts, UncomposedBlobF(n), [], h0, b, k)
                else if n == 0 then Got(Held(EmptyBlob, h0), k + 2)
                else Got(Held(NullBlob, h0), k)
              case Streamed => FrameK(opts, ChunkedBlobF, [], h0, b, k)
  {
    if size.Streamed? {
      ChunkedFresh(opts, h0, b, k);
    }
  }

  /** The payload the composer hands `parseBulk` is the payload read, flattened. */
  lemma HeldPayloadFlat(h: seq<Byte>, o: Out<Payload>)
    ensures View(ReadHeld([], o)).Got? && View(ReadHeld([], o)).value.Held? ==>
              var x := View(ReadHeld([], o)).value;
              o.Got? && Flatten([x.bytes]) == (if o.value.Fragments? then Flatten(o.value.parts) else []) &&
              HeldPayload(x.blob, x.bytes) == (if o.value.Fragments? then Fragments([x.bytes]) else o.value)
  {
    if o.Got? && o.value.Fragments? {
      assert Flatten([[] + Flatten(o.value.parts)]) == Flatten([]) + ([] + Flatten(o.value.parts));
    }
  }

  lemma BulkFresh(opts: Options, b: seq<Byte>, c: nat)
    ensures AfterBulk(opts, View(CallK(opts, BlobP, [], [], b, c))) == RefBulk(opts, b, c)
  {
    HeldPayloadFlat([], RefBlob(b, c));
  }

  lemma BulkFailureFresh(opts: Options, b: seq<Byte>, c: nat)
    ensures AfterBulkFailure(opts, View(CallK(opts, BlobP, [], [], b, c))) == RefBulkFailure(opts, b, c)
  {
    HeldPayloadFlat([], RefBlob(b, c));
  }

  lemma VerbatimFresh(opts: Options, b: seq<Byte>, c: nat)
    ensures AfterVerbatim(View(CallK(opts, BlobP, [], [], b, c))) == RefVerbatim(b, c)
  {
    HeldPayloadFlat([], RefBlob(b, c));
  }

  lemma AggregateFresh(opts: Options, shape: Shape, h: seq<Byte>, b: seq<Byte>, c: nat)
    requires shape != EntryS
    ensures AfterAggregate(opts, shape, b, View(CallK(opts, SizeP, [], h, b, c))) == RefAggregate(opts, b, c, shape)
  {
  }

  lemma HashFresh(opts: Options, h: seq<Byte>, b: seq<Byte>, c: nat)
    ensures AfterHash(opts, b, View(CallK(opts, SizeP, [], h, b, c))) == RefHash(opts, b, c)
  {
  }

  lemma AttributesFresh(opts: Options, h: seq<Byte>, b: seq<Byte>, c: nat)
    ensures AfterAttributes(opts, b, View(CallK(opts, HashP, [], h, b, c))) == RefAttributes(opts, b, c)
  {
  }

  lemma WithFresh(opts: Options, attrs: seq<Entry>, h: seq<Byte>, b: seq<Byte>, c: nat)
    ensures AfterWith(attrs, View(CallK(opts, Resp3P, [], h, b, c))) == RefWithAttributes(opts, b, c, attrs)
  {
  }

  lemma SlotsFresh(opts: Options, items: seq<Reply>, s: int, h: seq<Byte>, b: seq<Byte>, c: nat)
    requires |items| < s
    ensures AfterSlots(opts, items, s, b, View(CallK(opts, ParseP, [], h, b, c))) == RefSlots(opts, b, c, items, s)
  {
  }

  lemma EntriesFresh(opts: Options, es: seq<Entry>, s: int, h: seq<Byte>, b: seq<Byte>, c: nat)
    requires |es| < s
    ensures AfterEntries(opts, es, s, b, View(CallK(opts, EntryP, [], h, b, c))) == RefEntries(opts, b, c, es, s)
  {
  }

  /** `parseEntry` is a two-slot expression list. */
  lemma EntryFresh(opts: Options, h: seq<Byte>, b: seq<Byte>, c: nat)
    ensures View(FrameK(opts, ExprListF(EntryS, [], 2), [], h, b, c)) == ReadEntry(RefEntry(opts, b, c))
  {
    SlotsFresh(opts, [], 2, h, b, c);
  }

  /** A list's elements under its array: the reading of the list routine as a reply. */
  lemma WrappedList(shape: Shape, o: Out<seq<Reply>>)
    requires shape != EntryS
    ensures ReadReply(Wrapped(o, (items: seq<Reply>) => Wrap(shape, items))) == ReadList(shape, o)
  {
  }

  lemma WrappedMap(o: Out<seq<Entry>>)
    ensures ReadReply(Wrapped(o, (es: seq<Entry>) => Map(es))) == ReadMap(o)
  {
  }

  /*
   * Suspending over a callee's chain.
   */

  /** The routine a frame waits on as soon as it is resumed. */
  function WaitsOn(f: Frame): Option<Proc>
  {
    match f
    case FailureF => Some(LineP)
    case DoubleF => Some(AsciiLineP)
    case BigNumberF => Some(AsciiLineP)
    case BulkF => Some(BlobP)
    case BulkFailureF => Some(BlobP)
    case VerbatimF => Some(BlobP)
    case AggregateF(_) => Some(SizeP)
    case HashF => Some(SizeP)
    case AttributesF => Some(HashP)
    case WithAttributesF(_) => Some(Resp3P)
    case ExprListF(_, _, _) => Some(ParseP)
    case EntryListF(_, _) => Some(EntryP)
    case BlobF => Some(SizeP)
    case ChunkedBlobF => Some(ChunkP)
    case _ => None
  }

  /**
   * A routine that suspends because the routine it waits on did pushes its
   * frame over that routine's chain: the frame resumed reads what the
   * routine would have read, as long as the callee's chain does. A blob
   * frame keeps the composer it had.
   */
  lemma PushResumes(opts: Options, f: Frame, d: Proc, stk: seq<Frame>, h: seq<Byte>, b: seq<Byte>, c: nat,
                    stk0: seq<Frame>, h0: seq<Byte>, c0: nat)
    requires WaitsOn(f) == Some(d) && (f.BlobF? ==> h == h0)
    requires CallSame(opts, d, stk, h, b, c, stk0, h0, c0)
    ensures SameAs(opts, stk + [f], h, b, c, f, stk0, h0, c0)
  {
    assert (stk + [f])[..|stk|] == stk;
    forall more
      ensures View(CallK(opts, ParseP, stk + [f], h, b + more, c)) == View(FrameK(opts, f, stk0, h0, b + more, c0))
    {
      assert View(CallK(opts, d, stk, h, b + more, c)) == View(CallK(opts, d, stk0, h0, b + more, c0));
    }
  }

  /** A routine that suspends without reading anything puts back the frame it was resumed from. */
  lemma PushIdle(opts: Options, f: Frame, stk: seq<Frame>, h: seq<Byte>, b: seq<Byte>, c: nat)
    ensures SameAs(opts, stk + [f], h, b, c, f, stk, h, c)
  {
    assert (stk + [f])[..|stk|] == stk;
  }

  /** A frame that composes nothing changes nothing about whether the composer is accounted for. */
  lemma CleanPush(stk: seq<Frame>, f: Frame, parts: seq<seq<Byte>>)
    requires !Composes(f)
    ensures Clean(stk + [f], parts) == Clean(stk, parts)
  {
    ComposingPush(stk, f);
  }
}
