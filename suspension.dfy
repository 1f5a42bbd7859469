/**
 * How each routine of the decoder suspends, stated as what the frames it
 * leaves behind read on every extension of the buffer. A leaf routine
 * that runs out of bytes pushes a frame whose reading continues its own
 * scan; a routine whose callee suspended pushes itself over the callee's
 * chain; a loop that suspends between slots pushes itself with the slots
 * filled so far. Each lemma here states that the frames pushed read what
 * the routine, started afresh on the same bytes, reads.
 */
module Suspension {
  import opened Utils
  import opened Composer
  import opened Resp
  import opened Lines
  import opened Reference
  import opened Stability
  import opened Continuation
  import opened ResumedStability
  import opened Resumption

  /*
   * Leaf routines that ran off the end of the buffer.
   */

  /** `parseUint32` suspended with the digits it folded. */
  lemma Uint32Suspends(opts: Options, acc: int, h: seq<Byte>, h0: seq<Byte>, b: seq<Byte>, c: nat)
    requires !Terminated(b, c)
    ensures SameAs(opts, [Uint32F(Accumulate(acc, LineBytes(b, c)))], h, b, ScanStop(b, c), Uint32F(acc), [], h0, c)
  {
    forall more
      ensures View(CallK(opts, ParseP, [Uint32F(Accumulate(acc, LineBytes(b, c)))], h, b + more, ScanStop(b, c))) ==
              View(FrameK(opts, Uint32F(acc), [], h0, b + more, c))
    {
      Uint32KResume(acc, b, more, c);
    }
  }

  /** `parseBigIntDecimals` suspended with the digits it folded. */
  lemma BigDecimalsSuspends(opts: Options, i: int, sign: int, h: seq<Byte>, h0: seq<Byte>, b: seq<Byte>, c: nat)
    requires !Terminated(b, c)
    ensures SameAs(opts, [BigDecimalsF(Accumulate(i, LineBytes(b, c)), sign)], h, b, ScanStop(b, c),
                   BigDecimalsF(i, sign), [], h0, c)
  {
    forall more
      ensures View(CallK(opts, ParseP, [BigDecimalsF(Accumulate(i, LineBytes(b, c)), sign)], h, b + more, ScanStop(b, c))) ==
              View(FrameK(opts, BigDecimalsF(i, sign), [], h0, b + more, c))
    {
      BigDecimalsKResume(i, sign, b, more, c);
    }
  }

  /** The frame `parseDecimals` leaves when its line is cut: a `BigInt` scan once the value overflowed. */
  function DecimalsFrame(i: int, sign: int, b: seq<Byte>, c: int): Frame
  {
    var v := Accumulate(i, LineBytes(b, c));
    if Overflows(i, LineBytes(b, c)) then BigDecimalsF(v, sign) else DecimalsF(v, sign)
  }

  /** `parseDecimals` suspended, in either of its two forms. */
  lemma DecimalsSuspends(opts: Options, i: int, sign: int, h: seq<Byte>, h0: seq<Byte>, b: seq<Byte>, c: nat)
    requires !Terminated(b, c)
    ensures SameAs(opts, [DecimalsFrame(i, sign, b, c)], h, b, ScanStop(b, c), DecimalsF(i, sign), [], h0, c)
  {
    forall more
      ensures View(CallK(opts, ParseP, [DecimalsFrame(i, sign, b, c)], h, b + more, ScanStop(b, c))) ==
              View(FrameK(opts, DecimalsF(i, sign), [], h0, b + more, c))
    {
      DecimalsResume(i, sign, b, more, c);
    }
  }

  /** `parseInt` suspended inside the decimals it started past the sign. */
  lemma IntSuspends(opts: Options, stk: seq<Frame>, h: seq<Byte>, b: seq<Byte>, c: nat, h0: seq<Byte>, c0: nat)
    requires At(b, c0).Some? && At(b, c0).value != DigitZero
    requires var x := At(b, c0).value;
             SameAs(opts, stk, h, b, c, DecimalsF(0, if x == Minus then -1 else 1), [],
                    h0, if x == Plus || x == Minus then c0 + 1 else c0)
    ensures SameAs(opts, stk, h, b, c, IntF, [], h0, c0)
  {
    forall more
      ensures View(CallK(opts, ParseP, stk, h, b + more, c)) == View(FrameK(opts, IntF, [], h0, b + more, c0))
    {
      IntIsDecimals(b + more, c0);
    }
  }

  /** `parseSize` suspended inside the `parseUint32(0)` it started. */
  lemma SizeSuspends(opts: Options, stk: seq<Frame>, h: seq<Byte>, b: seq<Byte>, c: nat, h0: seq<Byte>, c0: nat)
    requires Truthy(At(b, c0))
    requires At(b, c0) != Some(Question) && At(b, c0) != Some(DigitZero) && At(b, c0) != Some(Minus)
    requires SameAs(opts, stk, h, b, c, Uint32F(0), [], h0, c0)
    ensures SameAs(opts, stk, h, b, c, SizeF, [], h0, c0)
  {
    forall more
      ensures View(CallK(opts, ParseP, stk, h, b + more, c)) == View(FrameK(opts, SizeF, [], h0, b + more, c0))
    {
      SizeIsUint32(b + more, c0);
    }
  }

  /** `parseAsciiLineBytes` suspended with the text it looked up. */
  lemma AsciiSuspends(opts: Options, t: string, h: seq<Byte>, h0: seq<Byte>, b: seq<Byte>, c: nat)
    requires !Terminated(b, c)
    ensures SameAs(opts, [AsciiLineF(AsciiJs(t, LineBytes(b, c)))], h, b, ScanStop(b, c), AsciiLineF(t), [], h0, c)
  {
    forall more
      ensures View(CallK(opts, ParseP, [AsciiLineF(AsciiJs(t, LineBytes(b, c)))], h, b + more, ScanStop(b, c))) ==
              View(FrameK(opts, AsciiLineF(t), [], h0, b + more, c))
    {
      AsciiKResume(t, b, more, c);
    }
  }

  /** `parseLine` suspended with the line so far added to the composer. */
  lemma LineSuspends(opts: Options, stk: seq<Frame>, h: seq<Byte>, b: seq<Byte>, c: nat, h0: seq<Byte>, c0: nat)
    requires !Terminated(b, c0) && stk == [LineF] && h == h0 + LineBytes(b, c0) && c == ScanStop(b, c0)
    ensures SameAs(opts, stk, h, b, c, LineF, [], h0, c0)
  {
    forall more
      ensures View(CallK(opts, ParseP, stk, h, b + more, c)) == View(FrameK(opts, LineF, [], h0, b + more, c0))
    {
      LineKResume(opts, h0, b, more, c0);
    }
  }

  /** `captureUncomposedBlob` suspended with the payload bytes this buffer held added to the composer. */
  lemma PayloadSuspends(opts: Options, stk: seq<Frame>, h: seq<Byte>, b: seq<Byte>, c: nat, h0: seq<Byte>, c0: nat, s: nat)
    requires s > 0 && Take(s, |b| - c0) < s
    requires var m := Take(s, |b| - c0);
             stk == [UncomposedBlobF(s - m)] && h == h0 + (if m > 0 then b[c0..c0 + m] else []) && c == c0 + m
    ensures SameAs(opts, stk, h, b, c, UncomposedBlobF(s), [], h0, c0)
  {
    forall more
      ensures View(CallK(opts, ParseP, stk, h, b + more, c)) == View(FrameK(opts, UncomposedBlobF(s), [], h0, b + more, c0))
    {
      PayloadResume(h0, b, more, c0, s);
    }
  }

  /*
   * The dispatchers: the frame a tag's routine leaves reads that tag's reply.
   */

  /** The stack reads, on every extension of `b`, the reply of a RESP2 tag read from `c0`. */
  ghost predicate Resp2From(opts: Options, stk: seq<Frame>, h: seq<Byte>, b: seq<Byte>, c: nat, c0: nat, tag: Byte)
    requires tag in Resp2Tags
  {
    forall more :: View(CallK(opts, ParseP, stk, h, b + more, c)) == ReadReply(RefResp2(opts, b + more, c0, tag))
  }

  /** The stack reads, on every extension of `b`, the reply of a RESP3 tag read from `c0`. */
  ghost predicate Resp3From(opts: Options, stk: seq<Frame>, h: seq<Byte>, b: seq<Byte>, c: nat, c0: nat, tag: Byte)
    requires tag in Resp3Tags
  {
    forall more :: View(CallK(opts, ParseP, stk, h, b + more, c)) == ReadReply(RefResp3(opts, b + more, c0, tag))
  }

  /** The stack reads, on every extension of `b`, the reply that starts at `c0`. */
  ghost predicate ReplyFrom(opts: Options, stk: seq<Frame>, h: seq<Byte>, b: seq<Byte>, c: nat, c0: nat, v3: bool)
  {
    forall more :: View(CallK(opts, ParseP, stk, h, b + more, c)) == ReadReply(RefReply(opts, b + more, c0, v3))
  }

  /** The frame the routine of a RESP2 tag pushes when it suspends. */
  function Resp2Frame(tag: Byte): Frame
  {
    if tag == 0x2B then LineF
    else if tag == 0x2D then FailureF
    else if tag == 0x3A then IntF
    else if tag == 0x24 then BulkF
    else AggregateF(ListS)
  }

  /** The frame the routine of a RESP3 tag pushes when it suspends (`_` never does). */
  function Resp3Frame(tag: Byte): Frame
  {
    if tag == 0x7E then AggregateF(SetS)
    else if tag == 0x25 then HashF
    else if tag == 0x3E then AggregateF(PushS)
    else if tag == 0x7C then AttributesF
    else if tag == 0x23 then BooleanF
    else if tag == 0x2C then DoubleF
    else if tag == 0x28 then BigNumberF
    else if tag == 0x21 then BulkFailureF
    else VerbatimF
  }

  lemma ViewReply(o: Out<Reply>)
    ensures View(ReadReply(o)) == ReadReply(o)
  {
  }

  /** A RESP2 routine started afresh at `c0` reads, from the frame it leaves, the reply of its tag. */
  lemma Resp2Suspends(opts: Options, stk: seq<Frame>, h: seq<Byte>, b: seq<Byte>, c: nat, c0: nat, tag: Byte)
    requires tag in Resp2Tags
    requires SameAs(opts, stk, h, b, c, Resp2Frame(tag), [], [], c0)
    ensures Resp2From(opts, stk, h, b, c, c0, tag)
  {
    forall more
      ensures View(CallK(opts, ParseP, stk, h, b + more, c)) == ReadReply(RefResp2(opts, b + more, c0, tag))
    {
      var b' := b + more;
      if tag == 0x2B {
        LineFresh(opts, b', c0);
      } else if tag == 0x2D {
        FailureFresh(opts, b', c0);
        ViewReply(RefFailure(opts, b', c0));
      } else if tag == 0x3A {
        ViewReply(RefInt(b', c0));
      } else if tag == 0x24 {
        BulkFresh(opts, b', c0);
        ViewReply(RefBulk(opts, b', c0));
      } else {
        AggregateFresh(opts, ListS, [], b', c0);
        ViewReply(RefAggregate(opts, b', c0, ListS));
      }
    }
  }

  /** A RESP3 routine started afresh at `c0` reads, from the frame it leaves, the reply of its tag. */
  lemma Resp3Suspends(opts: Options, stk: seq<Frame>, h: seq<Byte>, b: seq<Byte>, c: nat, c0: nat, tag: Byte)
    requires tag in Resp3Tags && tag != 0x5F
    requires SameAs(opts, stk, h, b, c, Resp3Frame(tag), [], [], c0)
    ensures Resp3From(opts, stk, h, b, c, c0, tag)
  {
    if tag in {0x7E, 0x25, 0x3E, 0x7C} {
      Resp3AggregateSuspends(opts, stk, h, b, c, c0, tag);
    } else {
      Resp3TextSuspends(opts, stk, h, b, c, c0, tag);
    }
  }

  /** `Resp3Suspends` for a set, a map, a push or an attribute map. */
  lemma Resp3AggregateSuspends(opts: Options, stk: seq<Frame>, h: seq<Byte>, b: seq<Byte>, c: nat, c0: nat, tag: Byte)
    requires tag in {0x7E, 0x25, 0x3E, 0x7C}
    requires SameAs(opts, stk, h, b, c, Resp3Frame(tag), [], [], c0)
    ensures Resp3From(opts, stk, h, b, c, c0, tag)
  {
    forall more
      ensures View(CallK(opts, ParseP, stk, h, b + more, c)) == ReadReply(RefResp3(opts, b + more, c0, tag))
    {
      var b' := b + more;
      ViewReply(RefResp3(opts, b', c0, tag));
      if tag == 0x7E {
        AggregateFresh(opts, SetS, [], b', c0);
      } else if tag == 0x25 {
        HashFresh(opts, [], b', c0);
      } else if tag == 0x3E {
        AggregateFresh(opts, PushS, [], b', c0);
      } else {
        AttributesFresh(opts, [], b', c0);
      }
    }
  }

  /** `Resp3Suspends` for a double, a big number, a blob error or a verbatim string. */
  lemma Resp3TextSuspends(opts: Options, stk: seq<Frame>, h: seq<Byte>, b: seq<Byte>, c: nat, c0: nat, tag: Byte)
    requires tag in Resp3Tags && tag != 0x5F && tag !in {0x7E, 0x25, 0x3E, 0x7C}
    requires SameAs(opts, stk, h, b, c, Resp3Frame(tag), [], [], c0)
    ensures Resp3From(opts, stk, h, b, c, c0, tag)
  {
    forall more
      ensures View(CallK(opts, ParseP, stk, h, b + more, c)) == ReadReply(RefResp3(opts, b + more, c0, tag))
    {
      var b' := b + more;
      ViewReply(RefResp3(opts, b', c0, tag));
      if tag == 0x2C {
        DoubleFresh(opts, [], b', c0);
      } else if tag == 0x28 {
        BigNumberFresh(opts, [], b', c0);
      } else if tag == 0x21 {
        BulkFailureFresh(opts, b', c0);
      } else if tag == 0x3D {
        VerbatimFresh(opts, b', c0);
      }
    }
  }

  /** What the tag's routine leaves reads the reply the tag at `c0` starts. */
  lemma ReplySuspends(opts: Options, stk: seq<Frame>, h: seq<Byte>, b: seq<Byte>, c: nat, c0: nat, v3: bool)
    requires At(b, c0).Some?
    requires var tag := At(b, c0).value;
             if tag in Resp2Tags then Resp2From(opts, stk, h, b, c, c0 + 1, tag)
             else v3 && tag in Resp3Tags && Resp3From(opts, stk, h, b, c, c0 + 1, tag)
    ensures ReplyFrom(opts, stk, h, b, c, c0, v3)
  {
    var tag := At(b, c0).value;
    forall more
      ensures View(CallK(opts, ParseP, stk, h, b + more, c)) == ReadReply(RefReply(opts, b + more, c0, v3))
    {
      assert At(b + more, c0) == At(b, c0);
    }
  }

  /*
   * Routines that suspend once the routine they waited on returned.
   */

  /**
   * The routine a frame goes on to once its callee's value `x` is read: the
   * expression list or streamed list of an aggregate, the entry lists of a
   * map, the annotated reply of an attribute map, the payload of a blob.
   */
  function Next(f: Frame, x: Read): Option<Frame>
  {
    match f
    case AggregateF(shape) =>
      if x == Val(ASize(Streamed)) then Some(StreamedListF(shape, []))
      else if x.Val? && x.value.ASize? && x.value.size.Sized? && 0 < x.value.size.n < ArrayLengthLimit then Some(ExprListF(shape, [], x.value.size.n))
      else None
    case HashF =>
      if x == Val(ASize(Streamed)) then Some(StreamedEntriesF([]))
      else if x.Val? && x.value.ASize? && x.value.size.Sized? && 0 < x.value.size.n < ArrayLengthLimit then Some(EntryListF([], x.value.size.n))
      else None
    case AttributesF =>
      if x.Val? && x.value.AReply? && x.value.reply.Map? then Some(WithAttributesF(x.value.reply.entries))
      else if x.Val? && x.value.AReply? then Some(UnannotatedF)
      else None
    case BlobF =>
      if x == Val(ASize(Streamed)) then Some(ChunkedBlobF)
      else if x.Val? && x.value.ASize? && x.value.size.Sized? && x.value.size.n > 0 then Some(UncomposedBlobF(x.value.size.n))
      else None
    case _ => None
  }

  /**
   * A frame whose callee read `x` and whose next routine suspended reads, on
   * every extension, what the frame itself read before the callee ran: the
   * callee's reading does not change once it is complete.
   */
  lemma NextResumes(opts: Options, f: Frame, stk0: seq<Frame>, h0: seq<Byte>, b: seq<Byte>, c0: nat,
                    x: Read, k: nat, stk: seq<Frame>, h: seq<Byte>, c: nat)
    requires FrameOk(f) && WaitsOn(f).Some? && Next(f, x).Some?
    requires CallK(opts, WaitsOn(f).value, stk0, h0, b, c0) == Got(x, k)
    requires SameAs(opts, stk, h, b, c, Next(f, x).value, [], if f.BlobF? then h0 else [], k)
    ensures SameAs(opts, stk, h, b, c, f, stk0, h0, c0)
  {
    var d := WaitsOn(f).value;
    forall more
      ensures View(CallK(opts, ParseP, stk, h, b + more, c)) == View(FrameK(opts, f, stk0, h0, b + more, c0))
    {
      CallStable(opts, d, stk0, h0, b, more, c0);
      assert View(CallK(opts, d, stk0, h0, b + more, c0)) == Got(Norm(x), k);
      NextReads(opts, f, x, k, b + more, h0);
    }
  }

  /** What the next routine reads is what the frame reads once its callee read `x`. */
  lemma NextReads(opts: Options, f: Frame, x: Read, k: nat, b: seq<Byte>, h0: seq<Byte>)
    requires FrameOk(f) && Next(f, x).Some?
    ensures var g := Next(f, x).value;
            var o := Got(Norm(x), k);
            View(FrameK(opts, g, [], if f.BlobF? then h0 else [], b, k)) ==
              if f.AggregateF? then ReadReply(AfterAggregate(opts, f.shape, b, o))
              else if f.HashF? then ReadReply(AfterHash(opts, b, o))
              else if f.AttributesF? then ReadReply(AfterAttributes(opts, b, o))
              else AfterBlob(h0, b, o)
  {
    var g := Next(f, x).value;
    match f
    case AggregateF(shape) =>
      if g.ExprListF? {
        SlotsFresh(opts, [], g.s, [], b, k);
        WrappedList(shape, RefSlots(opts, b, k, [], g.s));
      } else {
        WrappedList(shape, RefStreamed(opts, b, k, []));
      }
    case HashF =>
      if g.EntryListF? {
        EntriesFresh(opts, [], g.s, [], b, k);
        WrappedMap(RefEntries(opts, b, k, [], g.s));
      } else {
        WrappedMap(RefStreamedEntries(opts, b, k, []));
      }
    case AttributesF =>
      if g.WithAttributesF? {
        WithFresh(opts, g.attrs, [], b, k);
        ViewReply(RefWithAttributes(opts, b, k, g.attrs));
      } else {
        ViewReply(RefReply(opts, b, k, true));
      }
    case BlobF =>
      if g.ChunkedBlobF? {
        ChunkedFresh(opts, h0, b, k);
      }
  }

  /*
   * From a frame's reading to the reading of the call that waits on it.
   */

  /** A non-empty stack reads, for every routine that resumes it, what its top frame reads. */
  lemma SameAsCall(opts: Options, d: Proc, stk: seq<Frame>, h: seq<Byte>, b: seq<Byte>, c: nat,
                   f: Frame, below: seq<Frame>, h0: seq<Byte>, c0: nat)
    requires stk != [] && SameAs(opts, stk, h, b, c, f, below, h0, c0)
    ensures CallSame(opts, d, stk, h, b, c, below + [f], h0, c0)
  {
    assert (below + [f])[..|below|] == below;
  }

  /** The frame a routine started by `call(proc)` leaves when it suspends at once, and its reading. */
  function StartFrame(d: Proc): Option<Frame>
  {
    match d
    case LineP => Some(LineF)
    case AsciiLineP => Some(AsciiLineF(""))
    case SizeP => Some(SizeF)
    case BlobP => Some(BlobF)
    case HashP => Some(HashF)
    case EntryP => Some(ExprListF(EntryS, [], 2))
    case _ => None
  }

  /** A stack that reads as the frame `call(proc)` would push reads as `call(proc)` started afresh. */
  lemma StartCall(opts: Options, d: Proc, stk: seq<Frame>, h: seq<Byte>, b: seq<Byte>, c: nat, h0: seq<Byte>, c0: nat)
    requires StartFrame(d).Some? && stk != []
    requires SameAs(opts, stk, h, b, c, StartFrame(d).value, [], h0, c0)
    ensures CallSame(opts, d, stk, h, b, c, [], h0, c0)
  {
    forall more
      ensures View(CallK(opts, d, stk, h, b + more, c)) == View(CallK(opts, d, [], h0, b + more, c0))
    {
      var b' := b + more;
      if d == BlobP {
        BlobFresh(opts, h0, b', c0);
      } else if d == HashP {
        HashFresh(opts, h0, b', c0);
        ViewReply(RefHash(opts, b', c0));
      } else if d == EntryP {
        EntryFresh(opts, h0, b', c0);
      }
    }
  }

  /** `captureChunk` suspended inside the blob after the `;`. */
  lemma ChunkCall(opts: Options, stk: seq<Frame>, h: seq<Byte>, b: seq<Byte>, c: nat, h0: seq<Byte>, c0: nat)
    requires stk != [] && SameAs(opts, stk, h, b, c, BlobF, [], h0, c0 + 1)
    ensures CallSame(opts, ChunkP, stk, h, b, c, [], h0, c0)
  {
    forall more
      ensures View(CallK(opts, ChunkP, stk, h, b + more, c)) == View(CallK(opts, ChunkP, [], h0, b + more, c0))
    {
      BlobFresh(opts, h0, b + more, c0 + 1);
    }
  }

  /** A stack that reads the reply at `c0` reads as `call(parse)` (or its RESP3 or streamed forms) there. */
  lemma ReplyCall(opts: Options, d: Proc, stk: seq<Frame>, h: seq<Byte>, b: seq<Byte>, c: nat, h0: seq<Byte>, c0: nat)
    requires d == ParseP || d == Resp3P || d == StreamedReplyP
    requires stk != [] && ReplyFrom(opts, stk, h, b, c, c0, if d == Resp3P then true else opts.resp3)
    requires d == StreamedReplyP ==> At(b, c0).Some? && At(b, c0) != Some(Dot)
    ensures CallSame(opts, d, stk, h, b, c, [], h0, c0)
  {
    forall more
      ensures View(CallK(opts, d, stk, h, b + more, c)) == View(CallK(opts, d, [], h0, b + more, c0))
    {
      var b' := b + more;
      ViewReply(RefReply(opts, b', c0, if d == Resp3P then true else opts.resp3));
      assert d == StreamedReplyP ==> At(b', c0) == At(b, c0);
    }
  }

  /** A routine that suspends without pushing anything reads, with any composer, what it read before. */
  lemma IdleCall(opts: Options, d: Proc, h: seq<Byte>, h0: seq<Byte>, b: seq<Byte>, c: nat)
    requires d != LineP && d != BlobP && d != ChunkP
    ensures CallSame(opts, d, [], h, b, c, [], h0, c)
  {
  }

  /** A stack that reads the entry at `c0`, a byte other than `.` being there, reads as `call(parseStreamedEntry)`. */
  lemma StreamedEntryCall(opts: Options, stk: seq<Frame>, h: seq<Byte>, b: seq<Byte>, c: nat, h0: seq<Byte>, c0: nat)
    requires stk != [] && At(b, c0).Some? && At(b, c0) != Some(Dot)
    requires CallSame(opts, EntryP, stk, h, b, c, [], h0, c0)
    ensures CallSame(opts, StreamedEntryP, stk, h, b, c, [], h0, c0)
  {
    forall more
      ensures View(CallK(opts, StreamedEntryP, stk, h, b + more, c)) == View(CallK(opts, StreamedEntryP, [], h0, b + more, c0))
    {
      assert View(CallK(opts, EntryP, stk, h, b + more, c)) == View(CallK(opts, EntryP, [], h0, b + more, c0));
      assert At(b + more, c0) == At(b, c0);
    }
  }

  /** The dispatcher, run for the reply an attribute map of `null` leaves unannotated, suspends as that reply. */
  lemma UnannotatedSuspends(opts: Options, stk: seq<Frame>, h: seq<Byte>, b: seq<Byte>, c: nat, h0: seq<Byte>, c0: nat)
    requires ReplyFrom(opts, stk, h, b, c, c0, true)
    ensures SameAs(opts, stk, h, b, c, UnannotatedF, [], h0, c0)
  {
    forall more
      ensures View(CallK(opts, ParseP, stk, h, b + more, c)) == View(FrameK(opts, UnannotatedF, [], h0, b + more, c0))
    {
      ViewReply(RefReply(opts, b + more, c0, true));
    }
  }

  /*
   * The loops: what is left to read after the slots filled so far.
   */

  /**
   * An expression list resumed with `o0` over `stk0` reads, on every
   * extension of `b`, what the reference reading of the remaining slots
   * reads from `c` with `o` filled.
   */
  ghost predicate SlotsFrom(opts: Options, o0: seq<Reply>, s: int, stk0: seq<Frame>, h0: seq<Byte>, c0: nat,
                            b: seq<Byte>, c: nat, o: seq<Reply>)
  {
    forall more :: AfterSlots(opts, o0, s, b + more, View(CallK(opts, ParseP, stk0, h0, b + more, c0))) ==
                   RefSlots(opts, b + more, c, o, s)
  }

  /** The first slot, read by resuming the stack, is the first slot of the reading. */
  lemma SlotsFirst(opts: Options, o0: seq<Reply>, s: int, stk0: seq<Frame>, h0: seq<Byte>, b: seq<Byte>, c0: nat,
                   v: Reply, n: nat)
    requires View(CallK(opts, ParseP, stk0, h0, b, c0)) == Got(Val(AReply(v)), n)
    ensures SlotsFrom(opts, o0, s, stk0, h0, c0, b, n, o0 + [v])
  {
    forall more
      ensures AfterSlots(opts, o0, s, b + more, View(CallK(opts, ParseP, stk0, h0, b + more, c0))) ==
              RefSlots(opts, b + more, n, o0 + [v], s)
    {
      CallStable(opts, ParseP, stk0, h0, b, more, c0);
    }
  }

  /** A later slot, read afresh, is the next slot of the reading. */
  lemma SlotsNext(opts: Options, o0: seq<Reply>, s: int, stk0: seq<Frame>, h0: seq<Byte>, c0: nat,
                  b: seq<Byte>, c: nat, o: seq<Reply>, v: Reply, n: nat)
    requires SlotsFrom(opts, o0, s, stk0, h0, c0, b, c, o) && |o| < s
    requires RefReply(opts, b, c, opts.resp3) == Got(v, n)
    ensures SlotsFrom(opts, o0, s, stk0, h0, c0, b, n, o + [v])
  {
    forall more
      ensures AfterSlots(opts, o0, s, b + more, View(CallK(opts, ParseP, stk0, h0, b + more, c0))) ==
              RefSlots(opts, b + more, n, o + [v], s)
    {
      ReplyStable(opts, b, more, c, opts.resp3);
    }
  }

  /** The list pushed with the slots filled so far, over the chain of the slot it waits on, reads the rest. */
  lemma SlotsSuspend(opts: Options, shape: Shape, o0: seq<Reply>, s: int, stk0: seq<Frame>, h0: seq<Byte>, c0: nat,
                     b: seq<Byte>, c: nat, o: seq<Reply>, stk: seq<Frame>, h: seq<Byte>, c': nat)
    requires SlotsFrom(opts, o0, s, stk0, h0, c0, b, c, o) && |o| < s
    requires CallSame(opts, ParseP, stk, h, b, c', [], [], c)
    ensures SameAs(opts, stk + [ExprListF(shape, o, s)], h, b, c', ExprListF(shape, o0, s), stk0, h0, c0)
  {
    assert (stk + [ExprListF(shape, o, s)])[..|stk|] == stk;
    forall more
      ensures View(CallK(opts, ParseP, stk + [ExprListF(shape, o, s)], h, b + more, c')) ==
              View(FrameK(opts, ExprListF(shape, o0, s), stk0, h0, b + more, c0))
    {
      SlotsFresh(opts, o, s, [], b + more, c);
      assert View(CallK(opts, ParseP, stk, h, b + more, c')) == View(CallK(opts, ParseP, [], [], b + more, c));
    }
  }

  /** On the buffer itself, the list reads what the remaining slots read. */
  lemma SlotsHere(opts: Options, o0: seq<Reply>, s: int, stk0: seq<Frame>, h0: seq<Byte>, c0: nat,
                  b: seq<Byte>, c: nat, o: seq<Reply>)
    requires SlotsFrom(opts, o0, s, stk0, h0, c0, b, c, o)
    ensures AfterSlots(opts, o0, s, b, View(CallK(opts, ParseP, stk0, h0, b, c0))) == RefSlots(opts, b, c, o, s)
  {
    assert b + [] == b;
  }

  /** A list started afresh at `c0` reads its first slot afresh. */
  lemma SlotsStart(opts: Options, o0: seq<Reply>, s: int, b: seq<Byte>, c0: nat)
    requires |o0| < s
    ensures SlotsFrom(opts, o0, s, [], [], c0, b, c0, o0)
  {
    forall more
      ensures AfterSlots(opts, o0, s, b + more, View(CallK(opts, ParseP, [], [], b + more, c0))) ==
              RefSlots(opts, b + more, c0, o0, s)
    {
      SlotsFresh(opts, o0, s, [], b + more, c0);
    }
  }

  /**
   * A list resumed over `stk0` whose first slot read `v`, and whose rest,
   * started afresh, suspended: the stack left reads what the resumed list reads.
   */
  lemma SlotsResumes(opts: Options, shape: Shape, o0: seq<Reply>, s: int, stk0: seq<Frame>, h0: seq<Byte>, c0: nat,
                     b: seq<Byte>, v: Reply, k: nat, stk: seq<Frame>, h: seq<Byte>, c: nat)
    requires |o0| + 1 < s
    requires View(CallK(opts, ParseP, stk0, h0, b, c0)) == Got(Val(AReply(v)), k)
    requires SameAs(opts, stk, h, b, c, ExprListF(shape, o0 + [v], s), [], [], k)
    ensures SameAs(opts, stk, h, b, c, ExprListF(shape, o0, s), stk0, h0, c0)
  {
    forall more
      ensures View(CallK(opts, ParseP, stk, h, b + more, c)) == View(FrameK(opts, ExprListF(shape, o0, s), stk0, h0, b + more, c0))
    {
      CallStable(opts, ParseP, stk0, h0, b, more, c0);
      SlotsFresh(opts, o0 + [v], s, [], b + more, k);
    }
  }

  /** A map's entry list resumed with `o0` over `stk0`, as `SlotsFrom`. */
  ghost predicate EntriesFrom(opts: Options, o0: seq<Entry>, s: int, stk0: seq<Frame>, h0: seq<Byte>, c0: nat,
                              b: seq<Byte>, c: nat, o: seq<Entry>)
  {
    forall more :: AfterEntries(opts, o0, s, b + more, View(CallK(opts, EntryP, stk0, h0, b + more, c0))) ==
                   RefEntries(opts, b + more, c, o, s)
  }

  lemma EntriesFirst(opts: Options, o0: seq<Entry>, s: int, stk0: seq<Frame>, h0: seq<Byte>, b: seq<Byte>, c0: nat,
                     e: Entry, n: nat)
    requires View(CallK(opts, EntryP, stk0, h0, b, c0)) == Got(Val(AnEntry(e)), n)
    ensures EntriesFrom(opts, o0, s, stk0, h0, c0, b, n, o0 + [DecodeKey(opts.bulkText, e)])
  {
    forall more
      ensures AfterEntries(opts, o0, s, b + more, View(CallK(opts, EntryP, stk0, h0, b + more, c0))) ==
              RefEntries(opts, b + more, n, o0 + [DecodeKey(opts.bulkText, e)], s)
    {
      CallStable(opts, EntryP, stk0, h0, b, more, c0);
    }
  }

  lemma EntriesNext(opts: Options, o0: seq<Entry>, s: int, stk0: seq<Frame>, h0: seq<Byte>, c0: nat,
                    b: seq<Byte>, c: nat, o: seq<Entry>, e: Entry, n: nat)
    requires EntriesFrom(opts, o0, s, stk0, h0, c0, b, c, o) && |o| < s
    requires RefEntry(opts, b, c) == Got(e, n)
    ensures EntriesFrom(opts, o0, s, stk0, h0, c0, b, n, o + [DecodeKey(opts.bulkText, e)])
  {
    forall more
      ensures AfterEntries(opts, o0, s, b + more, View(CallK(opts, EntryP, stk0, h0, b + more, c0))) ==
              RefEntries(opts, b + more, n, o + [DecodeKey(opts.bulkText, e)], s)
    {
      EntryStable(opts, b, more, c);
    }
  }

  lemma EntriesSuspend(opts: Options, o0: seq<Entry>, s: int, stk0: seq<Frame>, h0: seq<Byte>, c0: nat,
                       b: seq<Byte>, c: nat, o: seq<Entry>, stk: seq<Frame>, h: seq<Byte>, c': nat)
    requires EntriesFrom(opts, o0, s, stk0, h0, c0, b, c, o) && |o| < s
    requires CallSame(opts, EntryP, stk, h, b, c', [], [], c)
    ensures SameAs(opts, stk + [EntryListF(o, s)], h, b, c', EntryListF(o0, s), stk0, h0, c0)
  {
    assert (stk + [EntryListF(o, s)])[..|stk|] == stk;
    forall more
      ensures View(CallK(opts, ParseP, stk + [EntryListF(o, s)], h, b + more, c')) ==
              View(FrameK(opts, EntryListF(o0, s), stk0, h0, b + more, c0))
    {
      EntriesFresh(opts, o, s, [], b + more, c);
      assert View(CallK(opts, EntryP, stk, h, b + more, c')) == View(CallK(opts, EntryP, [], [], b + more, c));
    }
  }

  lemma EntriesHere(opts: Options, o0: seq<Entry>, s: int, stk0: seq<Frame>, h0: seq<Byte>, c0: nat,
                    b: seq<Byte>, c: nat, o: seq<Entry>)
    requires EntriesFrom(opts, o0, s, stk0, h0, c0, b, c, o)
    ensures AfterEntries(opts, o0, s, b, View(CallK(opts, EntryP, stk0, h0, b, c0))) == RefEntries(opts, b, c, o, s)
  {
    assert b + [] == b;
  }

  /** A map started afresh at `c0` reads its first entry afresh. */
  lemma EntriesStart(opts: Options, o0: seq<Entry>, s: int, b: seq<Byte>, c0: nat)
    requires |o0| < s
    ensures EntriesFrom(opts, o0, s, [], [], c0, b, c0, o0)
  {
    forall more
      ensures AfterEntries(opts, o0, s, b + more, View(CallK(opts, EntryP, [], [], b + more, c0))) ==
              RefEntries(opts, b + more, c0, o0, s)
    {
      EntriesFresh(opts, o0, s, [], b + more, c0);
    }
  }

  /** `SlotsResumes` for a map's entries, the key of the entry read decoded. */
  lemma EntriesResumes(opts: Options, o0: seq<Entry>, s: int, stk0: seq<Frame>, h0: seq<Byte>, c0: nat,
                       b: seq<Byte>, e: Entry, k: nat, stk: seq<Frame>, h: seq<Byte>, c: nat)
    requires |o0| + 1 < s
    requires View(CallK(opts, EntryP, stk0, h0, b, c0)) == Got(Val(AnEntry(e)), k)
    requires SameAs(opts, stk, h, b, c, EntryListF(o0 + [DecodeKey(opts.bulkText, e)], s), [], [], k)
    ensures SameAs(opts, stk, h, b, c, EntryListF(o0, s), stk0, h0, c0)
  {
    forall more
      ensures View(CallK(opts, ParseP, stk, h, b + more, c)) == View(FrameK(opts, EntryListF(o0, s), stk0, h0, b + more, c0))
    {
      CallStable(opts, EntryP, stk0, h0, b, more, c0);
      EntriesFresh(opts, o0 + [DecodeKey(opts.bulkText, e)], s, [], b + more, k);
    }
  }

  /** A streamed list resumed with `o0` over `stk0` reads what the rest of the stream reads from `c` with `o`. */
  ghost predicate StreamedFrom(opts: Options, o0: seq<Reply>, stk0: seq<Frame>, h0: seq<Byte>, c0: nat,
                               b: seq<Byte>, c: nat, o: seq<Reply>)
  {
    forall more :: StreamedK(opts, o0, stk0, h0, b + more, c0) == RefStreamed(opts, b + more, c, o)
  }

  /** The element suspended under the list, once resumed, is the list's next element. */
  lemma StreamedFirst(opts: Options, o0: seq<Reply>, stk0: seq<Frame>, h0: seq<Byte>, b: seq<Byte>, c0: nat,
                      v: Reply, n: nat)
    requires stk0 != [] && View(CallK(opts, StreamedReplyP, stk0, h0, b, c0)) == Got(Val(AReply(v)), n)
    ensures StreamedFrom(opts, o0, stk0, h0, c0, b, n, o0 + [v])
  {
    forall more
      ensures StreamedK(opts, o0, stk0, h0, b + more, c0) == RefStreamed(opts, b + more, n, o0 + [v])
    {
      CallStable(opts, StreamedReplyP, stk0, h0, b, more, c0);
    }
  }

  lemma StreamedNext(opts: Options, o0: seq<Reply>, stk0: seq<Frame>, h0: seq<Byte>, c0: nat,
                     b: seq<Byte>, c: nat, o: seq<Reply>, v: Reply, n: nat)
    requires StreamedFrom(opts, o0, stk0, h0, c0, b, c, o)
    requires Truthy(At(b, c)) && At(b, c) != Some(Dot)
    requires RefReply(opts, b, c, opts.resp3) == Got(v, n)
    ensures StreamedFrom(opts, o0, stk0, h0, c0, b, n, o + [v])
  {
    forall more
      ensures StreamedK(opts, o0, stk0, h0, b + more, c0) == RefStreamed(opts, b + more, n, o + [v])
    {
      ReplyStable(opts, b, more, c, opts.resp3);
      assert At(b + more, c) == At(b, c);
    }
  }

  /**
   * The streamed list pushed with the elements read so far reads the rest:
   * over nothing when no element was started, over the element's chain
   * when one suspended on a data byte.
   */
  lemma StreamedSuspend(opts: Options, shape: Shape, o0: seq<Reply>, stk0: seq<Frame>, h0: seq<Byte>, c0: nat,
                        b: seq<Byte>, c: nat, o: seq<Reply>, stk: seq<Frame>, h: seq<Byte>, c': nat)
    requires shape != EntryS && StreamedFrom(opts, o0, stk0, h0, c0, b, c, o)
    requires stk == [] ==> c' == c
    requires stk != [] ==> Truthy(At(b, c)) && At(b, c) != Some(Dot) &&
                           CallSame(opts, StreamedReplyP, stk, h, b, c', [], [], c)
    ensures SameAs(opts, stk + [StreamedListF(shape, o)], h, b, c', StreamedListF(shape, o0), stk0, h0, c0)
  {
    assert (stk + [StreamedListF(shape, o)])[..|stk|] == stk;
    forall more
      ensures View(CallK(opts, ParseP, stk + [StreamedListF(shape, o)], h, b + more, c')) ==
              View(FrameK(opts, StreamedListF(shape, o0), stk0, h0, b + more, c0))
    {
      var f := StreamedListF(shape, o);
      assert CallK(opts, ParseP, stk + [f], h, b + more, c') == FrameK(opts, f, stk, h, b + more, c');
      if stk != [] {
        assert View(CallK(opts, StreamedReplyP, stk, h, b + more, c')) == View(CallK(opts, StreamedReplyP, [], [], b + more, c));
        assert At(b + more, c) == At(b, c);
        ViewReply(RefReply(opts, b + more, c, opts.resp3));
      }
      assert StreamedK(opts, o, stk, h, b + more, c') == RefStreamed(opts, b + more, c, o);
      assert FrameK(opts, f, stk, h, b + more, c') == ReadList(shape, RefStreamed(opts, b + more, c, o));
    }
  }

  /** A streamed list whose suspended element suspends again keeps its place over the element's new chain. */
  lemma StreamedPushResumes(opts: Options, shape: Shape, o0: seq<Reply>, stk: seq<Frame>, h: seq<Byte>, b: seq<Byte>, c: nat,
                            stk0: seq<Frame>, h0: seq<Byte>, c0: nat)
    requires shape != EntryS && stk != [] && stk0 != []
    requires CallSame(opts, StreamedReplyP, stk, h, b, c, stk0, h0, c0)
    ensures SameAs(opts, stk + [StreamedListF(shape, o0)], h, b, c, StreamedListF(shape, o0), stk0, h0, c0)
  {
    assert (stk + [StreamedListF(shape, o0)])[..|stk|] == stk;
    forall more
      ensures View(CallK(opts, ParseP, stk + [StreamedListF(shape, o0)], h, b + more, c)) ==
              View(FrameK(opts, StreamedListF(shape, o0), stk0, h0, b + more, c0))
    {
      var f := StreamedListF(shape, o0);
      assert CallK(opts, ParseP, stk + [f], h, b + more, c) == FrameK(opts, f, stk, h, b + more, c);
      assert View(CallK(opts, StreamedReplyP, stk, h, b + more, c)) == View(CallK(opts, StreamedReplyP, stk0, h0, b + more, c0));
      assert StreamedK(opts, o0, stk, h, b + more, c) == StreamedK(opts, o0, stk0, h0, b + more, c0);
    }
  }

  lemma StreamedHere(opts: Options, o0: seq<Reply>, stk0: seq<Frame>, h0: seq<Byte>, c0: nat,
                     b: seq<Byte>, c: nat, o: seq<Reply>)
    requires StreamedFrom(opts, o0, stk0, h0, c0, b, c, o)
    ensures StreamedK(opts, o0, stk0, h0, b, c0) == RefStreamed(opts, b, c, o)
  {
    assert b + [] == b;
  }

  /** A streamed map resumed with `o0` over `stk0`, as `StreamedFrom`. */
  ghost predicate StreamedEntriesFrom(opts: Options, o0: seq<Entry>, stk0: seq<Frame>, h0: seq<Byte>, c0: nat,
                                      b: seq<Byte>, c: nat, o: seq<Entry>)
  {
    forall more :: StreamedEntriesK(opts, o0, stk0, h0, b + more, c0) == RefStreamedEntries(opts, b + more, c, o)
  }

  lemma StreamedEntriesFirst(opts: Options, o0: seq<Entry>, stk0: seq<Frame>, h0: seq<Byte>, b: seq<Byte>, c0: nat,
                             e: Entry, n: nat)
    requires stk0 != [] && View(CallK(opts, StreamedEntryP, stk0, h0, b, c0)) == Got(Val(AnEntry(e)), n)
    ensures StreamedEntriesFrom(opts, o0, stk0, h0, c0, b, n, o0 + [e])
  {
    forall more
      ensures StreamedEntriesK(opts, o0, stk0, h0, b + more, c0) == RefStreamedEntries(opts, b + more, n, o0 + [e])
    {
      CallStable(opts, StreamedEntryP, stk0, h0, b, more, c0);
    }
  }

  lemma StreamedEntriesNext(opts: Options, o0: seq<Entry>, stk0: seq<Frame>, h0: seq<Byte>, c0: nat,
                            b: seq<Byte>, c: nat, o: seq<Entry>, e: Entry, n: nat)
    requires StreamedEntriesFrom(opts, o0, stk0, h0, c0, b, c, o)
    requires Truthy(At(b, c)) && At(b, c) != Some(Dot)
    requires RefEntry(opts, b, c) == Got(e, n)
    ensures StreamedEntriesFrom(opts, o0, stk0, h0, c0, b, n, o + [e])
  {
    forall more
      ensures StreamedEntriesK(opts, o0, stk0, h0, b + more, c0) == RefStreamedEntries(opts, b + more, n, o + [e])
    {
      EntryStable(opts, b, more, c);
      assert At(b + more, c) == At(b, c);
    }
  }

  lemma StreamedEntriesSuspend(opts: Options, o0: seq<Entry>, stk0: seq<Frame>, h0: seq<Byte>, c0: nat,
                               b: seq<Byte>, c: nat, o: seq<Entry>, stk: seq<Frame>, h: seq<Byte>, c': nat)
    requires StreamedEntriesFrom(opts, o0, stk0, h0, c0, b, c, o)
    requires stk == [] ==> c' == c
    requires stk != [] ==> Truthy(At(b, c)) && At(b, c) != Some(Dot) &&
                           CallSame(opts, StreamedEntryP, stk, h, b, c', [], [], c)
    ensures SameAs(opts, stk + [StreamedEntriesF(o)], h, b, c', StreamedEntriesF(o0), stk0, h0, c0)
  {
    assert (stk + [StreamedEntriesF(o)])[..|stk|] == stk;
    forall more
      ensures View(CallK(opts, ParseP, stk + [StreamedEntriesF(o)], h, b + more, c')) ==
              View(FrameK(opts, StreamedEntriesF(o0), stk0, h0, b + more, c0))
    {
      var f := StreamedEntriesF(o);
      assert CallK(opts, ParseP, stk + [f], h, b + more, c') == FrameK(opts, f, stk, h, b + more, c');
      if stk != [] {
        assert View(CallK(opts, StreamedEntryP, stk, h, b + more, c')) == View(CallK(opts, StreamedEntryP, [], [], b + more, c));
        assert At(b + more, c) == At(b, c);
      }
      assert StreamedEntriesK(opts, o, stk, h, b + more, c') == RefStreamedEntries(opts, b + more, c, o);
    }
  }

  lemma StreamedEntriesPushResumes(opts: Options, o0: seq<Entry>, stk: seq<Frame>, h: seq<Byte>, b: seq<Byte>, c: nat,
                                   stk0: seq<Frame>, h0: seq<Byte>, c0: nat)
    requires stk != [] && stk0 != []
    requires CallSame(opts, StreamedEntryP, stk, h, b, c, stk0, h0, c0)
    ensures SameAs(opts, stk + [StreamedEntriesF(o0)], h, b, c, StreamedEntriesF(o0), stk0, h0, c0)
  {
    assert (stk + [StreamedEntriesF(o0)])[..|stk|] == stk;
    forall more
      ensures View(CallK(opts, ParseP, stk + [StreamedEntriesF(o0)], h, b + more, c)) ==
              View(FrameK(opts, StreamedEntriesF(o0), stk0, h0, b + more, c0))
    {
      var f := StreamedEntriesF(o0);
      assert CallK(opts, ParseP, stk + [f], h, b + more, c) == FrameK(opts, f, stk, h, b + more, c);
      assert View(CallK(opts, StreamedEntryP, stk, h, b + more, c)) == View(CallK(opts, StreamedEntryP, stk0, h0, b + more, c0));
      assert StreamedEntriesK(opts, o0, stk, h, b + more, c) == StreamedEntriesK(opts, o0, stk0, h0, b + more, c0);
    }
  }

  lemma StreamedEntriesHere(opts: Options, o0: seq<Entry>, stk0: seq<Frame>, h0: seq<Byte>, c0: nat,
                            b: seq<Byte>, c: nat, o: seq<Entry>)
    requires StreamedEntriesFrom(opts, o0, stk0, h0, c0, b, c, o)
    ensures StreamedEntriesK(opts, o0, stk0, h0, b, c0) == RefStreamedEntries(opts, b, c, o)
  {
    assert b + [] == b;
  }

  /*
   * The fragments of a streamed blob.
   */

  /** `captureChunkedBlob` resumed on `stk` at `c` reads what it read resumed on `stk0` at `c0`. */
  ghost predicate ChunkedFrom(opts: Options, stk: seq<Frame>, h: seq<Byte>, b: seq<Byte>, c: nat,
                              stk0: seq<Frame>, h0: seq<Byte>, c0: nat)
  {
    forall more :: FrameK(opts, ChunkedBlobF, stk, h, b + more, c) == FrameK(opts, ChunkedBlobF, stk0, h0, b + more, c0)
  }

  /** A fragment with bytes read: the rest of the stream is read afresh with the composer holding them. */
  lemma ChunkedNext(opts: Options, stk: seq<Frame>, h: seq<Byte>, b: seq<Byte>, c: nat, bs: seq<Byte>, n: nat,
                    stk0: seq<Frame>, h0: seq<Byte>, c0: nat)
    requires ChunkedFrom(opts, stk, h, b, c, stk0, h0, c0)
    requires CallK(opts, ChunkP, stk, h, b, c) == Got(Held(Composed, bs), n)
    ensures ChunkedFrom(opts, [], bs, b, n, stk0, h0, c0)
  {
    forall more
      ensures FrameK(opts, ChunkedBlobF, [], bs, b + more, n) == FrameK(opts, ChunkedBlobF, stk0, h0, b + more, c0)
    {
      CallStable(opts, ChunkP, stk, h, b, more, c);
      ChunkedFresh(opts, bs, b + more, n);
    }
  }

  /** A fragment that suspended: its chain reads on as the call it suspended in. */
  lemma ChunkedPend(opts: Options, stk': seq<Frame>, h': seq<Byte>, b: seq<Byte>, c': nat,
                    stk: seq<Frame>, h: seq<Byte>, c: nat, stk0: seq<Frame>, h0: seq<Byte>, c0: nat)
    requires ChunkedFrom(opts, stk, h, b, c, stk0, h0, c0)
    requires CallSame(opts, ChunkP, stk', h', b, c', stk, h, c)
    ensures ChunkedFrom(opts, stk', h', b, c', stk0, h0, c0)
  {
    forall more
      ensures FrameK(opts, ChunkedBlobF, stk', h', b + more, c') == FrameK(opts, ChunkedBlobF, stk0, h0, b + more, c0)
    {
      assert View(CallK(opts, ChunkP, stk', h', b + more, c')) == View(CallK(opts, ChunkP, stk, h, b + more, c));
    }
  }

  /** The streamed blob pushed over the fragment's chain reads the rest of the stream. */
  lemma ChunkedSuspend(opts: Options, stk: seq<Frame>, h: seq<Byte>, b: seq<Byte>, c: nat,
                       stk0: seq<Frame>, h0: seq<Byte>, c0: nat)
    requires ChunkedFrom(opts, stk, h, b, c, stk0, h0, c0)
    ensures SameAs(opts, stk + [ChunkedBlobF], h, b, c, ChunkedBlobF, stk0, h0, c0)
  {
    assert (stk + [ChunkedBlobF])[..|stk|] == stk;
    forall more
      ensures View(CallK(opts, ParseP, stk + [ChunkedBlobF], h, b + more, c)) ==
              View(FrameK(opts, ChunkedBlobF, stk0, h0, b + more, c0))
    {
      assert FrameK(opts, ChunkedBlobF, stk, h, b + more, c) == FrameK(opts, ChunkedBlobF, stk0, h0, b + more, c0);
    }
  }

  lemma ChunkedHere(opts: Options, stk: seq<Frame>, h: seq<Byte>, b: seq<Byte>, c: nat,
                    stk0: seq<Frame>, h0: seq<Byte>, c0: nat)
    requires ChunkedFrom(opts, stk, h, b, c, stk0, h0, c0)
    ensures FrameK(opts, ChunkedBlobF, stk, h, b, c) == FrameK(opts, ChunkedBlobF, stk0, h0, b, c0)
  {
    assert b + [] == b;
  }
}
