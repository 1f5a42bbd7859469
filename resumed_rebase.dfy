/**
 * The continuation of a stack does not depend on where the bytes sit: a
 * suspended chain resumed at `|p| + c` of `p + b` reads what it reads at `c`
 * of `b`, every position it reports moved by `|p|`.
 */
module ResumedRebase {
  import opened Utils
  import opened Resp
  import opened Lines
  import opened Reference
  import opened Rebase
  import opened Continuation

  lemma ViewMoved(o: Out<Read>, d: int)
    ensures View(Moved(o, d)) == Moved(View(o), d)
  {
  }

  /** The leaf readings with saved locals. */
  lemma ScanKMoves(opts: Options, f: Frame, h: seq<Byte>, p: seq<Byte>, b: seq<Byte>, c: nat)
    requires f.LineF? || f.AsciiLineF? || f.Uint32F? || f.BigDecimalsF? || f.SizeF? || f.DecimalsF? || f.IntF? || f.BooleanF?
    ensures FrameK(opts, f, [], h, p + b, |p| + c) == Moved(FrameK(opts, f, [], h, b, c), |p|)
  {
    match f
    case SizeF => SizeMoves(p, b, c);
    case DecimalsF(i, sign) => DecimalsMoves(p, b, c, sign, i);
    case IntF => IntMoves(p, b, c);
    case BooleanF => BooleanMoves(p, b, c);
    case _ => ScanMoves(p, b, c);
  }

  lemma FreshMoves(opts: Options, d: Proc, h: seq<Byte>, p: seq<Byte>, b: seq<Byte>, c: nat)
    ensures FreshK(opts, d, h, p + b, |p| + c) == Moved(FreshK(opts, d, h, b, c), |p|)
  {
    ScanMoves(p, b, c);
    match d
    case ParseP => ReplyMoves(opts, p, b, c, opts.resp3);
    case Resp3P => ReplyMoves(opts, p, b, c, true);
    case StreamedReplyP => ReplyMoves(opts, p, b, c, opts.resp3);
    case LineP =>
    case AsciiLineP => AsciiLineMoves(p, b, c);
    case SizeP => SizeMoves(p, b, c);
    case BlobP => BlobMoves(p, b, c);
    case ChunkP => ChunkMoves(p, b, c);
    case HashP => HashMoves(opts, p, b, c);
    case EntryP => EntryMoves(opts, p, b, c);
    case StreamedEntryP => EntryMoves(opts, p, b, c);
  }

  /** A stack resumed on bytes that sit `|p|` further on reads the same, `|p|` further on. */
  lemma {:induction false} CallMoves(opts: Options, d: Proc, stk: seq<Frame>, h: seq<Byte>, p: seq<Byte>, b: seq<Byte>, c: nat)
    decreases |stk|, 0
    ensures CallK(opts, d, stk, h, p + b, |p| + c) == Moved(CallK(opts, d, stk, h, b, c), |p|)
  {
    if stk == [] {
      FreshMoves(opts, d, h, p, b, c);
    } else {
      FrameMoves(opts, stk[|stk| - 1], stk[..|stk| - 1], h, p, b, c);
    }
  }

  lemma {:induction false} FrameMoves(opts: Options, f: Frame, below: seq<Frame>, h: seq<Byte>, p: seq<Byte>, b: seq<Byte>, c: nat)
    decreases |below|, 3
    ensures FrameK(opts, f, below, h, p + b, |p| + c) == Moved(FrameK(opts, f, below, h, b, c), |p|)
  {
    match f
    case FailureF => WaitingMoves(opts, f, below, h, p, b, c);
    case DoubleF => WaitingMoves(opts, f, below, h, p, b, c);
    case BigNumberF => WaitingMoves(opts, f, below, h, p, b, c);
    case BulkF => WaitingMoves(opts, f, below, h, p, b, c);
    case BulkFailureF => WaitingMoves(opts, f, below, h, p, b, c);
    case VerbatimF => WaitingMoves(opts, f, below, h, p, b, c);
    case WithAttributesF(_) => WaitingMoves(opts, f, below, h, p, b, c);
    case AggregateF(_) => SizedMoves(opts, f, below, h, p, b, c);
    case HashF => SizedMoves(opts, f, below, h, p, b, c);
    case AttributesF => SizedMoves(opts, f, below, h, p, b, c);
    case BlobF => SizedMoves(opts, f, below, h, p, b, c);
    case ChunkedBlobF => SizedMoves(opts, f, below, h, p, b, c);
    case ExprListF(_, _, _) => ListMoves(opts, f, below, h, p, b, c);
    case StreamedListF(_, _) => ListMoves(opts, f, below, h, p, b, c);
    case EntryListF(_, _) => ListMoves(opts, f, below, h, p, b, c);
    case StreamedEntriesF(_) => ListMoves(opts, f, below, h, p, b, c);
    case UnannotatedF => ReplyMoves(opts, p, b, c, true);
    case UncomposedBlobF(rest) => if rest > 0 { PayloadMoves(p, b, c, rest); }
    case _ => ScanKMoves(opts, f, h, p, b, c);
  }

  lemma {:induction false} WaitingMoves(opts: Options, f: Frame, below: seq<Frame>, h: seq<Byte>, p: seq<Byte>, b: seq<Byte>, c: nat)
    requires f.FailureF? || f.DoubleF? || f.BigNumberF? || f.BulkF? || f.BulkFailureF? || f.VerbatimF? || f.WithAttributesF?
    decreases |below|, 2
    ensures FrameK(opts, f, below, h, p + b, |p| + c) == Moved(FrameK(opts, f, below, h, b, c), |p|)
  {
    var d := if f.FailureF? then LineP
             else if f.DoubleF? || f.BigNumberF? then AsciiLineP
             else if f.WithAttributesF? then Resp3P
             else BlobP;
    CallMoves(opts, d, below, h, p, b, c);
    ViewMoved(CallK(opts, d, below, h, b, c), |p|);
  }

  lemma WrappedMoved<A, B>(o: Out<A>, f: A -> B, d: int)
    ensures Wrapped(Moved(o, d), f) == Moved(Wrapped(o, f), d)
  {
  }

  lemma ReadReplyMoved(o: Out<Reply>, d: int)
    ensures ReadReply(Moved(o, d)) == Moved(ReadReply(o), d)
  {
  }

  lemma ReadListMoved(shape: Shape, o: Out<seq<Reply>>, d: int)
    ensures ReadList(shape, Moved(o, d)) == Moved(ReadList(shape, o), d)
  {
  }

  lemma ReadMapMoved(o: Out<seq<Entry>>, d: int)
    ensures ReadMap(Moved(o, d)) == Moved(ReadMap(o), d)
  {
  }

  lemma AfterAggregateMoves(opts: Options, shape: Shape, p: seq<Byte>, b: seq<Byte>, o: Out<Read>)
    requires shape != EntryS && (o.Got? ==> o.next >= 0)
    ensures AfterAggregate(opts, shape, p + b, Moved(o, |p|)) == Moved(AfterAggregate(opts, shape, b, o), |p|)
  {
    match o
    case Got(Val(ASize(Sized(n))), k) =>
      if n > 0 {
        SlotsMoves(opts, p, b, k, [], n);
        WrappedMoved(RefSlots(opts, b, k, [], n), (items: seq<Reply>) => Wrap(shape, items), |p|);
      }
    case Got(Val(ASize(Streamed)), k) =>
      StreamedMoves(opts, p, b, k, []);
      WrappedMoved(RefStreamed(opts, b, k, []), (items: seq<Reply>) => Wrap(shape, items), |p|);
    case _ =>
  }

  lemma AfterHashMoves(opts: Options, p: seq<Byte>, b: seq<Byte>, o: Out<Read>)
    requires o.Got? ==> o.next >= 0
    ensures AfterHash(opts, p + b, Moved(o, |p|)) == Moved(AfterHash(opts, b, o), |p|)
  {
    match o
    case Got(Val(ASize(Sized(n))), k) =>
      if n > 0 {
        EntriesMoves(opts, p, b, k, [], n);
        WrappedMoved(RefEntries(opts, b, k, [], n), (es: seq<Entry>) => Map(es), |p|);
      }
    case Got(Val(ASize(Streamed)), k) =>
      StreamedEntriesMoves(opts, p, b, k, []);
      WrappedMoved(RefStreamedEntries(opts, b, k, []), (es: seq<Entry>) => Map(es), |p|);
    case _ =>
  }

  lemma AfterAttributesMoves(opts: Options, p: seq<Byte>, b: seq<Byte>, o: Out<Read>)
    requires o.Got? ==> o.next >= 0
    ensures AfterAttributes(opts, p + b, Moved(o, |p|)) == Moved(AfterAttributes(opts, b, o), |p|)
  {
    match o
    case Got(Val(AReply(m)), k) =>
      if m.Map? {
        WithAttributesMoves(opts, p, b, k, m.entries);
      } else {
        ReplyMoves(opts, p, b, k, true);
      }
    case _ =>
  }

  lemma ReadHeldMoved(h: seq<Byte>, o: Out<Payload>, d: int)
    ensures ReadHeld(h, Moved(o, d)) == Moved(ReadHeld(h, o), d)
  {
  }

  lemma ReadChunksMoved(h: seq<Byte>, o: Out<seq<seq<Byte>>>, d: int)
    ensures ReadChunks(h, Moved(o, d)) == Moved(ReadChunks(h, o), d)
  {
  }

  lemma AfterBlobMoves(h: seq<Byte>, p: seq<Byte>, b: seq<Byte>, o: Out<Read>)
    requires o.Got? ==> o.next >= 0
    ensures AfterBlob(h, p + b, Moved(o, |p|)) == Moved(AfterBlob(h, b, o), |p|)
  {
    match o
    case Got(Val(ASize(Sized(n))), k) =>
      if n > 0 {
        PayloadMoves(p, b, k, n);
        ReadHeldMoved(h, RefPayload(b, k, n), |p|);
      }
    case Got(Val(ASize(Streamed)), k) =>
      ChunksMoves(p, b, k);
      ReadChunksMoved(h, RefChunks(b, k), |p|);
    case _ =>
  }

  lemma AfterChunkedMoves(p: seq<Byte>, b: seq<Byte>, o: Out<Read>)
    requires o.Got? ==> o.next >= 0
    ensures AfterChunked(p + b, Moved(o, |p|)) == Moved(AfterChunked(b, o), |p|)
  {
    match o
    case Got(Held(Composed, bs), k) =>
      ChunksMoves(p, b, k);
      ReadChunksMoved(bs, RefChunks(b, k), |p|);
    case _ =>
  }

  lemma AfterSlotsMoves(opts: Options, items: seq<Reply>, s: int, p: seq<Byte>, b: seq<Byte>, o: Out<Read>)
    requires o.Got? ==> o.next >= 0
    ensures AfterSlots(opts, items, s, p + b, Moved(o, |p|)) == Moved(AfterSlots(opts, items, s, b, o), |p|)
  {
    match o
    case Got(Val(AReply(v)), k) => SlotsMoves(opts, p, b, k, items + [v], s);
    case _ =>
  }

  lemma AfterEntriesMoves(opts: Options, es: seq<Entry>, s: int, p: seq<Byte>, b: seq<Byte>, o: Out<Read>)
    requires o.Got? ==> o.next >= 0
    ensures AfterEntries(opts, es, s, p + b, Moved(o, |p|)) == Moved(AfterEntries(opts, es, s, b, o), |p|)
  {
    match o
    case Got(Val(AnEntry(e)), k) => EntriesMoves(opts, p, b, k, es + [DecodeKey(opts.bulkText, e)], s);
    case _ =>
  }

  lemma AfterStreamedMoves(opts: Options, items: seq<Reply>, p: seq<Byte>, b: seq<Byte>, o: Out<Read>)
    requires o.Got? ==> o.next >= 0
    ensures AfterStreamed(opts, items, p + b, Moved(o, |p|)) == Moved(AfterStreamed(opts, items, b, o), |p|)
  {
    match o
    case Got(Val(AReply(v)), k) => StreamedMoves(opts, p, b, k, items + [v]);
    case _ =>
  }

  lemma AfterStreamedEntriesMoves(opts: Options, es: seq<Entry>, p: seq<Byte>, b: seq<Byte>, o: Out<Read>)
    requires o.Got? ==> o.next >= 0
    ensures AfterStreamedEntries(opts, es, p + b, Moved(o, |p|)) == Moved(AfterStreamedEntries(opts, es, b, o), |p|)
  {
    match o
    case Got(Val(AnEntry(e)), k) => StreamedEntriesMoves(opts, p, b, k, es + [e]);
    case _ =>
  }

  lemma {:induction false} SizedMoves(opts: Options, f: Frame, below: seq<Frame>, h: seq<Byte>, p: seq<Byte>, b: seq<Byte>, c: nat)
    requires f.AggregateF? || f.HashF? || f.AttributesF? || f.BlobF? || f.ChunkedBlobF?
    decreases |below|, 2
    ensures FrameK(opts, f, below, h, p + b, |p| + c) == Moved(FrameK(opts, f, below, h, b, c), |p|)
  {
    var d := if f.AttributesF? then HashP else if f.ChunkedBlobF? then ChunkP else SizeP;
    var o := View(CallK(opts, d, below, h, b, c));
    CallMoves(opts, d, below, h, p, b, c);
    ViewMoved(CallK(opts, d, below, h, b, c), |p|);
    assert View(CallK(opts, d, below, h, p + b, |p| + c)) == Moved(o, |p|);
    match f
    case AggregateF(shape) =>
      if shape != EntryS {
        AfterAggregateMoves(opts, shape, p, b, o);
        ReadReplyMoved(AfterAggregate(opts, shape, b, o), |p|);
      }
    case HashF =>
      AfterHashMoves(opts, p, b, o);
      ReadReplyMoved(AfterHash(opts, b, o), |p|);
    case AttributesF =>
      AfterAttributesMoves(opts, p, b, o);
      ReadReplyMoved(AfterAttributes(opts, b, o), |p|);
    case BlobF =>
      AfterBlobMoves(h, p, b, o);
    case ChunkedBlobF =>
      AfterChunkedMoves(p, b, o);
  }

  lemma {:induction false} ListMoves(opts: Options, f: Frame, below: seq<Frame>, h: seq<Byte>, p: seq<Byte>, b: seq<Byte>, c: nat)
    requires f.ExprListF? || f.StreamedListF? || f.EntryListF? || f.StreamedEntriesF?
    decreases |below|, 2
    ensures FrameK(opts, f, below, h, p + b, |p| + c) == Moved(FrameK(opts, f, below, h, b, c), |p|)
  {
    match f
    case ExprListF(shape, items, s) =>
      var o := View(CallK(opts, ParseP, below, h, b, c));
      CallMoves(opts, ParseP, below, h, p, b, c);
      ViewMoved(CallK(opts, ParseP, below, h, b, c), |p|);
      AfterSlotsMoves(opts, items, s, p, b, o);
      ReadListMoved(shape, AfterSlots(opts, items, s, b, o), |p|);
    case StreamedListF(shape, items) =>
      if shape != EntryS {
        StreamedKMoves(opts, items, below, h, p, b, c);
        ReadListMoved(shape, StreamedK(opts, items, below, h, b, c), |p|);
      }
    case EntryListF(es, s) =>
      var o := View(CallK(opts, EntryP, below, h, b, c));
      CallMoves(opts, EntryP, below, h, p, b, c);
      ViewMoved(CallK(opts, EntryP, below, h, b, c), |p|);
      AfterEntriesMoves(opts, es, s, p, b, o);
      ReadMapMoved(AfterEntries(opts, es, s, b, o), |p|);
    case StreamedEntriesF(es) =>
      StreamedEntriesKMoves(opts, es, below, h, p, b, c);
      ReadMapMoved(StreamedEntriesK(opts, es, below, h, b, c), |p|);
  }

  lemma {:induction false} StreamedKMoves(opts: Options, items: seq<Reply>, below: seq<Frame>, h: seq<Byte>, p: seq<Byte>, b: seq<Byte>, c: nat)
    decreases |below|, 1
    ensures StreamedK(opts, items, below, h, p + b, |p| + c) == Moved(StreamedK(opts, items, below, h, b, c), |p|)
  {
    if below == [] {
      StreamedMoves(opts, p, b, c, items);
    } else {
      var o := View(CallK(opts, StreamedReplyP, below, h, b, c));
      CallMoves(opts, StreamedReplyP, below, h, p, b, c);
      ViewMoved(CallK(opts, StreamedReplyP, below, h, b, c), |p|);
      AfterStreamedMoves(opts, items, p, b, o);
    }
  }

  lemma {:induction false} StreamedEntriesKMoves(opts: Options, es: seq<Entry>, below: seq<Frame>, h: seq<Byte>, p: seq<Byte>, b: seq<Byte>, c: nat)
    decreases |below|, 1
    ensures StreamedEntriesK(opts, es, below, h, p + b, |p| + c) == Moved(StreamedEntriesK(opts, es, below, h, b, c), |p|)
  {
    if below == [] {
      StreamedEntriesMoves(opts, p, b, c, es);
    } else {
      var o := View(CallK(opts, StreamedEntryP, below, h, b, c));
      CallMoves(opts, StreamedEntryP, below, h, p, b, c);
      ViewMoved(CallK(opts, StreamedEntryP, below, h, b, c), |p|);
      AfterStreamedEntriesMoves(opts, es, p, b, o);
    }
  }
}
