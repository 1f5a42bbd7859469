/**
 * The continuation of a stack is decided as early as a reference reading:
 * once a suspended chain of routines, resumed on `b`, gives a value or an
 * exception, it gives the same on `b + more` for any bytes `more`.
 */
module ResumedStability {
  import opened Utils
  import opened Resp
  import opened Lines
  import opened Reference
  import opened Stability
  import opened Continuation

  lemma BooleanStable(b: seq<Byte>, more: seq<Byte>, i: int)
    requires !RefBoolean(b, i).Short?
    ensures RefBoolean(b + more, i) == RefBoolean(b, i)
  {
    assert At(b + more, i) == At(b, i);
  }

  lemma PayloadStable(b: seq<Byte>, more: seq<Byte>, i: int, s: nat)
    requires 0 <= i && s > 0 && !RefPayload(b, i, s).Short?
    ensures RefPayload(b + more, i, s) == RefPayload(b, i, s)
  {
    assert (b + more)[i..i + s] == b[i..i + s];
  }

  /** The leaf readings with saved locals: decided once the CR is in `b`. */
  lemma ScanKStable(opts: Options, f: Frame, h: seq<Byte>, b: seq<Byte>, more: seq<Byte>, c: nat)
    requires f.LineF? || f.AsciiLineF? || f.Uint32F? || f.BigDecimalsF? || f.SizeF? || f.DecimalsF?
    requires !FrameK(opts, f, [], h, b, c).Short?
    ensures FrameK(opts, f, [], h, b + more, c) == FrameK(opts, f, [], h, b, c)
  {
    match f
    case SizeF => SizeStable(b, more, c);
    case DecimalsF(i, sign) => DecimalsStable(b, more, c, sign, i);
    case _ => ScanStable(b, more, c);
  }

  /** `call(proc)` on an empty stack: the reference readings are decided. */
  lemma FreshStable(opts: Options, d: Proc, h: seq<Byte>, b: seq<Byte>, more: seq<Byte>, c: nat)
    requires !FreshK(opts, d, h, b, c).Short?
    ensures FreshK(opts, d, h, b + more, c) == FreshK(opts, d, h, b, c)
  {
    assert At(b, c).Some? ==> At(b + more, c) == At(b, c);
    match d
    case ParseP => ReplyStable(opts, b, more, c, opts.resp3);
    case Resp3P => ReplyStable(opts, b, more, c, true);
    case StreamedReplyP => ReplyStable(opts, b, more, c, opts.resp3);
    case LineP => ScanStable(b, more, c);
    case AsciiLineP => AsciiLineStable(b, more, c);
    case SizeP => SizeStable(b, more, c);
    case BlobP => BlobStable(b, more, c);
    case ChunkP => ChunkStable(b, more, c);
    case HashP => HashStable(opts, b, more, c);
    case EntryP => EntryStable(opts, b, more, c);
    case StreamedEntryP => EntryStable(opts, b, more, c);
  }

  /** A stack resumed on `b`: once its reading is decided, later bytes leave it as it is. */
  lemma {:induction false} CallStable(opts: Options, d: Proc, stk: seq<Frame>, h: seq<Byte>, b: seq<Byte>, more: seq<Byte>, c: nat)
    requires !CallK(opts, d, stk, h, b, c).Short?
    decreases |stk|, 0
    ensures CallK(opts, d, stk, h, b + more, c) == CallK(opts, d, stk, h, b, c)
  {
    if stk == [] {
      FreshStable(opts, d, h, b, more, c);
    } else {
      FrameStable(opts, stk[|stk| - 1], stk[..|stk| - 1], h, b, more, c);
    }
  }

  lemma {:induction false} FrameStable(opts: Options, f: Frame, below: seq<Frame>, h: seq<Byte>, b: seq<Byte>, more: seq<Byte>, c: nat)
    requires !FrameK(opts, f, below, h, b, c).Short?
    decreases |below|, 3
    ensures FrameK(opts, f, below, h, b + more, c) == FrameK(opts, f, below, h, b, c)
  {
    match f
    case FailureF => WaitingStable(opts, f, below, h, b, more, c);
    case DoubleF => WaitingStable(opts, f, below, h, b, more, c);
    case BigNumberF => WaitingStable(opts, f, below, h, b, more, c);
    case BulkF => WaitingStable(opts, f, below, h, b, more, c);
    case BulkFailureF => WaitingStable(opts, f, below, h, b, more, c);
    case VerbatimF => WaitingStable(opts, f, below, h, b, more, c);
    case WithAttributesF(_) => WaitingStable(opts, f, below, h, b, more, c);
    case AggregateF(_) => SizedStable(opts, f, below, h, b, more, c);
    case HashF => SizedStable(opts, f, below, h, b, more, c);
    case AttributesF => SizedStable(opts, f, below, h, b, more, c);
    case BlobF => SizedStable(opts, f, below, h, b, more, c);
    case ChunkedBlobF => SizedStable(opts, f, below, h, b, more, c);
    case ExprListF(_, _, _) => ListStable(opts, f, below, h, b, more, c);
    case StreamedListF(_, _) => ListStable(opts, f, below, h, b, more, c);
    case EntryListF(_, _) => ListStable(opts, f, below, h, b, more, c);
    case StreamedEntriesF(_) => ListStable(opts, f, below, h, b, more, c);
    case IntF => IntStable(b, more, c);
    case BooleanF => BooleanStable(b, more, c);
    case UnannotatedF => ReplyStable(opts, b, more, c, true);
    case UncomposedBlobF(rest) => PayloadStable(b, more, c, rest);
    case _ => ScanKStable(opts, f, h, b, more, c);
  }

  /** The routines that only convert the value they wait on. */
  lemma {:induction false} WaitingStable(opts: Options, f: Frame, below: seq<Frame>, h: seq<Byte>, b: seq<Byte>, more: seq<Byte>, c: nat)
    requires f.FailureF? || f.DoubleF? || f.BigNumberF? || f.BulkF? || f.BulkFailureF? || f.VerbatimF? || f.WithAttributesF?
    requires !FrameK(opts, f, below, h, b, c).Short?
    decreases |below|, 2
    ensures FrameK(opts, f, below, h, b + more, c) == FrameK(opts, f, below, h, b, c)
  {
    var d := if f.FailureF? then LineP
             else if f.DoubleF? || f.BigNumberF? then AsciiLineP
             else if f.WithAttributesF? then Resp3P
             else BlobP;
    assert CallK(opts, d, below, h, b, c).Short? ==> FrameK(opts, f, below, h, b, c).Short?;
    CallStable(opts, d, below, h, b, more, c);
  }

  /** The routines that read a size (or a map) and then go on reading from where it ends. */
  lemma {:induction false} SizedStable(opts: Options, f: Frame, below: seq<Frame>, h: seq<Byte>, b: seq<Byte>, more: seq<Byte>, c: nat)
    requires f.AggregateF? || f.HashF? || f.AttributesF? || f.BlobF? || f.ChunkedBlobF?
    requires !FrameK(opts, f, below, h, b, c).Short?
    decreases |below|, 2
    ensures FrameK(opts, f, below, h, b + more, c) == FrameK(opts, f, below, h, b, c)
  {
    var d := if f.AttributesF? then HashP else if f.ChunkedBlobF? then ChunkP else SizeP;
    var o := View(CallK(opts, d, below, h, b, c));
    assert o.Short? ==> FrameK(opts, f, below, h, b, c).Short?;
    CallStable(opts, d, below, h, b, more, c);
    if o.Got? && o.next >= 0 {
      var k := o.next;
      match f
      case AggregateF(shape) =>
        if o.value == Val(ASize(Streamed)) {
          StreamedStable(opts, b, more, k, []);
        } else if o.value.Val? && o.value.value.ASize? && o.value.value.size.Sized? && 0 < o.value.value.size.n < ArrayLengthLimit {
          SlotsStable(opts, b, more, k, [], o.value.value.size.n);
        }
      case HashF =>
        if o.value == Val(ASize(Streamed)) {
          StreamedEntriesStable(opts, b, more, k, []);
        } else if o.value.Val? && o.value.value.ASize? && o.value.value.size.Sized? && 0 < o.value.value.size.n < ArrayLengthLimit {
          EntriesStable(opts, b, more, k, [], o.value.value.size.n);
        }
      case AttributesF =>
        if o.value.Val? && o.value.value.AReply? {
          if o.value.value.reply.Map? {
            WithAttributesStable(opts, b, more, k, o.value.value.reply.entries);
          } else {
            ReplyStable(opts, b, more, k, true);
          }
        }
      case BlobF =>
        if o.value == Val(ASize(Streamed)) {
          ChunksStable(b, more, k);
        } else if o.value.Val? && o.value.value.ASize? && o.value.value.size.Sized? && o.value.value.size.n > 0 {
          PayloadStable(b, more, k, o.value.value.size.n);
        }
      case ChunkedBlobF =>
        if o.value.Held? && o.value.blob.Composed? {
          ChunksStable(b, more, k);
        }
    }
  }

  /** The routines that fill a list or a map, one element after another. */
  lemma {:induction false} ListStable(opts: Options, f: Frame, below: seq<Frame>, h: seq<Byte>, b: seq<Byte>, more: seq<Byte>, c: nat)
    requires f.ExprListF? || f.StreamedListF? || f.EntryListF? || f.StreamedEntriesF?
    requires !FrameK(opts, f, below, h, b, c).Short?
    decreases |below|, 2
    ensures FrameK(opts, f, below, h, b + more, c) == FrameK(opts, f, below, h, b, c)
  {
    match f
    case ExprListF(shape, items, s) =>
      var o := View(CallK(opts, ParseP, below, h, b, c));
      assert o.Short? ==> FrameK(opts, f, below, h, b, c).Short?;
      CallStable(opts, ParseP, below, h, b, more, c);
      if o.Got? && o.value.Val? && o.value.value.AReply? && o.next >= 0 {
        SlotsStable(opts, b, more, o.next, items + [o.value.value.reply], s);
      }
    case StreamedListF(shape, items) =>
      StreamedKStable(opts, items, below, h, b, more, c);
    case EntryListF(es, s) =>
      var o := View(CallK(opts, EntryP, below, h, b, c));
      assert o.Short? ==> FrameK(opts, f, below, h, b, c).Short?;
      CallStable(opts, EntryP, below, h, b, more, c);
      if o.Got? && o.value.Val? && o.value.value.AnEntry? && o.next >= 0 {
        EntriesStable(opts, b, more, o.next, es + [DecodeKey(opts.bulkText, o.value.value.entry)], s);
      }
    case StreamedEntriesF(es) =>
      StreamedEntriesKStable(opts, es, below, h, b, more, c);
  }

  lemma {:induction false} StreamedKStable(opts: Options, items: seq<Reply>, below: seq<Frame>, h: seq<Byte>, b: seq<Byte>, more: seq<Byte>, c: nat)
    requires !StreamedK(opts, items, below, h, b, c).Short?
    decreases |below|, 1
    ensures StreamedK(opts, items, below, h, b + more, c) == StreamedK(opts, items, below, h, b, c)
  {
    if below == [] {
      StreamedStable(opts, b, more, c, items);
    } else {
      var o := View(CallK(opts, StreamedReplyP, below, h, b, c));
      CallStable(opts, StreamedReplyP, below, h, b, more, c);
      if o.Got? && o.value.Val? && o.value.value.AReply? && o.next >= 0 {
        StreamedStable(opts, b, more, o.next, items + [o.value.value.reply]);
      }
    }
  }

  lemma {:induction false} StreamedEntriesKStable(opts: Options, es: seq<Entry>, below: seq<Frame>, h: seq<Byte>, b: seq<Byte>, more: seq<Byte>, c: nat)
    requires !StreamedEntriesK(opts, es, below, h, b, c).Short?
    decreases |below|, 1
    ensures StreamedEntriesK(opts, es, below, h, b + more, c) == StreamedEntriesK(opts, es, below, h, b, c)
  {
    if below == [] {
      StreamedEntriesStable(opts, b, more, c, es);
    } else {
      var o := View(CallK(opts, StreamedEntryP, below, h, b, c));
      CallStable(opts, StreamedEntryP, below, h, b, more, c);
      if o.Got? && o.value.Val? && o.value.value.AnEntry? && o.next >= 0 {
        StreamedEntriesStable(opts, b, more, o.next, es + [o.value.value.entry]);
      }
    }
  }
}
