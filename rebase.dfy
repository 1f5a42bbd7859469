/**
 * Readings do not depend on where the bytes sit. A routine started at
 * position `i` of `b` reads exactly what it reads at position `|p| + i` of
 * `p + b`: it never looks before its start, and every position it reports
 * moves by `|p|`. This is what lets `appendChunk` throw away the bytes it
 * has consumed and rebase the cursor.
 */
module Rebase {
  import opened Utils
  import opened Resp
  import opened Lines
  import opened Composer
  import opened Reference

  /** The same outcome with the position it stops at moved by `d`. */
  function Moved<T>(o: Out<T>, d: int): (w: Out<T>)
    ensures o.Got? <==> w.Got?
    ensures o.Got? ==> w.value == o.value && w.next == o.next + d
    ensures !o.Got? ==> w == o
  {
    match o
    case Got(v, n) => Got(v, n + d)
    case _ => o
  }

  /** The scan of a line is the same scan wherever the line sits. */
  lemma {:induction false} ScanMoves(p: seq<Byte>, b: seq<Byte>, i: int)
    requires 0 <= i
    decreases |b| - i
    ensures At(p + b, |p| + i) == At(b, i)
    ensures ScanStop(p + b, |p| + i) == |p| + ScanStop(b, i)
    ensures Terminated(p + b, |p| + i) == Terminated(b, i)
    ensures LineBytes(p + b, |p| + i) == LineBytes(b, i)
  {
    if Truthy(At(b, i)) && b[i] != CR {
      ScanMoves(p, b, i + 1);
    }
    var j := ScanStop(b, i);
    assert At(p + b, |p| + j) == At(b, j);
    if i <= |b| {
      assert (p + b)[|p| + i..|p| + j] == b[i..j];
    }
  }

  lemma LineMoves(opts: Options, p: seq<Byte>, b: seq<Byte>, i: int)
    requires 0 <= i
    ensures RefLine(opts, p + b, |p| + i) == Moved(RefLine(opts, b, i), |p|)
  {
    ScanMoves(p, b, i);
  }

  lemma AsciiLineMoves(p: seq<Byte>, b: seq<Byte>, i: int)
    requires 0 <= i
    ensures RefAsciiLine(p + b, |p| + i) == Moved(RefAsciiLine(b, i), |p|)
  {
    ScanMoves(p, b, i);
  }

  lemma SizeMoves(p: seq<Byte>, b: seq<Byte>, i: int)
    requires 0 <= i
    ensures RefSize(p + b, |p| + i) == Moved(RefSize(b, i), |p|)
  {
    ScanMoves(p, b, i);
  }

  lemma DecimalsMoves(p: seq<Byte>, b: seq<Byte>, i: int, sign: int, acc: int)
    requires 0 <= i
    ensures RefDecimals(p + b, |p| + i, sign, acc) == Moved(RefDecimals(b, i, sign, acc), |p|)
  {
    ScanMoves(p, b, i);
  }

  lemma IntMoves(p: seq<Byte>, b: seq<Byte>, i: int)
    requires 0 <= i
    ensures RefInt(p + b, |p| + i) == Moved(RefInt(b, i), |p|)
  {
    ScanMoves(p, b, i);
    DecimalsMoves(p, b, i, 1, 0);
    DecimalsMoves(p, b, i + 1, 1, 0);
    DecimalsMoves(p, b, i + 1, -1, 0);
  }

  lemma BooleanMoves(p: seq<Byte>, b: seq<Byte>, i: int)
    requires 0 <= i
    ensures RefBoolean(p + b, |p| + i) == Moved(RefBoolean(b, i), |p|)
  {
    ScanMoves(p, b, i);
  }

  lemma PayloadMoves(p: seq<Byte>, b: seq<Byte>, i: int, s: nat)
    requires 0 <= i && s > 0
    ensures RefPayload(p + b, |p| + i, s) == Moved(RefPayload(b, i, s), |p|)
  {
    if s <= |b| - i {
      assert (p + b)[|p| + i..|p| + i + s] == b[i..i + s];
    }
  }

  /*
   * Blobs.
   */

  lemma {:induction false} BlobMoves(p: seq<Byte>, b: seq<Byte>, i: int)
    requires 0 <= i
    decreases Left(b, i), 1
    ensures RefBlob(p + b, |p| + i) == Moved(RefBlob(b, i), |p|)
  {
    SizeMoves(p, b, i);
    match RefSize(b, i)
    case Got(Sized(n), k) =>
      if n > 0 {
        PayloadMoves(p, b, k, n);
      }
    case Got(Streamed, k) =>
      ChunksMoves(p, b, k);
    case Short =>
  }

  lemma {:induction false} ChunkMoves(p: seq<Byte>, b: seq<Byte>, i: int)
    requires 0 <= i
    decreases Left(b, i), 2
    ensures RefChunk(p + b, |p| + i) == Moved(RefChunk(b, i), |p|)
  {
    BlobMoves(p, b, i + 1);
  }

  lemma {:induction false} ChunksMoves(p: seq<Byte>, b: seq<Byte>, i: int)
    requires 0 <= i
    decreases Left(b, i), 3
    ensures RefChunks(p + b, |p| + i) == Moved(RefChunks(b, i), |p|)
  {
    ChunkMoves(p, b, i);
    match RefChunk(b, i)
    case Got(Fragments(ps), n) =>
      ChunksMoves(p, b, n);
    case Got(_, n) =>
    case Short =>
  }

  /*
   * Replies.
   */

  /** One reply reads the same wherever it sits among the bytes received. */
  lemma {:induction false} ReplyMoves(opts: Options, p: seq<Byte>, b: seq<Byte>, i: int, v3: bool)
    requires 0 <= i
    decreases Left(b, i), 1
    ensures RefReply(opts, p + b, |p| + i, v3) == Moved(RefReply(opts, b, i, v3), |p|)
  {
    ScanMoves(p, b, i);
    var x := At(b, i);
    if x.Some? && x.value in Resp2Tags {
      Resp2Moves(opts, p, b, i + 1, x.value);
    } else if x.Some? && v3 && x.value in Resp3Tags {
      Resp3Moves(opts, p, b, i + 1, x.value);
    }
  }

  lemma {:induction false} Resp2Moves(opts: Options, p: seq<Byte>, b: seq<Byte>, i: int, tag: Byte)
    requires 0 <= i && tag in Resp2Tags
    decreases Left(b, i), 6
    ensures RefResp2(opts, p + b, |p| + i, tag) == Moved(RefResp2(opts, b, i, tag), |p|)
  {
    if tag == 0x2B || tag == 0x2D {
      LineMoves(opts, p, b, i);
    } else if tag == 0x3A {
      IntMoves(p, b, i);
    } else if tag == 0x24 {
      BlobMoves(p, b, i);
    } else {
      AggregateMoves(opts, p, b, i, ListS);
    }
  }

  lemma {:induction false} Resp3Moves(opts: Options, p: seq<Byte>, b: seq<Byte>, i: int, tag: Byte)
    requires 0 <= i && tag in Resp3Tags
    decreases Left(b, i), 6
    ensures RefResp3(opts, p + b, |p| + i, tag) == Moved(RefResp3(opts, b, i, tag), |p|)
  {
    if tag == 0x7E {
      AggregateMoves(opts, p, b, i, SetS);
    } else if tag == 0x25 {
      HashMoves(opts, p, b, i);
    } else if tag == 0x3E {
      AggregateMoves(opts, p, b, i, PushS);
    } else if tag == 0x7C {
      AttributesMoves(opts, p, b, i);
    } else if tag == 0x5F {
    } else if tag == 0x23 {
      BooleanMoves(p, b, i);
    } else if tag == 0x2C || tag == 0x28 {
      AsciiLineMoves(p, b, i);
    } else {
      BlobMoves(p, b, i);
    }
  }

  lemma {:induction false} AggregateMoves(opts: Options, p: seq<Byte>, b: seq<Byte>, i: int, shape: Shape)
    requires 0 <= i && shape != EntryS
    decreases Left(b, i), 4
    ensures RefAggregate(opts, p + b, |p| + i, shape) == Moved(RefAggregate(opts, b, i, shape), |p|)
  {
    SizeMoves(p, b, i);
    match RefSize(b, i)
    case Got(Sized(n), k) =>
      assert RefSize(p + b, |p| + i) == Got(Sized(n), k + |p|);
      if 0 < n < ArrayLengthLimit {
        SlotsMoves(opts, p, b, k, [], n);
      }
    case Got(Streamed, k) =>
      StreamedMoves(opts, p, b, k, []);
    case Short =>
  }

  lemma {:induction false} SlotsMoves(opts: Options, p: seq<Byte>, b: seq<Byte>, i: int, acc: seq<Reply>, s: int)
    requires 0 <= i
    decreases Left(b, i), 2
    ensures RefSlots(opts, p + b, |p| + i, acc, s) == Moved(RefSlots(opts, b, i, acc, s), |p|)
  {
    if |acc| < s {
      ReplyMoves(opts, p, b, i, opts.resp3);
      match RefReply(opts, b, i, opts.resp3)
      case Got(v, n) =>
        SlotsMoves(opts, p, b, n, acc + [v], s);
      case _ =>
    }
  }

  lemma {:induction false} StreamedMoves(opts: Options, p: seq<Byte>, b: seq<Byte>, i: int, acc: seq<Reply>)
    requires 0 <= i
    decreases Left(b, i), 2
    ensures RefStreamed(opts, p + b, |p| + i, acc) == Moved(RefStreamed(opts, b, i, acc), |p|)
  {
    ScanMoves(p, b, i);
    if At(b, i) != Some(Dot) && Truthy(At(b, i)) {
      ReplyMoves(opts, p, b, i, opts.resp3);
      match RefReply(opts, b, i, opts.resp3)
      case Got(v, n) =>
        StreamedMoves(opts, p, b, n, acc + [v]);
      case _ =>
    }
  }

  lemma {:induction false} EntryMoves(opts: Options, p: seq<Byte>, b: seq<Byte>, i: int)
    requires 0 <= i
    decreases Left(b, i), 3
    ensures RefEntry(opts, p + b, |p| + i) == Moved(RefEntry(opts, b, i), |p|)
  {
    SlotsMoves(opts, p, b, i, [], 2);
  }

  lemma {:induction false} HashMoves(opts: Options, p: seq<Byte>, b: seq<Byte>, i: int)
    requires 0 <= i
    decreases Left(b, i), 4
    ensures RefHash(opts, p + b, |p| + i) == Moved(RefHash(opts, b, i), |p|)
  {
    SizeMoves(p, b, i);
    match RefSize(b, i)
    case Got(Sized(n), k) =>
      assert RefSize(p + b, |p| + i) == Got(Sized(n), k + |p|);
      if 0 < n < ArrayLengthLimit {
        EntriesMoves(opts, p, b, k, [], n);
        var o := RefEntries(opts, b, k, [], n);
        assert RefHash(opts, b, i) == Wrapped(o, (es: seq<Entry>) => Map(es));
      }
    case Got(Streamed, k) =>
      StreamedEntriesMoves(opts, p, b, k, []);
    case Short =>
  }

  lemma {:induction false} EntriesMoves(opts: Options, p: seq<Byte>, b: seq<Byte>, i: int, acc: seq<Entry>, s: int)
    requires 0 <= i
    decreases Left(b, i), 4
    ensures RefEntries(opts, p + b, |p| + i, acc, s) == Moved(RefEntries(opts, b, i, acc, s), |p|)
  {
    if |acc| < s {
      EntryMoves(opts, p, b, i);
      match RefEntry(opts, b, i)
      case Got(e, n) =>
        EntriesMoves(opts, p, b, n, acc + [DecodeKey(opts.bulkText, e)], s);
      case _ =>
    }
  }

  lemma {:induction false} StreamedEntriesMoves(opts: Options, p: seq<Byte>, b: seq<Byte>, i: int, acc: seq<Entry>)
    requires 0 <= i
    decreases Left(b, i), 4
    ensures RefStreamedEntries(opts, p + b, |p| + i, acc) == Moved(RefStreamedEntries(opts, b, i, acc), |p|)
  {
    ScanMoves(p, b, i);
    if At(b, i) != Some(Dot) && Truthy(At(b, i)) {
      EntryMoves(opts, p, b, i);
      match RefEntry(opts, b, i)
      case Got(e, n) =>
        StreamedEntriesMoves(opts, p, b, n, acc + [e]);
      case _ =>
    }
  }

  lemma {:induction false} AttributesMoves(opts: Options, p: seq<Byte>, b: seq<Byte>, i: int)
    requires 0 <= i
    decreases Left(b, i), 5
    ensures RefAttributes(opts, p + b, |p| + i) == Moved(RefAttributes(opts, b, i), |p|)
  {
    HashMoves(opts, p, b, i);
    match RefHash(opts, b, i)
    case Got(m, n) =>
      if m.Map? {
        WithAttributesMoves(opts, p, b, n, m.entries);
      } else {
        ReplyMoves(opts, p, b, n, true);
      }
    case _ =>
  }

  lemma {:induction false} WithAttributesMoves(opts: Options, p: seq<Byte>, b: seq<Byte>, i: int, attrs: seq<Entry>)
    requires 0 <= i
    decreases Left(b, i), 2
    ensures RefWithAttributes(opts, p + b, |p| + i, attrs) == Moved(RefWithAttributes(opts, b, i, attrs), |p|)
  {
    ReplyMoves(opts, p, b, i, true);
  }
}
