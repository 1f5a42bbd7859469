/**
 * Bytes that arrive later cannot change a reading that is already decided.
 * Each routine of `createParserState` looks only at bytes before the position
 * where it stops, and runs short rather than guess when the buffer ends. So
 * a reference reading that gives a value or an exception on `b` gives the
 * same value, the same position and the same exception on `b + more`, for
 * any `more`: only `Short` readings depend on what comes next.
 */
module Stability {
  import opened Utils
  import opened Resp
  import opened Lines
  import opened Reference

  /** A line whose CR is in `b` ends at the same place, with the same bytes, in `b + more`. */
  lemma {:induction false} ScanStable(b: seq<Byte>, more: seq<Byte>, i: int)
    requires Terminated(b, i)
    decreases |b| - i
    ensures 0 <= i <= ScanStop(b, i) < |b|
    ensures ScanStop(b + more, i) == ScanStop(b, i)
    ensures Terminated(b + more, i)
    ensures LineBytes(b + more, i) == LineBytes(b, i)
  {
    if Truthy(At(b, i)) && b[i] != CR {
      ScanStable(b, more, i + 1);
    }
  }

  /*
   * Lines and sizes.
   */

  lemma LineStable(opts: Options, b: seq<Byte>, more: seq<Byte>, i: int)
    requires !RefLine(opts, b, i).Short?
    ensures RefLine(opts, b + more, i) == RefLine(opts, b, i)
  {
    ScanStable(b, more, i);
  }

  lemma AsciiLineStable(b: seq<Byte>, more: seq<Byte>, i: int)
    requires !RefAsciiLine(b, i).Short?
    ensures RefAsciiLine(b + more, i) == RefAsciiLine(b, i)
  {
    ScanStable(b, more, i);
  }

  lemma SizeStable(b: seq<Byte>, more: seq<Byte>, i: int)
    requires !RefSize(b, i).Short?
    ensures RefSize(b + more, i) == RefSize(b, i)
  {
    var x := At(b, i);
    if x != Some(Question) && x != Some(DigitZero) && x != Some(Minus) {
      ScanStable(b, more, i);
    }
  }

  /*
   * Scalars.
   */

  lemma DecimalsStable(b: seq<Byte>, more: seq<Byte>, i: int, sign: int, acc: int)
    requires !RefDecimals(b, i, sign, acc).Short?
    ensures RefDecimals(b + more, i, sign, acc) == RefDecimals(b, i, sign, acc)
  {
    ScanStable(b, more, i);
  }

  lemma IntStable(b: seq<Byte>, more: seq<Byte>, i: int)
    requires !RefInt(b, i).Short?
    ensures RefInt(b + more, i) == RefInt(b, i)
  {
    var x := At(b, i);
    if x.value == DigitZero {
    } else if x.value != Plus && x.value != Minus {
      DecimalsStable(b, more, i, 1, 0);
    } else {
      DecimalsStable(b, more, i + 1, if x.value == Plus then 1 else -1, 0);
    }
  }

  /*
   * Blobs.
   */

  lemma {:induction false} BlobStable(b: seq<Byte>, more: seq<Byte>, i: int)
    requires 0 <= i && !RefBlob(b, i).Short?
    decreases Left(b, i), 1
    ensures RefBlob(b + more, i) == RefBlob(b, i)
  {
    SizeStable(b, more, i);
    match RefSize(b, i)
    case Got(Sized(n), k) =>
      if n > 0 {
        assert (b + more)[k..k + n] == b[k..k + n];
      }
    case Got(Streamed, k) =>
      ChunksStable(b, more, k);
  }

  lemma {:induction false} ChunkStable(b: seq<Byte>, more: seq<Byte>, i: int)
    requires 0 <= i && !RefChunk(b, i).Short?
    decreases Left(b, i), 2
    ensures RefChunk(b + more, i) == RefChunk(b, i)
  {
    BlobStable(b, more, i + 1);
  }

  lemma {:induction false} ChunksStable(b: seq<Byte>, more: seq<Byte>, i: int)
    requires 0 <= i && !RefChunks(b, i).Short?
    decreases Left(b, i), 3
    ensures RefChunks(b + more, i) == RefChunks(b, i)
  {
    ChunkStable(b, more, i);
    match RefChunk(b, i)
    case Got(Fragments(ps), n) =>
      ChunksStable(b, more, n);
    case Got(_, n) =>
  }

  /*
   * Replies.
   */

  /** The reading of one reply: once it gives a value or throws, bytes received later cannot change it. */
  lemma {:induction false} ReplyStable(opts: Options, b: seq<Byte>, more: seq<Byte>, i: int, v3: bool)
    requires 0 <= i && !RefReply(opts, b, i, v3).Short?
    decreases Left(b, i), 1
    ensures RefReply(opts, b + more, i, v3) == RefReply(opts, b, i, v3)
  {
    var x := At(b, i);
    if x.value in Resp2Tags {
      Resp2Stable(opts, b, more, i + 1, x.value);
    } else if v3 && x.value in Resp3Tags {
      Resp3Stable(opts, b, more, i + 1, x.value);
    }
  }

  /**
   * What `process()` reads from a buffer `b` it reads the same from any buffer
   * that `b` begins: a reply or exception decided on the bytes received so far
   * is the one a longer buffer gives.
   */
  lemma PrefixDecides(opts: Options, b: seq<Byte>, c: seq<Byte>, i: int, v3: bool)
    requires 0 <= i && b <= c
    ensures !RefReply(opts, b, i, v3).Short? ==> RefReply(opts, c, i, v3) == RefReply(opts, b, i, v3)
  {
    if !RefReply(opts, b, i, v3).Short? {
      assert c == b + c[|b|..];
      ReplyStable(opts, b, c[|b|..], i, v3);
    }
  }

  lemma {:induction false} Resp2Stable(opts: Options, b: seq<Byte>, more: seq<Byte>, i: int, tag: Byte)
    requires 0 <= i && tag in Resp2Tags && !RefResp2(opts, b, i, tag).Short?
    decreases Left(b, i), 6
    ensures RefResp2(opts, b + more, i, tag) == RefResp2(opts, b, i, tag)
  {
    if tag == 0x2B || tag == 0x2D {
      LineStable(opts, b, more, i);
    } else if tag == 0x3A {
      IntStable(b, more, i);
    } else if tag == 0x24 {
      BlobStable(b, more, i);
    } else {
      AggregateStable(opts, b, more, i, ListS);
    }
  }

  lemma {:induction false} Resp3Stable(opts: Options, b: seq<Byte>, more: seq<Byte>, i: int, tag: Byte)
    requires 0 <= i && tag in Resp3Tags && !RefResp3(opts, b, i, tag).Short?
    decreases Left(b, i), 6
    ensures RefResp3(opts, b + more, i, tag) == RefResp3(opts, b, i, tag)
  {
    if tag == 0x7E {
      AggregateStable(opts, b, more, i, SetS);
    } else if tag == 0x25 {
      HashStable(opts, b, more, i);
    } else if tag == 0x3E {
      AggregateStable(opts, b, more, i, PushS);
    } else if tag == 0x7C {
      AttributesStable(opts, b, more, i);
    } else if tag == 0x5F {
    } else if tag == 0x23 {
    } else if tag == 0x2C || tag == 0x28 {
      AsciiLineStable(b, more, i);
    } else {
      BlobStable(b, more, i);
    }
  }

  lemma {:induction false} AggregateStable(opts: Options, b: seq<Byte>, more: seq<Byte>, i: int, shape: Shape)
    requires 0 <= i && shape != EntryS && !RefAggregate(opts, b, i, shape).Short?
    decreases Left(b, i), 4
    ensures RefAggregate(opts, b + more, i, shape) == RefAggregate(opts, b, i, shape)
  {
    SizeStable(b, more, i);
    match RefSize(b, i)
    case Got(Sized(n), k) =>
      if 0 < n < ArrayLengthLimit {
        SlotsStable(opts, b, more, k, [], n);
      }
    case Got(Streamed, k) =>
      StreamedStable(opts, b, more, k, []);
  }

  lemma {:induction false} SlotsStable(opts: Options, b: seq<Byte>, more: seq<Byte>, i: int, acc: seq<Reply>, s: int)
    requires 0 <= i && !RefSlots(opts, b, i, acc, s).Short?
    decreases Left(b, i), 2
    ensures RefSlots(opts, b + more, i, acc, s) == RefSlots(opts, b, i, acc, s)
  {
    if |acc| < s {
      ReplyStable(opts, b, more, i, opts.resp3);
      match RefReply(opts, b, i, opts.resp3)
      case Got(v, n) =>
        SlotsStable(opts, b, more, n, acc + [v], s);
      case Fail(e) =>
    }
  }

  lemma {:induction false} StreamedStable(opts: Options, b: seq<Byte>, more: seq<Byte>, i: int, acc: seq<Reply>)
    requires 0 <= i && !RefStreamed(opts, b, i, acc).Short?
    decreases Left(b, i), 2
    ensures RefStreamed(opts, b + more, i, acc) == RefStreamed(opts, b, i, acc)
  {
    if At(b, i) != Some(Dot) {
      ReplyStable(opts, b, more, i, opts.resp3);
      match RefReply(opts, b, i, opts.resp3)
      case Got(v, n) =>
        StreamedStable(opts, b, more, n, acc + [v]);
      case Fail(e) =>
    }
  }

  lemma {:induction false} EntryStable(opts: Options, b: seq<Byte>, more: seq<Byte>, i: int)
    requires 0 <= i && !RefEntry(opts, b, i).Short?
    decreases Left(b, i), 3
    ensures RefEntry(opts, b + more, i) == RefEntry(opts, b, i)
  {
    SlotsStable(opts, b, more, i, [], 2);
  }

  lemma {:induction false} HashStable(opts: Options, b: seq<Byte>, more: seq<Byte>, i: int)
    requires 0 <= i && !RefHash(opts, b, i).Short?
    decreases Left(b, i), 4
    ensures RefHash(opts, b + more, i) == RefHash(opts, b, i)
  {
    SizeStable(b, more, i);
    match RefSize(b, i)
    case Got(Sized(n), k) =>
      if 0 < n < ArrayLengthLimit {
        EntriesStable(opts, b, more, k, [], n);
      }
    case Got(Streamed, k) =>
      StreamedEntriesStable(opts, b, more, k, []);
  }

  lemma {:induction false} EntriesStable(opts: Options, b: seq<Byte>, more: seq<Byte>, i: int, acc: seq<Entry>, s: int)
    requires 0 <= i && !RefEntries(opts, b, i, acc, s).Short?
    decreases Left(b, i), 4
    ensures RefEntries(opts, b + more, i, acc, s) == RefEntries(opts, b, i, acc, s)
  {
    if |acc| < s {
      EntryStable(opts, b, more, i);
      match RefEntry(opts, b, i)
      case Got(e, n) =>
        EntriesStable(opts, b, more, n, acc + [DecodeKey(opts.bulkText, e)], s);
      case Fail(e) =>
    }
  }

  lemma {:induction false} StreamedEntriesStable(opts: Options, b: seq<Byte>, more: seq<Byte>, i: int, acc: seq<Entry>)
    requires 0 <= i && !RefStreamedEntries(opts, b, i, acc).Short?
    decreases Left(b, i), 4
    ensures RefStreamedEntries(opts, b + more, i, acc) == RefStreamedEntries(opts, b, i, acc)
  {
    if At(b, i) != Some(Dot) {
      EntryStable(opts, b, more, i);
      match RefEntry(opts, b, i)
      case Got(e, n) =>
        StreamedEntriesStable(opts, b, more, n, acc + [e]);
      case Fail(e) =>
    }
  }

  lemma {:induction false} AttributesStable(opts: Options, b: seq<Byte>, more: seq<Byte>, i: int)
    requires 0 <= i && !RefAttributes(opts, b, i).Short?
    decreases Left(b, i), 5
    ensures RefAttributes(opts, b + more, i) == RefAttributes(opts, b, i)
  {
    HashStable(opts, b, more, i);
    match RefHash(opts, b, i)
    case Got(m, n) =>
      if m.Map? {
        WithAttributesStable(opts, b, more, n, m.entries);
      } else {
        ReplyStable(opts, b, more, n, true);
      }
    case Fail(e) =>
  }

  lemma {:induction false} WithAttributesStable(opts: Options, b: seq<Byte>, more: seq<Byte>, i: int, attrs: seq<Entry>)
    requires 0 <= i && !RefWithAttributes(opts, b, i, attrs).Short?
    decreases Left(b, i), 2
    ensures RefWithAttributes(opts, b + more, i, attrs) == RefWithAttributes(opts, b, i, attrs)
  {
    ReplyStable(opts, b, more, i, true);
  }
}
