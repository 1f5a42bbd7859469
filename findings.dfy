// Two places where the decoder as written answers differently depending on
// where the input is split into chunks, each next to the corrected reading
// that the rest of the model uses.

module Findings {
  import opened Utils
  import opened Resp
  import opened Lines
  import opened Composer
  import opened Reference
  import opened Continuation
  import opened Resumption

  /*
   * A null attribute map with no byte after it.
   *
   * `parseAttributes` (src/resp3_parser.ts:688-702) reads the map and, when it
   * is `null`, returns `parseResp3Unmapped()` directly. With no byte left that
   * call returns `undefined` with nothing pushed, so the `|-1\r\n` already
   * read is forgotten: the routine waiting below reads a fresh reply where
   * the attribute map ended. The corrected machine leaves the frame
   * `UnannotatedF` there instead (`Resp3.ParserState.ParseUnannotated`).
   */

  /** `~?\r\n|-1\r\n`: a streamed set whose first element is a null attribute map. */
  function NullAttributesHead(): seq<Byte>
  {
    [0x7E, 0x3F, 0x0D, 0x0A, 0x7C, 0x2D, 0x31, 0x0D, 0x0A]
  }

  /** `.\r\n`: the end of the stream. */
  function StreamEnd(): seq<Byte>
  {
    [0x2E, 0x0D, 0x0A]
  }

  /**
   * In one chunk the byte after the null map is `.`, which starts no reply:
   * `SyntaxError`. Split after the map, the stack the code as written leaves
   * (the set alone) reads the `.` as the end of the set and answers an empty
   * set, while the stack the corrected code leaves reads the `SyntaxError`.
   */
  lemma NullAttributesSplit(opts: Options)
    requires opts.resp3
    ensures RefReply(opts, NullAttributesHead() + StreamEnd(), 0, true) == Fail(SyntaxError)
    ensures CallK(opts, ParseP, [StreamedListF(SetS, [])], [], StreamEnd(), 0) == Got(Val(AReply(Set([]))), 3)
    ensures CallK(opts, ParseP, [UnannotatedF, StreamedListF(SetS, [])], [], StreamEnd(), 0) == Fail(SyntaxError)
  {
    NullAttributesInOneChunk(opts);
    var e := StreamEnd();
    assert At(e, 0) == Some(Dot);
    assert RefStreamed(opts, e, 0, []) == Got([], 3);
    assert RefReply(opts, e, 0, true) == Fail(SyntaxError);
    assert CallK(opts, StreamedReplyP, [UnannotatedF], [], e, 0) == Fail(SyntaxError);
    assert StreamedK(opts, [], [UnannotatedF], [], e, 0) == Fail(SyntaxError);
    var stk := [UnannotatedF, StreamedListF(SetS, [])];
    assert stk[..|stk| - 1] == [UnannotatedF];
    assert FrameK(opts, StreamedListF(SetS, []), [UnannotatedF], [], e, 0) == Fail(SyntaxError);
  }

  /** The input of `NullAttributesSplit` read in one chunk. */
  lemma NullAttributesInOneChunk(opts: Options)
    requires opts.resp3
    ensures RefReply(opts, NullAttributesHead() + StreamEnd(), 0, true) == Fail(SyntaxError)
  {
    var b := NullAttributesHead() + StreamEnd();
    assert b == [0x7E, 0x3F, 0x0D, 0x0A, 0x7C, 0x2D, 0x31, 0x0D, 0x0A, 0x2E, 0x0D, 0x0A];
    assert RefSize(b, 1) == Got(Streamed, 4);
    assert RefSize(b, 5) == Got(Sized(-1), 9);
    assert RefHash(opts, b, 5) == Got(Null, 9);
    assert RefReply(opts, b, 9, true) == Fail(SyntaxError);
    assert RefAttributes(opts, b, 5) == Fail(SyntaxError);
    assert RefResp3(opts, b, 5, 0x7C) == Fail(SyntaxError);
    assert RefReply(opts, b, 4, opts.resp3) == Fail(SyntaxError);
    assert RefStreamed(opts, b, 4, []) == Fail(SyntaxError);
    assert RefAggregate(opts, b, 1, SetS) == Fail(SyntaxError);
    assert RefResp3(opts, b, 1, 0x7E) == Fail(SyntaxError);
  }

  /*
   * A streamed list resumed over an element that is still suspended.
   *
   * `parseStreamedExpressionList` (src/resp3_parser.ts:479-501) and
   * `parseStreamedEntryList` (415-437) test `chunk[count]` before every
   * element, the resumed one included. When the bytes that finish the
   * suspended element start with `0x00`, the test fails, the list pushes
   * itself back with the cursor unmoved, and every later call does the same.
   */

  /** `StreamedK` as the code is written: the byte under the cursor is tested before the suspended element is resumed. */
  function StreamedKAsWritten(opts: Options, items: seq<Reply>, below: seq<Frame>, h: seq<Byte>, b: seq<Byte>, c: nat): (o: Out<seq<Reply>>)
    ensures !Truthy(At(b, c)) && below != [] ==> o == Short
    ensures Truthy(At(b, c)) || below == [] ==> o == StreamedK(opts, items, below, h, b, c)
  {
    if below != [] && !Truthy(At(b, c)) then Short
    else StreamedK(opts, items, below, h, b, c)
  }

  /** `~?\r\n$3\r\n`: a streamed set whose first element, a blob of three bytes, has none of them yet. */
  function BlobHead(): seq<Byte>
  {
    [0x7E, 0x3F, 0x0D, 0x0A, 0x24, 0x33, 0x0D, 0x0A]
  }

  /** `\0ab\r\n.\r\n`: the blob's bytes, the first of them `0x00`, then the end of the stream. */
  function BlobTail(): seq<Byte>
  {
    [0x00, 0x61, 0x62, 0x0D, 0x0A, 0x2E, 0x0D, 0x0A]
  }

  /** The element the set holds: the blob `\0ab` as a bulk string. */
  function BlobElement(opts: Options): Reply
  {
    BulkReply(opts, Fragments([[0x00, 0x61, 0x62]]))
  }

  /**
   * In one chunk the set holds the blob `\0ab`. Split before the blob's
   * bytes, the code as written never moves again, whatever follows; the
   * corrected reading of the same stack reads the same set as one chunk.
   */
  lemma StreamedResumeStalls(opts: Options)
    requires opts.resp3
    ensures RefReply(opts, BlobHead() + BlobTail(), 0, true) == Got(Set([BlobElement(opts)]), 16)
    ensures StreamedK(opts, [], [UncomposedBlobF(3), BulkF], [], BlobTail(), 0) == Got([BlobElement(opts)], 8)
    ensures forall more :: StreamedKAsWritten(opts, [], [UncomposedBlobF(3), BulkF], [], BlobTail() + more, 0) == Short
  {
    BlobInOneChunk(opts);
    BlobResumed(opts);
    forall more
      ensures StreamedKAsWritten(opts, [], [UncomposedBlobF(3), BulkF], [], BlobTail() + more, 0) == Short
    {
      assert At(BlobTail() + more, 0) == Some(0x00);
    }
  }

  /** The set of `StreamedResumeStalls` read in one chunk. */
  lemma BlobInOneChunk(opts: Options)
    requires opts.resp3
    ensures RefReply(opts, BlobHead() + BlobTail(), 0, true) == Got(Set([BlobElement(opts)]), 16)
  {
    var v := BlobElement(opts);
    var b := BlobHead() + BlobTail();
    assert b == [0x7E, 0x3F, 0x0D, 0x0A, 0x24, 0x33, 0x0D, 0x0A, 0x00, 0x61, 0x62, 0x0D, 0x0A, 0x2E, 0x0D, 0x0A];
    assert RefSize(b, 1) == Got(Streamed, 4);
    assert ScanStop(b, 6) == 6 && ScanStop(b, 5) == 6;
    assert LineBytes(b, 5) == [0x33];
    assert Accumulate(0, [0x33]) == 3 by {
      assert [0x33][..0] == [];
    }
    assert RefSize(b, 5) == Got(Sized(3), 8);
    assert b[8..11] == [0x00, 0x61, 0x62];
    assert RefBlob(b, 5) == Got(Fragments([[0x00, 0x61, 0x62]]), 13);
    assert RefBulk(opts, b, 5) == Got(v, 13);
    assert RefReply(opts, b, 4, true) == Got(v, 13);
    assert RefStreamed(opts, b, 13, [v]) == Got([v], 16);
    assert [] + [v] == [v];
    assert RefReply(opts, b, 4, opts.resp3) == Got(v, 13);
    assert RefStreamed(opts, b, 4, []) == Got([v], 16);
    assert RefAggregate(opts, b, 1, SetS) == Got(Set([v]), 16);
  }

  /** The set of `StreamedResumeStalls` read by the corrected resumption of the list over the blob. */
  lemma BlobResumed(opts: Options)
    requires opts.resp3
    ensures StreamedK(opts, [], [UncomposedBlobF(3), BulkF], [], BlobTail(), 0) == Got([BlobElement(opts)], 8)
  {
    var v := BlobElement(opts);
    var t := BlobTail();
    assert t[0..3] == [0x00, 0x61, 0x62];
    assert RefPayload(t, 0, 3) == Got(Fragments([[0x00, 0x61, 0x62]]), 5);
    assert [] + Flatten([[0x00, 0x61, 0x62]]) == [0x00, 0x61, 0x62] by {
      FlattenOne([0x00, 0x61, 0x62]);
    }
    assert CallK(opts, BlobP, [UncomposedBlobF(3)], [], t, 0) == Got(Held(Composed, [0x00, 0x61, 0x62]), 5);
    assert CallK(opts, StreamedReplyP, [UncomposedBlobF(3), BulkF], [], t, 0) == Got(Val(AReply(v)), 5);
    assert [] + [v] == [v];
    assert At(t, 5) == Some(Dot);
    assert RefStreamed(opts, t, 5, [v]) == Got([v], 8);
  }

  /** `StreamedEntriesK` as the code is written: the byte under the cursor is tested before the suspended entry is resumed. */
  function StreamedEntriesKAsWritten(opts: Options, es: seq<Entry>, below: seq<Frame>, h: seq<Byte>, b: seq<Byte>, c: nat): (o: Out<seq<Entry>>)
    ensures !Truthy(At(b, c)) && below != [] ==> o == Short
    ensures Truthy(At(b, c)) || below == [] ==> o == StreamedEntriesK(opts, es, below, h, b, c)
  {
    if below != [] && !Truthy(At(b, c)) then Short
    else StreamedEntriesK(opts, es, below, h, b, c)
  }

  /** `%?\r\n$3\r\n`: a streamed map whose first key, a blob of three bytes, has none of them yet. */
  function MapHead(): seq<Byte>
  {
    [0x25, 0x3F, 0x0D, 0x0A, 0x24, 0x33, 0x0D, 0x0A]
  }

  /** `\0ab\r\n:1\r\n.\r\n`: the key's bytes, the first of them `0x00`, the value `1`, then the end of the stream. */
  function MapTail(): seq<Byte>
  {
    [0x00, 0x61, 0x62, 0x0D, 0x0A, 0x3A, 0x31, 0x0D, 0x0A, 0x2E, 0x0D, 0x0A]
  }

  /** The stack the streamed map leaves when split after `MapHead()`, its top last. */
  function MapStack(): seq<Frame>
  {
    [UncomposedBlobF(3), BulkF, ExprListF(EntryS, [], 2)]
  }

  /** The entry the map holds: the key `\0ab` with the value 1. */
  function MapEntry(opts: Options): Entry
  {
    Entry(BlobElement(opts), Int(1))
  }

  /**
   * The same stall in `parseStreamedEntryList`: in one chunk the map holds
   * `\0ab` => 1. Split before the key's bytes, the code as written never
   * moves again, whatever follows; the corrected reading of the same stack
   * reads the same map as one chunk.
   */
  lemma StreamedEntriesStall(opts: Options)
    requires opts.resp3
    ensures RefReply(opts, MapHead() + MapTail(), 0, true) == Got(Map([MapEntry(opts)]), 20)
    ensures StreamedEntriesK(opts, [], MapStack(), [], MapTail(), 0) == Got([MapEntry(opts)], 12)
    ensures forall more :: StreamedEntriesKAsWritten(opts, [], MapStack(), [], MapTail() + more, 0) == Short
  {
    MapInOneChunk(opts);
    MapResumed(opts);
    forall more
      ensures StreamedEntriesKAsWritten(opts, [], MapStack(), [], MapTail() + more, 0) == Short
    {
      assert At(MapTail() + more, 0) == Some(0x00);
    }
  }

  /** `:1\r\n` at `i` reads the integer 1 and ends after its CR LF. */
  lemma IntOneAt(opts: Options, b: seq<Byte>, i: nat)
    requires i + 4 <= |b| && b[i..i + 4] == [0x3A, 0x31, 0x0D, 0x0A]
    ensures RefReply(opts, b, i, opts.resp3) == Got(Int(1), i + 4)
  {
    assert b[i] == 0x3A && b[i + 1] == 0x31 && b[i + 2] == 0x0D;
    assert ScanStop(b, i + 2) == i + 2 && ScanStop(b, i + 1) == i + 2;
    assert LineBytes(b, i + 1) == [0x31];
    assert Accumulate(0, [0x31]) == 1 by {
      assert [0x31][..0] == [];
    }
    assert RefDecimals(b, i + 1, 1, 0) == Got(Int(1), i + 4);
    assert RefInt(b, i + 1) == Got(Int(1), i + 4);
    assert RefResp2(opts, b, i + 1, 0x3A) == Got(Int(1), i + 4);
  }

  /** The map of `StreamedEntriesStall` read in one chunk. */
  lemma MapInOneChunk(opts: Options)
    requires opts.resp3
    ensures RefReply(opts, MapHead() + MapTail(), 0, true) == Got(Map([MapEntry(opts)]), 20)
  {
    var v := BlobElement(opts);
    var e := MapEntry(opts);
    var b := MapHead() + MapTail();
    assert b == [0x25, 0x3F, 0x0D, 0x0A, 0x24, 0x33, 0x0D, 0x0A, 0x00, 0x61, 0x62, 0x0D, 0x0A,
                 0x3A, 0x31, 0x0D, 0x0A, 0x2E, 0x0D, 0x0A];
    assert RefSize(b, 1) == Got(Streamed, 4);
    MapEntryInOneChunk(opts);
    assert RefStreamedEntries(opts, b, 17, [e]) == Got([e], 20);
    assert [] + [e] == [e];
    assert RefStreamedEntries(opts, b, 4, []) == Got([e], 20);
    assert RefHash(opts, b, 1) == Got(Map([e]), 20);
  }

  /** The entry of `MapInOneChunk`: the key `\0ab`, then the value 1. */
  lemma MapEntryInOneChunk(opts: Options)
    ensures RefEntry(opts, MapHead() + MapTail(), 4) == Got(MapEntry(opts), 17)
  {
    var v := BlobElement(opts);
    var b := MapHead() + MapTail();
    assert b == [0x25, 0x3F, 0x0D, 0x0A, 0x24, 0x33, 0x0D, 0x0A, 0x00, 0x61, 0x62, 0x0D, 0x0A,
                 0x3A, 0x31, 0x0D, 0x0A, 0x2E, 0x0D, 0x0A];
    MapKeyInOneChunk(opts);
    assert b[13..17] == [0x3A, 0x31, 0x0D, 0x0A];
    IntOneAt(opts, b, 13);
    assert [] + [v] == [v];
    assert [v] + [Int(1)] == [v, Int(1)];
    assert RefSlots(opts, b, 17, [v, Int(1)], 2) == Got([v, Int(1)], 17);
    assert RefSlots(opts, b, 13, [v], 2) == Got([v, Int(1)], 17);
    assert RefSlots(opts, b, 4, [], 2) == Got([v, Int(1)], 17);
  }

  /** The key of `MapEntryInOneChunk`: the blob `\0ab` as a bulk string. */
  lemma MapKeyInOneChunk(opts: Options)
    ensures RefReply(opts, MapHead() + MapTail(), 4, opts.resp3) == Got(BlobElement(opts), 13)
  {
    var b := MapHead() + MapTail();
    assert b == [0x25, 0x3F, 0x0D, 0x0A, 0x24, 0x33, 0x0D, 0x0A, 0x00, 0x61, 0x62, 0x0D, 0x0A,
                 0x3A, 0x31, 0x0D, 0x0A, 0x2E, 0x0D, 0x0A];
    assert ScanStop(b, 6) == 6 && ScanStop(b, 5) == 6;
    assert LineBytes(b, 5) == [0x33];
    assert Accumulate(0, [0x33]) == 3 by {
      assert [0x33][..0] == [];
    }
    assert RefSize(b, 5) == Got(Sized(3), 8);
    assert b[8..11] == [0x00, 0x61, 0x62];
    assert RefBlob(b, 5) == Got(Fragments([[0x00, 0x61, 0x62]]), 13);
    assert RefBulk(opts, b, 5) == Got(BlobElement(opts), 13);
  }

  /** The map of `StreamedEntriesStall` read by the corrected resumption of the map over the key. */
  lemma MapResumed(opts: Options)
    requires opts.resp3
    ensures StreamedEntriesK(opts, [], MapStack(), [], MapTail(), 0) == Got([MapEntry(opts)], 12)
  {
    var e := MapEntry(opts);
    var t := MapTail();
    MapEntryResumed(opts);
    assert [] + [e] == [e];
    assert At(t, 9) == Some(Dot);
    assert RefStreamedEntries(opts, t, 9, [e]) == Got([e], 12);
  }

  /** The suspended entry of `MapResumed`, finished: the key, then the value 1. */
  lemma MapEntryResumed(opts: Options)
    requires opts.resp3
    ensures CallK(opts, StreamedEntryP, MapStack(), [], MapTail(), 0) == Got(Val(AnEntry(MapEntry(opts))), 9)
  {
    var v := BlobElement(opts);
    var t := MapTail();
    MapKeyResumed(opts);
    MapValueRead(opts);
    assert [] + [v] == [v];
    assert AfterSlots(opts, [], 2, t, Got(Val(AReply(v)), 5)) == Got([v, Int(1)], 9);
    assert FrameK(opts, ExprListF(EntryS, [], 2), [UncomposedBlobF(3), BulkF], [], t, 0) == Got(Val(AnEntry(MapEntry(opts))), 9);
    var stk := MapStack();
    assert stk[|stk| - 1] == ExprListF(EntryS, [], 2) && stk[..|stk| - 1] == [UncomposedBlobF(3), BulkF];
  }

  /** After the key of `MapEntryResumed`, the value 1 fills the entry's second slot. */
  lemma MapValueRead(opts: Options)
    ensures RefSlots(opts, MapTail(), 5, [BlobElement(opts)], 2) == Got([BlobElement(opts), Int(1)], 9)
  {
    var v := BlobElement(opts);
    var t := MapTail();
    assert t[5..9] == [0x3A, 0x31, 0x0D, 0x0A];
    IntOneAt(opts, t, 5);
    assert [v] + [Int(1)] == [v, Int(1)];
    assert RefSlots(opts, t, 9, [v, Int(1)], 2) == Got([v, Int(1)], 9);
  }

  /** The suspended key of `MapEntryResumed`, finished: the blob `\0ab` as a bulk string. */
  lemma MapKeyResumed(opts: Options)
    ensures CallK(opts, ParseP, [UncomposedBlobF(3), BulkF], [], MapTail(), 0) == Got(Val(AReply(BlobElement(opts))), 5)
  {
    var stk := [UncomposedBlobF(3), BulkF];
    assert stk[|stk| - 1] == BulkF && stk[..|stk| - 1] == [UncomposedBlobF(3)];
    MapKeyHeld(opts);
  }

  /** The blob under the key of `MapKeyResumed`: its three bytes, held by the composer. */
  lemma MapKeyHeld(opts: Options)
    ensures CallK(opts, BlobP, [UncomposedBlobF(3)], [], MapTail(), 0) == Got(Held(Composed, [0x00, 0x61, 0x62]), 5)
  {
    var t := MapTail();
    assert t[0..3] == [0x00, 0x61, 0x62];
    assert RefPayload(t, 0, 3) == Got(Fragments([[0x00, 0x61, 0x62]]), 5);
    assert [] + Flatten([[0x00, 0x61, 0x62]]) == [0x00, 0x61, 0x62] by {
      FlattenOne([0x00, 0x61, 0x62]);
    }
    var stk := [UncomposedBlobF(3)];
    assert stk[|stk| - 1] == UncomposedBlobF(3) && stk[..|stk| - 1] == [];
  }
}
