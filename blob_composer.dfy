/**
 * `BlobComposer` (`src/blob_composer.ts`): the slices of one payload, kept
 * apart until the payload is complete and concatenated only when there is
 * more than one of them.
 */
module Composer {
  import opened Utils

  /** The parts laid end to end, in insertion order. */
  function Flatten(parts: seq<seq<Byte>>): seq<Byte>
  {
    if parts == [] then [] else Flatten(parts[..|parts| - 1]) + parts[|parts| - 1]
  }

  /** `parts.reduce(sum, 0)`: the part lengths added up from the left. */
  function TotalSize(parts: seq<seq<Byte>>): nat
  {
    if parts == [] then 0 else TotalSize(parts[..|parts| - 1]) + |parts[|parts| - 1]|
  }

  lemma {:induction false} TotalSizeIsFlattenLength(parts: seq<seq<Byte>>)
    ensures TotalSize(parts) == |Flatten(parts)|
  {
    if parts != [] {
      TotalSizeIsFlattenLength(parts[..|parts| - 1]);
    }
  }

  /** Flattening distributes over appending parts. */
  lemma {:induction false} FlattenAppend(parts: seq<seq<Byte>>, more: seq<seq<Byte>>)
    ensures Flatten(parts + more) == Flatten(parts) + Flatten(more)
    decreases |more|
  {
    if more != [] {
      var last := |more| - 1;
      assert (parts + more)[..|parts + more| - 1] == parts + more[..last];
      FlattenAppend(parts, more[..last]);
    } else {
      assert parts + more == parts;
    }
  }

  /** One more part extends the flattened prefix by that part. */
  lemma FlattenSnoc(parts: seq<seq<Byte>>, k: int)
    requires 0 <= k < |parts|
    ensures Flatten(parts[..k + 1]) == Flatten(parts[..k]) + parts[k]
  {
    assert parts[..k + 1][..k] == parts[..k];
  }

  /** A prefix of the parts flattens to no more bytes than all of them. */
  lemma FlattenPrefixFits(parts: seq<seq<Byte>>, k: int)
    requires 0 <= k <= |parts|
    ensures |Flatten(parts[..k])| <= |Flatten(parts)|
  {
    FlattenAppend(parts[..k], parts[k..]);
    assert parts[..k] + parts[k..] == parts;
  }

  /**
   * The loop of `compose`: a buffer of `size` bytes into which every part is
   * copied at a running offset.
   */
  method Join(parts: seq<seq<Byte>>, size: nat) returns (out: seq<Byte>)
    requires size == |Flatten(parts)|
    ensures out == Flatten(parts)
  {
    var buf := new Byte[size];
    var s, k := 0, 0;
    while k < |parts|
      invariant 0 <= k <= |parts|
      invariant s == |Flatten(parts[..k])| <= buf.Length
      invariant buf[..s] == Flatten(parts[..k])
    {
      var x := parts[k];
      FlattenSnoc(parts, k);
      FlattenPrefixFits(parts, k + 1);
      forall i | 0 <= i < |x| {
        buf[s + i] := x[i];
      }
      assert buf[..s + |x|] == buf[..s] + x;
      s := s + |x|;
      k := k + 1;
    }
    assert parts[..k] == parts;
    out := buf[..];
  }

  class BlobComposer {
    /** The slices added since the composer was last emptied. */
    var parts: seq<seq<Byte>>

    constructor ()
      ensures parts == []
    {
      parts := [];
    }

    /** The getter `size`: the number of bytes held. */
    function Size(): (n: nat)
      reads this
      ensures n == |Flatten(parts)|
    {
      TotalSizeIsFlattenLength(parts);
      TotalSize(parts)
    }

    /** The getter `count`: the number of parts. */
    function Count(): (n: nat)
      reads this
      ensures n == 0 <==> parts == []
    {
      |parts|
    }

    /** `add`: keep one more slice, after the others. */
    method Add(blob: seq<Byte>)
      modifies this`parts
      ensures parts == old(parts) + [blob] && Flatten(parts) == Flatten(old(parts)) + blob
      ensures Count() == old(Count()) + 1 && Size() == old(Size()) + |blob|
    {
      parts := parts + [blob];
      FlattenAppend(old(parts), [blob]);
      assert Flatten([blob]) == Flatten([]) + blob;
    }

    /** `clear`: drop every slice. */
    method Clear()
      modifies this`parts
      ensures parts == []
    {
      parts := [];
    }

    /**
     * `compose`: the slices concatenated in insertion order. A single slice is
     * handed back as it is, no slice gives the empty buffer, and the composer
     * holds nothing afterwards.
     */
    method Compose() returns (out: seq<Byte>)
      modifies this`parts
      ensures out == Flatten(old(parts)) && |out| == old(Size())
      ensures |old(parts)| == 1 ==> out == old(parts)[0]
      ensures old(parts) == [] ==> out == EmptyBuffer
      ensures parts == []
    {
      var count := Count();
      if count == 1 {
        out := parts[0];
        assert parts[..0] == [];
        assert Flatten(parts) == Flatten(parts[..0]) + parts[0];
        parts := [];
      } else if count == 0 {
        out := EmptyBuffer;
      } else {
        out := Join(parts, Size());
        parts := [];
      }
    }
  }
}
