/**
 * Byte buffers and the two text helpers of `src/utils.ts`: the `ASCII` lookup
 * table, the `decode` fast path for short ASCII payloads, and `concat`.
 */
module Utils {

  /** One element of a `Uint8Array`. */
  type Byte = x: int | 0 <= x < 256

  datatype Option<+T> = None | Some(value: T)

  /** The shared empty buffer `EMPTY_BUFFER`. */
  const EmptyBuffer: seq<Byte> := []

  /** `buf[i]`: a byte, or `undefined` outside the buffer. */
  function At(buf: seq<Byte>, i: int): (r: Option<Byte>)
    ensures r.Some? <==> 0 <= i < |buf|
    ensures r.Some? ==> r.value == buf[i]
  {
    if 0 <= i < |buf| then Some(buf[i]) else None
  }

  /** The table `ASCII`: 128 one-character strings. */
  function AsciiTable(): (t: seq<string>)
    ensures |t| == 128
    ensures forall i :: 0 <= i < 128 ==> |t[i]| == 1 && t[i][0] as int == i
  {
    seq(128, i requires 0 <= i < 128 => [i as char])
  }

  /** `ASCII[x]`: the one-character string for codes below 128, `undefined` otherwise. */
  function AsciiLookup(x: Option<Byte>): (r: Option<string>)
    ensures r.Some? <==> x.Some? && x.value < 128
    ensures r.Some? ==> r.value == AsciiTable()[x.value]
  {
    if x.Some? && x.value < 128 then Some(AsciiTable()[x.value]) else None
  }

  /** JavaScript's `o += v` for a string `o` and `v` possibly `undefined`. */
  function AppendJs(o: string, v: Option<string>): (r: string)
    ensures v.Some? ==> r == o + v.value
    ensures v.None? ==> r == o + "undefined"
  {
    match v
    case Some(s) => o + s
    case None => o + "undefined"
  }

  /** The character whose code is the byte, for every byte of `b`. */
  function AsciiString(b: seq<Byte>): (s: string)
    ensures |s| == |b|
    ensures forall i :: 0 <= i < |b| ==> s[i] as int == b[i]
  {
    seq(|b|, i requires 0 <= i < |b| => b[i] as char)
  }

  /** Every byte of `b` is at most 0x7E. */
  predicate PrintableAscii(b: seq<Byte>)
  {
    forall i :: 0 <= i < |b| ==> b[i] <= 0x7E
  }

  /**
   * When `decode` answers without `TextDecoder`: a single byte below 128, or
   * fewer than 20 bytes all at most 0x7E.
   */
  predicate ShortAscii(b: seq<Byte>)
  {
    if |b| == 1 then b[0] < 128 else |b| < 20 && PrintableAscii(b)
  }

  /** What `decode` should give: short ASCII payloads directly, everything else through `utf8`. */
  function Decoded(b: seq<Byte>, utf8: seq<Byte> -> string): string
  {
    if ShortAscii(b) then AsciiString(b) else utf8(b)
  }

  /** `decode` exactly as `src/utils.ts` writes it; `None` is `undefined`. */
  function DecodeAsWritten(b: seq<Byte>, utf8: seq<Byte> -> string): Option<string>
  {
    if |b| == 1 then AsciiLookup(Some(b[0]))
    else if |b| < 20 then (if PrintableAscii(b) then Some(AsciiString(b)) else Some(utf8(b)))
    else if |b| > 0 then Some(utf8(b))
    else Some("")
  }

  /** A one-byte payload at or above 0x80 makes `decode` return `undefined`. */
  lemma DecodeAsWrittenLosesHighByte(utf8: seq<Byte> -> string)
    ensures DecodeAsWritten([0x80], utf8) == None
  {
    assert AsciiLookup(Some(0x80)) == None;
  }

  /**
   * `decode` with the one-byte path limited to codes below 128, as its return
   * type promises; everywhere else it agrees with the code as written.
   */
  method Decode(chunk: seq<Byte>, utf8: seq<Byte> -> string) returns (o: string)
    ensures ShortAscii(chunk) ==> o == AsciiString(chunk)
    ensures !ShortAscii(chunk) ==> o == utf8(chunk)
    ensures o == Decoded(chunk, utf8)
    ensures chunk == [] ==> o == ""
  {
    var count := |chunk|;
    if count == 1 {
      var x := AsciiLookup(Some(chunk[0]));
      if x.Some? {
        return x.value;
      }
      return utf8(chunk);
    } else if count < 20 {
      o := "";
      var i := 0;
      while i < count
        invariant 0 <= i <= count
        invariant PrintableAscii(chunk[..i])
        invariant o == AsciiString(chunk[..i])
      {
        var x := chunk[i];
        if x <= 0x7E {
          o := o + AsciiTable()[x];
        } else {
          return utf8(chunk);
        }
        i := i + 1;
      }
      assert chunk[..i] == chunk;
      return o;
    } else {
      return utf8(chunk);
    }
  }

  /** The two decoders agree on every input except a lone byte at or above 0x80. */
  lemma DecodeAgreesWithAsWritten(b: seq<Byte>, utf8: seq<Byte> -> string, o: string)
    requires !(|b| == 1 && b[0] >= 0x80)
    requires ShortAscii(b) ==> o == AsciiString(b)
    requires !ShortAscii(b) ==> o == utf8(b)
    ensures DecodeAsWritten(b, utf8) == Some(o)
  {
    if |b| == 1 {
      assert [b[0] as char] == AsciiString(b);
    }
  }

  /** `concat(a, b)`: a new buffer holding `a` then `b`. */
  method Concat(a: seq<Byte>, b: seq<Byte>) returns (r: seq<Byte>)
    ensures |r| == |a| + |b|
    ensures r[..|a|] == a && r[|a|..] == b
  {
    var out := new Byte[|a| + |b|];
    forall i | 0 <= i < |a| {
      out[i] := a[i];
    }
    forall i | 0 <= i < |b| {
      out[|a| + i] := b[i];
    }
    r := out[..];
  }
}
