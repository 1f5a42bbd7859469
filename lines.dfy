/**
 * The line scans of `src/resp3_parser.ts`: where a `(x = chunk[m++]) && x != CR`
 * loop stops, what the digit and ASCII folds over the scanned bytes compute,
 * and the loops themselves.
 */
module Lines {
  import opened Utils
  import opened Resp

  /*
   * Specifications of the scanning loops.
   */

  /**
   * Where a `while ((x = chunk[m++]) && x != CR)` loop started at `i` stops:
   * the first position that holds a CR, a zero byte, or nothing.
   */
  function ScanStop(buf: seq<Byte>, i: int): (j: int)
    decreases |buf| - i
    ensures i <= j
    ensures i <= |buf| ==> j <= |buf|
    ensures !Truthy(At(buf, j)) || buf[j] == CR
  {
    if Truthy(At(buf, i)) && buf[i] != CR then ScanStop(buf, i + 1) else i
  }

  /** The scan from `i` ended on a CR, that is, the line is complete in `buf`. */
  predicate Terminated(buf: seq<Byte>, i: int)
  {
    Truthy(At(buf, ScanStop(buf, i)))
  }

  /** `buf.subarray(i, j)` for positions inside the buffer, empty otherwise. */
  function Span(buf: seq<Byte>, i: int, j: int): (s: seq<Byte>)
    ensures 0 <= i <= j <= |buf| ==> s == buf[i..j]
    ensures |s| <= |buf|
  {
    if 0 <= i <= j <= |buf| then buf[i..j] else []
  }

  /** The scanned bytes of a line starting at `i`. */
  function LineBytes(buf: seq<Byte>, i: int): seq<Byte>
  {
    Span(buf, i, ScanStop(buf, i))
  }

  /** `o = o * 10 + (x - 48)` for every byte in turn. */
  function Accumulate(acc: int, digits: seq<Byte>): int
  {
    if digits == [] then acc
    else Accumulate(acc, digits[..|digits| - 1]) * 10 + (digits[|digits| - 1] as int - 48)
  }

  /** Some prefix of `digits`, one digit or longer, takes the running value to the ceiling. */
  predicate Overflows(acc: int, digits: seq<Byte>)
  {
    digits != [] &&
    (Overflows(acc, digits[..|digits| - 1]) || Accumulate(acc, digits) >= MaxSafeInteger)
  }

  /** `o += ASCII[x]` for every byte in turn. */
  function AsciiJs(o: string, b: seq<Byte>): string
  {
    if b == [] then o else AppendJs(AsciiJs(o, b[..|b| - 1]), AsciiLookup(Some(b[|b| - 1])))
  }

  /** Appending one scanned byte extends every running fold by one step. */
  lemma SpanStep(buf: seq<Byte>, i: int, j: int)
    requires 0 <= i <= j < |buf|
    ensures Span(buf, i, j + 1) == Span(buf, i, j) + [buf[j]]
    ensures Span(buf, i, j + 1)[..j - i] == Span(buf, i, j)
  {
  }

  /** Adjacent spans join. */
  lemma SpanSplit(buf: seq<Byte>, i: int, j: int, k: int)
    requires 0 <= i <= j <= k <= |buf|
    ensures Span(buf, i, k) == Span(buf, i, j) + Span(buf, j, k)
  {
    assert buf[i..k] == buf[i..j] + buf[j..k];
  }

  /** Folding digits in two runs is folding them in one. */
  lemma {:induction false} AccumulateAppend(acc: int, x: seq<Byte>, y: seq<Byte>)
    ensures Accumulate(acc, x + y) == Accumulate(Accumulate(acc, x), y)
    decreases |y|
  {
    if y == [] {
      assert x + y == x;
    } else {
      var front := y[..|y| - 1];
      assert (x + y)[..|x + y| - 1] == x + front;
      AccumulateAppend(acc, x, front);
    }
  }

  /** Once the running value has reached the ceiling, more digits do not undo it. */
  lemma {:induction false} OverflowsExtends(acc: int, x: seq<Byte>, y: seq<Byte>)
    requires Overflows(acc, x)
    ensures Overflows(acc, x + y)
    decreases |y|
  {
    if y == [] {
      assert x + y == x;
    } else {
      var front := y[..|y| - 1];
      assert (x + y)[..|x + y| - 1] == x + front;
      OverflowsExtends(acc, x, front);
    }
  }

  /**
   * The state of a `(x = buf[m++]) && x != CR` scan from `start`: `x` is the
   * byte just read, at `j` (one before `m`), and every byte before it was a
   * data byte other than CR.
   */
  ghost predicate Scanned(buf: seq<Byte>, start: int, j: int, x: Option<Byte>)
  {
    0 <= start <= j && x == At(buf, j) && (j == start || j <= |buf|) &&
    ScanStop(buf, start) == ScanStop(buf, j)
  }

  /** The scan's first read. */
  lemma ScannedStart(buf: seq<Byte>, start: int)
    requires 0 <= start
    ensures Scanned(buf, start, start, At(buf, start))
  {
  }

  /** The scan reads on past a data byte that is not a CR. */
  lemma ScannedStep(buf: seq<Byte>, start: int, j: int, x: Option<Byte>)
    requires Scanned(buf, start, j, x) && Truthy(x) && x.value != CR
    ensures 0 <= start <= j < |buf|
    ensures Scanned(buf, start, j + 1, At(buf, j + 1))
  {
  }

  /** The scan stops on anything else, and has then read the whole line. */
  lemma ScannedStop(buf: seq<Byte>, start: int, j: int, x: Option<Byte>)
    requires Scanned(buf, start, j, x) && !(Truthy(x) && x.value != CR)
    ensures ScanStop(buf, start) == j && Span(buf, start, j) == LineBytes(buf, start)
  {
  }

  /** One more scanned digit is one more step of the fold. */
  lemma AccumulateStep(acc: int, buf: seq<Byte>, start: int, j: int, x: Option<Byte>, o: int)
    requires 0 <= start <= j < |buf| && x == At(buf, j) && o == Accumulate(acc, Span(buf, start, j))
    ensures o * 10 + (x.value as int - 48) == Accumulate(acc, Span(buf, start, j + 1))
    ensures Overflows(acc, Span(buf, start, j + 1)) <==>
            Overflows(acc, Span(buf, start, j)) || o * 10 + (x.value as int - 48) >= MaxSafeInteger
  {
    SpanStep(buf, start, j);
  }

  /** One more scanned byte is one more `o += ASCII[x]`. */
  lemma AsciiJsStep(o0: string, buf: seq<Byte>, start: int, j: int, x: Option<Byte>, o: string)
    requires 0 <= start <= j < |buf| && x == At(buf, j) && o == AsciiJs(o0, Span(buf, start, j))
    ensures AppendJs(o, AsciiLookup(x)) == AsciiJs(o0, Span(buf, start, j + 1))
  {
    SpanStep(buf, start, j);
  }

  /** `Math.min(s, Math.max(0, available))`: how much of a payload this buffer holds. */
  function Take(s: nat, available: int): (m: nat)
    ensures m <= s && (available > 0 ==> m <= available)
    ensures m < s ==> m == (if available > 0 then available else 0)
  {
    if available <= 0 then 0 else if s < available then s else available
  }

  /**
   * The loop `while ((x = buf[m++]) && x != CR) { o *= 10; o -= 48 - x }` of
   * `parseUint32` and `parseBigIntDecimals`, run from `start`.
   */
  method FoldDigits(buf: seq<Byte>, start: int, acc: int) returns (stop: int, o: int)
    requires 0 <= start
    ensures stop == ScanStop(buf, start)
    ensures o == Accumulate(acc, LineBytes(buf, start))
  {
    o := acc;
    var j := start;
    var x := At(buf, j);
    ScannedStart(buf, start);
    while Truthy(x) && x.value != CR
      invariant Scanned(buf, start, j, x)
      invariant o == Accumulate(acc, Span(buf, start, j))
      decreases |buf| - j
    {
      ScannedStep(buf, start, j, x);
      AccumulateStep(acc, buf, start, j, x, o);
      o := o * 10 + (x.value as int - 48);
      j := j + 1;
      x := At(buf, j);
    }
    ScannedStop(buf, start, j, x);
    stop := j;
  }

  /**
   * The loop of `parseDecimals` from `start`: digits folded while the running
   * value stays below `Number.MAX_SAFE_INTEGER`. With `big` it stopped right
   * after the digit that reached it, at `m`, with `o` the value so far.
   */
  method FoldDecimals(buf: seq<Byte>, start: int, acc: int) returns (m: int, o: int, big: bool)
    requires 0 <= start
    ensures !big ==> m == ScanStop(buf, start) && o == Accumulate(acc, LineBytes(buf, start)) &&
                     !Overflows(acc, LineBytes(buf, start))
    ensures big ==> start < m <= ScanStop(buf, start) && ScanStop(buf, m) == ScanStop(buf, start) &&
                    o == Accumulate(acc, Span(buf, start, m)) && Overflows(acc, Span(buf, start, m))
  {
    o := acc;
    var j := start;
    var x := At(buf, j);
    ScannedStart(buf, start);
    while Truthy(x) && x.value != CR
      invariant Scanned(buf, start, j, x)
      invariant o == Accumulate(acc, Span(buf, start, j))
      invariant !Overflows(acc, Span(buf, start, j))
      decreases |buf| - j
    {
      ScannedStep(buf, start, j, x);
      AccumulateStep(acc, buf, start, j, x, o);
      var t := o * 10 + (x.value as int - 48);
      if t >= MaxSafeInteger {
        return j + 1, t, true;
      }
      o := t;
      j := j + 1;
      x := At(buf, j);
    }
    ScannedStop(buf, start, j, x);
    return j, o, false;
  }

  /** The loop of `parseAsciiLineBytes` from `start`: `o += ASCII[x]` for every byte of the line. */
  method FoldAscii(buf: seq<Byte>, start: int, o0: string) returns (stop: int, o: string)
    requires 0 <= start
    ensures stop == ScanStop(buf, start)
    ensures o == AsciiJs(o0, LineBytes(buf, start))
  {
    o := o0;
    var j := start;
    var x := At(buf, j);
    ScannedStart(buf, start);
    while Truthy(x) && x.value != CR
      invariant Scanned(buf, start, j, x)
      invariant o == AsciiJs(o0, Span(buf, start, j))
      decreases |buf| - j
    {
      ScannedStep(buf, start, j, x);
      AsciiJsStep(o0, buf, start, j, x, o);
      o := AppendJs(o, AsciiLookup(x));
      j := j + 1;
      x := At(buf, j);
    }
    ScannedStop(buf, start, j, x);
    stop := j;
  }

  /** The loop of `parseLine`: `m++` while the byte at `m` is present, non-zero and not CR. */
  method LineEnd(buf: seq<Byte>, start: int) returns (m: int)
    requires 0 <= start
    ensures m == ScanStop(buf, start)
  {
    m := start;
    var x := At(buf, m);
    while Truthy(x) && x.value != CR
      invariant start <= m
      invariant x == At(buf, m)
      invariant ScanStop(buf, start) == ScanStop(buf, m)
      decreases |buf| - m
    {
      m := m + 1;
      x := At(buf, m);
    }
  }
}
